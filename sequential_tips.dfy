/**
 * The native sequential-tips stepper: a counter that advances one tip
 * each time the block count changes, and the tips that read it.
 */
module SequentialTips {
  import opened Wrappers

  /** The tips, in the order they are shown. */
  const Tips: seq<string> := ["block_inserter", "block_actions", "block_settings", "media_actions", "help"]

  /** The tip name published once no tip is current. */
  const Completed: string := "Completed"

  /** The message of the error a Tip throws outside the stepper. */
  const OutsideStepperError: string := "SequentialTips.Tip cannot be rendered outside of the SequentialTips component"

  /** The tip the stepper publishes for a given index. */
  function CurrentTip(index: int): (tip: string)
    ensures 0 <= index < |Tips| ==> tip == Tips[index]
    ensures tip == Completed <==> !(0 <= index < |Tips|)
    ensures tip in Tips <==> 0 <= index < |Tips|
  {
    if index >= 0 && index < |Tips| then Tips[index] else Completed
  }

  /**
   * The stepper's state: its `index` and the number of step timers that
   * are scheduled and not yet fired or cleared.
   */
  datatype Stepper = Stepper(index: int, pending: nat)

  /** What can happen to the stepper. */
  datatype Event = BlockCountChanged | TimerFired

  /** The bounds the stepper keeps. */
  predicate Bounded(s: Stepper)
  {
    && -1 <= s.index <= |Tips| + 1
    && s.pending <= 1
    && (s.pending == 1 ==> s.index <= |Tips|)
  }

  /** The state right after mounting: index -1, and the mount effect's step scheduled. */
  function Mounted(): (s: Stepper)
    ensures Bounded(s) && s.index == -1 && s.pending == 1
  {
    Stepper(-1, 1)
  }

  /**
   * One event. A block-count change re-runs the effect: its cleanup clears
   * the pending timer, then a new one is scheduled unless the index is past
   * the number of tips. A timer firing adds exactly one to the index and
   * consumes its step; with no step pending nothing fires.
   */
  function Step(s: Stepper, e: Event): (t: Stepper)
    ensures e == TimerFired && s.pending > 0 ==> t == Stepper(s.index + 1, s.pending - 1)
    ensures e == TimerFired && s.pending == 0 ==> t == s
    ensures e == BlockCountChanged ==> t.index == s.index && t.pending <= 1
    ensures e == BlockCountChanged ==> (t.pending == 1 <==> s.index <= |Tips|)
  {
    match e
    case BlockCountChanged => Stepper(s.index, if s.index > |Tips| then 0 else 1)
    case TimerFired => if s.pending > 0 then Stepper(s.index + 1, s.pending - 1) else s
  }

  function Run(s: Stepper, events: seq<Event>): Stepper
    decreases |events|
  {
    if events == [] then s else Run(Step(s, events[0]), events[1..])
  }

  /** Each event keeps the stepper within its bounds. */
  lemma StepBounded(s: Stepper, e: Event)
    requires Bounded(s)
    ensures Bounded(Step(s, e))
  {
  }

  /**
   * Whatever happens after mounting, the index stays between -1 and one
   * past the number of tips, and at most one step is pending.
   */
  lemma {:induction false} RunBounded(s: Stepper, events: seq<Event>)
    requires Bounded(s)
    ensures Bounded(Run(s, events))
    decreases |events|
  {
    if events != [] {
      StepBounded(s, events[0]);
      RunBounded(Step(s, events[0]), events[1..]);
    }
  }

  /** The index never decreases. */
  lemma {:induction false} RunMonotone(s: Stepper, events: seq<Event>)
    ensures Run(s, events).index >= s.index
    decreases |events|
  {
    if events != [] {
      RunMonotone(Step(s, events[0]), events[1..]);
    }
  }

  /** `k` rounds of "the timer fires, then the block count changes". */
  function Rounds(k: nat): seq<Event>
  {
    if k == 0 then [] else Rounds(k - 1) + [TimerFired, BlockCountChanged]
  }

  lemma {:induction false} RunAppend(s: Stepper, a: seq<Event>, b: seq<Event>)
    ensures Run(s, a + b) == Run(Run(s, a), b)
    decreases |a|
  {
    if a != [] {
      assert (a + b)[1..] == a[1..] + b;
      RunAppend(Step(s, a[0]), a[1..], b);
    } else {
      assert a + b == b;
    }
  }

  /**
   * From mounting, each round shows the next tip: after `k` rounds the
   * index is `k - 1`, up to one past the last tip, and a step is pending
   * exactly while the index has not passed the number of tips.
   */
  lemma {:induction false} RoundsAdvance(k: nat)
    ensures var s := Run(Mounted(), Rounds(k));
      && s.index == (if k - 1 < |Tips| + 1 then k - 1 else |Tips| + 1)
      && (s.pending == 1 <==> k - 1 <= |Tips|)
  {
    if k > 0 {
      RoundsAdvance(k - 1);
      RunBounded(Mounted(), Rounds(k - 1));
      RunAppend(Mounted(), Rounds(k - 1), [TimerFired, BlockCountChanged]);
      var s := Run(Mounted(), Rounds(k - 1));
      var round := [TimerFired, BlockCountChanged];
      assert round[1..] == [BlockCountChanged] && round[1..][1..] == [];
      assert Run(s, round) == Step(Step(s, TimerFired), BlockCountChanged);
      assert Rounds(k) == Rounds(k - 1) + round;
    }
  }

  /** Round `k` (from 1 to the number of tips) publishes tip `k - 1`. */
  lemma TipsShownInOrder(k: nat)
    requires 1 <= k <= |Tips|
    ensures CurrentTip(Run(Mounted(), Rounds(k)).index) == Tips[k - 1]
  {
    RoundsAdvance(k);
  }

  /**
   * A Tip reads the tip name from the surrounding stepper: outside a
   * stepper it throws; inside, it is fully opaque when it is the current
   * tip and dimmed to 0.25 otherwise.
   */
  function TipOpacity(currentTipName: Option<string>, name: string): (r: Result<real, string>)
    ensures r.Err? <==> currentTipName == None
    ensures r.Err? ==> r.error == OutsideStepperError
    ensures currentTipName.Some? ==> (r == Ok(1.0) <==> name == currentTipName.value)
    ensures currentTipName.Some? ==> (r == Ok(0.25) <==> name != currentTipName.value)
  {
    match currentTipName
    case None => Err(OutsideStepperError)
    case Some(current) => Ok(if name != current then 0.25 else 1.0)
  }

  /** Inside a stepper at most one tip of the list is highlighted, and none once completed. */
  lemma OneTipHighlighted(index: int, i: nat, j: nat)
    requires i < |Tips| && j < |Tips|
    requires TipOpacity(Some(CurrentTip(index)), Tips[i]) == Ok(1.0)
    ensures TipOpacity(Some(CurrentTip(index)), Tips[j]) == Ok(1.0) <==> i == j
    ensures 0 <= index < |Tips| && i == index
  {
  }

  /** The stepper component: its `index` state and its pending step timer. */
  class SequentialStepper {
    var index: int
    var pending: nat

    ghost predicate Valid()
      reads this
    {
      Bounded(State())
    }

    function State(): Stepper
      reads this
    {
      Stepper(index, pending)
    }

    /** Mounting: `useState(-1)`, then the mount run of the effect. */
    constructor ()
      ensures Valid() && State() == Mounted()
    {
      index := -1;
      pending := 0;
      new;
      OnBlockCountChange();
    }

    /** The effect, re-run because `blockCount` changed (or on mount). */
    method OnBlockCountChange()
      requires Valid()
      modifies this
      ensures State() == Step(old(State()), BlockCountChanged)
      ensures Valid()
    {
      pending := 0;
      if index > |Tips| {
        return;
      }
      pending := pending + 1;
    }

    /** The pending step timer fires: `setIndex( ( i ) => i + 1 )`. */
    method OnTimerFired()
      requires Valid() && pending > 0
      modifies this
      ensures State() == Step(old(State()), TimerFired)
      ensures Valid()
    {
      index := index + 1;
      pending := pending - 1;
    }
  }
}
