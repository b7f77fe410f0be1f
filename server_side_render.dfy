/**
 * `ServerSideRender`: the renderer path and request for a block, the
 * `(response, isLoading)` state the fetch handlers update, and the choice
 * of what to show.
 */
module ServerSideRender {
  import opened Wrappers

  /** Block attributes, an opaque JSON object. */
  type Attributes = map<string, string>

  /** A query-argument value: a string, or an attributes object. */
  datatype QueryValue = Text(text: string) | AttributesArg(attributes: Attributes)

  /** What `addQueryArgs` is given: a base path and the query-argument object. */
  datatype Path = Path(base: string, queryArgs: map<string, QueryValue>)

  const RendererBase: string := "/wp/v2/block-renderer/"

  /**
   * `rendererPath`: `context: 'edit'`, then the attributes when they are
   * non-null, then `urlQueryArgs`, later keys overriding earlier ones.
   */
  function RendererPath(block: string, attributes: Option<Attributes>, urlQueryArgs: map<string, QueryValue>): (p: Path)
    ensures p.base == RendererBase + block
    ensures p.queryArgs.Keys == {"context"} + (if attributes.Some? then {"attributes"} else {}) + urlQueryArgs.Keys
    ensures forall k :: k in urlQueryArgs ==> p.queryArgs[k] == urlQueryArgs[k]
    ensures "context" !in urlQueryArgs ==> p.queryArgs["context"] == Text("edit")
    ensures "attributes" !in urlQueryArgs ==>
      ("attributes" in p.queryArgs <==> attributes.Some?) &&
      (attributes.Some? ==> p.queryArgs["attributes"] == AttributesArg(attributes.value))
  {
    Path(
      RendererBase + block,
      map["context" := Text("edit")]
      + (if attributes.Some? then map["attributes" := AttributesArg(attributes.value)] else map[])
      + urlQueryArgs)
  }

  /** The props `fetchData` reads; None stands for an absent prop. */
  datatype Options = Options(
    block: string,
    attributes: Option<Attributes>,
    httpMethod: Option<string>,
    urlQueryArgs: map<string, QueryValue>)

  datatype Method = GET | POST

  /** The request body `{ attributes }`. */
  datatype Body = Body(attributes: Option<Attributes>)

  /** The object handed to `apiFetch`. */
  datatype ApiRequest = ApiRequest(path: Path, data: Option<Body>, httpMethod: Method)

  /** `httpMethod` defaults to 'GET'; only exactly 'POST' selects a POST. */
  predicate IsPostRequest(options: Options)
  {
    options.httpMethod.Some? && "POST" == options.httpMethod.value
  }

  /**
   * The request `fetchData` issues: a POST carries the attributes in its
   * body and leaves them out of the path; any other method is a GET with
   * the attributes in the path and no body.
   */
  function BuildRequest(options: Options): (req: ApiRequest)
    ensures req.httpMethod == POST <==> options.httpMethod == Some("POST")
    ensures req.path == RendererPath(options.block, if req.httpMethod == POST then None else options.attributes, options.urlQueryArgs)
    ensures req.httpMethod == POST ==> req.data == Some(Body(options.attributes))
    ensures req.httpMethod == GET ==> req.data == None
  {
    var isPostRequest := IsPostRequest(options);
    var urlAttributes := if isPostRequest then None else options.attributes;
    ApiRequest(
      RendererPath(options.block, urlAttributes, options.urlQueryArgs),
      if isPostRequest then Some(Body(options.attributes)) else None,
      if isPostRequest then POST else GET)
  }

  /** A POST never puts attributes into the path unless `urlQueryArgs` does. */
  lemma PostKeepsAttributesOutOfPath(options: Options)
    requires options.httpMethod == Some("POST")
    requires "attributes" !in options.urlQueryArgs
    ensures "attributes" !in BuildRequest(options).path.queryArgs
    ensures BuildRequest(options).data == Some(Body(options.attributes))
  {
  }

  /** What a fetch resolves with; None is a falsy value. */
  datatype FetchResponse = FetchResponse(rendered: string)

  /** The `response` state: null, the rendered markup, or the error object. */
  datatype Response = Null | Rendered(html: string) | ErrorResponse(errorMsg: string)

  /** The component's state. */
  datatype State = State(response: Response, isLoading: bool)

  /** `useState( null )` and `useState( false )`. */
  const Initial: State := State(Null, false)

  /** The locals a fetch's handlers close over: the promise and `currentFetchRequest`. */
  datatype Closure = Closure(fetchRequest: nat, currentFetchRequest: nat)

  /**
   * The handlers' guard as written: `isMounted` is tested as an object
   * reference (never its `.current`), and the promise is compared with the
   * call's own local `currentFetchRequest`.
   */
  predicate Guard(isMountedPresent: bool, c: Closure)
  {
    isMountedPresent && c.fetchRequest == c.currentFetchRequest
  }

  /** `setIsLoading( true )` at the start of `fetchData`. */
  function Started(s: State): (t: State)
    ensures t.isLoading && t.response == s.response
    ensures !Render(t).ErrorPlaceholder? && !Render(t).RawHtml?
  {
    s.(isLoading := true)
  }

  /** The `then` handler: only a truthy response is applied. */
  function Succeeded(s: State, guard: bool, fetchResponse: Option<FetchResponse>): (t: State)
    ensures guard && fetchResponse.Some? ==> !t.isLoading && t.response == Rendered(fetchResponse.value.rendered)
    ensures guard && fetchResponse.Some? && fetchResponse.value.rendered != "" ==>
      Render(t) == RawHtml(Rendered(fetchResponse.value.rendered))
    ensures !(guard && fetchResponse.Some?) ==> t == s
  {
    if guard && fetchResponse.Some? then State(Rendered(fetchResponse.value.rendered), false) else s
  }

  /** The `catch` handler: the error object keeps the message as it is. */
  function Failed(s: State, guard: bool, message: string): (t: State)
    ensures guard ==> !t.isLoading && t.response == ErrorResponse(message)
    ensures guard ==> Render(t) == ErrorPlaceholder(message)
    ensures !guard ==> t == s
  {
    if guard then State(ErrorResponse(message), false) else s
  }

  /** The four things the component can show. */
  datatype View =
    | EmptyPlaceholder
    | LoadingPlaceholder(shown: Response)
    | ErrorPlaceholder(errorMsg: string)
    | RawHtml(content: Response)

  /**
   * The render: an empty string shows the empty placeholder even while
   * loading; otherwise loading shows the spinner over the last response;
   * otherwise an error object shows the error; otherwise the markup.
   */
  function Render(s: State): (v: View)
    ensures v == EmptyPlaceholder <==> s.response == Rendered("")
    ensures v.LoadingPlaceholder? <==> s.response != Rendered("") && s.isLoading
    ensures v.LoadingPlaceholder? ==> v.shown == s.response
    ensures v.ErrorPlaceholder? <==> s.response.ErrorResponse? && !s.isLoading
    ensures v.ErrorPlaceholder? ==> v.errorMsg == s.response.errorMsg
    ensures v.RawHtml? <==> !s.isLoading && s.response != Rendered("") && !s.response.ErrorResponse?
    ensures v.RawHtml? ==> v.content == s.response
  {
    if s.response == Rendered("") then EmptyPlaceholder
    else if s.isLoading then LoadingPlaceholder(s.response)
    else if s.response.ErrorResponse? then ErrorPlaceholder(s.response.errorMsg)
    else RawHtml(s.response)
  }

  /**
   * Everything that can happen to the component after mounting. The call
   * number of a settlement is not tied to the calls issued so far, and a
   * call may settle more than once: this over-approximates what `apiFetch`
   * can do, so the lemmas over event sequences also cover those runs.
   */
  datatype Event =
    | Fetch                                        // `fetchData` runs
    | Resolve(call: nat, fetchResponse: Option<FetchResponse>) // call number `call` resolves
    | Reject(call: nat, message: string)           // call number `call` rejects
    | Unmount                                      // the cleanup sets `isMounted.current = false`

  /** The state and the number of calls issued so far. */
  datatype Component = Component(state: State, calls: nat)

  /** The closure of call number `k`: its promise is its own `currentFetchRequest`. */
  function ClosureOf(k: nat): Closure
  {
    Closure(k, k)
  }

  /** One event; the `isMounted` ref object is present throughout, unmounting only clears `.current`. */
  function Next(c: Component, e: Event): (d: Component)
    ensures d.calls == if e == Fetch then c.calls + 1 else c.calls
    ensures e == Fetch ==> d.state.isLoading
    ensures e.Resolve? ==> d.state == Succeeded(c.state, true, e.fetchResponse)
    ensures e.Reject? ==> d.state == Failed(c.state, true, e.message)
    ensures e == Unmount ==> d == c
  {
    match e
    case Fetch => Component(Started(c.state), c.calls + 1)
    case Resolve(k, r) => Component(Succeeded(c.state, Guard(true, ClosureOf(k)), r), c.calls)
    case Reject(k, m) => Component(Failed(c.state, Guard(true, ClosureOf(k)), m), c.calls)
    case Unmount => c
  }

  function RunEvents(c: Component, events: seq<Event>): Component
    decreases |events|
  {
    if events == [] then c else RunEvents(Next(c, events[0]), events[1..])
  }

  /** Starting a fetch shows the spinner, unless the last response was empty. */
  lemma FetchShowsLoading(c: Component)
    ensures Next(c, Fetch).state.isLoading
    ensures c.state.response != Rendered("") ==> Render(Next(c, Fetch).state) == LoadingPlaceholder(c.state.response)
    ensures c.state.response == Rendered("") ==> Render(Next(c, Fetch).state) == EmptyPlaceholder
  {
  }

  /**
   * Every settled call reaches the setters, however stale and even after
   * unmounting (React would then drop the update; the model shows the
   * calls): a truthy response shows its markup (or the empty
   * placeholder for ''), a falsy one leaves the state alone, a rejection
   * shows its message verbatim.
   */
  lemma EverySettlementApplies(c: Component, k: nat, r: Option<FetchResponse>, message: string)
    ensures r.Some? ==> Next(c, Resolve(k, r)).state == State(Rendered(r.value.rendered), false)
    ensures r.Some? && r.value.rendered != "" ==> Render(Next(c, Resolve(k, r)).state) == RawHtml(Rendered(r.value.rendered))
    ensures r.Some? && r.value.rendered == "" ==> Render(Next(c, Resolve(k, r)).state) == EmptyPlaceholder
    ensures r.None? ==> Next(c, Resolve(k, r)) == c
    ensures Render(Next(c, Reject(k, message)).state) == ErrorPlaceholder(message)
    ensures Next(Next(c, Unmount), Resolve(k, r)) == Next(c, Resolve(k, r))
  {
  }

  /** A falsy response to a fresh fetch leaves the component loading. */
  lemma FalsyResponseKeepsLoading(c: Component, k: nat)
    ensures RunEvents(c, [Fetch, Resolve(k, None)]).state.isLoading
  {
    var events := [Fetch, Resolve(k, None)];
    assert events[1..] == [Resolve(k, None)] && events[1..][1..] == [];
    var c1 := Next(c, Fetch);
    assert RunEvents(c, events) == RunEvents(c1, [Resolve(k, None)]);
    assert RunEvents(c1, [Resolve(k, None)]) == RunEvents(Next(c1, Resolve(k, None)), []);
  }

  /**
   * The guards do not reject stale responses: when call 0 settles after
   * the later call 1, call 0's markup is what remains.
   */
  lemma LastArrivalWins(c: Component, a: FetchResponse, b: FetchResponse)
    ensures RunEvents(c, [Fetch, Fetch, Resolve(c.calls + 1, Some(b)), Resolve(c.calls, Some(a))]).state
      == State(Rendered(a.rendered), false)
  {
    var events := [Fetch, Fetch, Resolve(c.calls + 1, Some(b)), Resolve(c.calls, Some(a))];
    assert events[1..] == [Fetch, Resolve(c.calls + 1, Some(b)), Resolve(c.calls, Some(a))];
    assert events[1..][1..] == [Resolve(c.calls + 1, Some(b)), Resolve(c.calls, Some(a))];
    assert events[1..][1..][1..] == [Resolve(c.calls, Some(a))];
    assert events[1..][1..][1..][1..] == [];
    var c1 := Next(c, Fetch);
    var c2 := Next(c1, Fetch);
    var c3 := Next(c2, Resolve(c.calls + 1, Some(b)));
    var c4 := Next(c3, Resolve(c.calls, Some(a)));
    assert RunEvents(c, events) == RunEvents(c1, events[1..]);
    assert RunEvents(c1, events[1..]) == RunEvents(c2, events[1..][1..]);
    assert RunEvents(c2, events[1..][1..]) == RunEvents(c3, events[1..][1..][1..]);
    assert RunEvents(c3, events[1..][1..][1..]) == RunEvents(c4, []);
  }

  /** `useRef( true )`. */
  class MountedRef {
    var current: bool

    constructor ()
      ensures current
    {
      current := true;
    }
  }

  /** The component instance: its two state hooks, its ref and the promises made so far. */
  class ServerSideRenderComponent {
    var response: Response
    var isLoading: bool
    var isMounted: MountedRef?
    var calls: nat

    /** `isMounted` is set on mounting and never replaced. */
    ghost predicate Valid()
      reads this
    {
      isMounted != null
    }

    function Current(): State
      reads this
    {
      State(response, isLoading)
    }

    constructor ()
      ensures Valid() && Current() == Initial && calls == 0
      ensures fresh(isMounted) && isMounted.current
    {
      response := Null;
      isLoading := false;
      calls := 0;
      isMounted := new MountedRef();
    }

    /**
     * `fetchData`: returns the request given to `apiFetch` and the locals
     * its handlers will see, or None when the `isMounted` guard stops it.
     */
    method FetchData(options: Options) returns (issued: Option<(ApiRequest, Closure)>)
      modifies this`isLoading, this`calls
      ensures isMounted == null ==> issued == None && Current() == old(Current()) && calls == old(calls)
      ensures isMounted != null ==>
        && issued == Some((BuildRequest(options), ClosureOf(old(calls))))
        && Current() == Started(old(Current()))
        && calls == old(calls) + 1
    {
      if isMounted == null {
        return None;
      }
      isLoading := true;
      var isPostRequest := IsPostRequest(options);
      var urlAttributes := if isPostRequest then None else options.attributes;
      var path := RendererPath(options.block, urlAttributes, options.urlQueryArgs);
      var data := if isPostRequest then Some(Body(options.attributes)) else None;
      var currentFetchRequest := calls;
      var fetchRequest := currentFetchRequest;
      calls := calls + 1;
      return Some((ApiRequest(path, data, if isPostRequest then POST else GET), Closure(fetchRequest, currentFetchRequest)));
    }

    /** The `then` handler of the fetch whose locals are `c`. */
    method OnResolved(c: Closure, fetchResponse: Option<FetchResponse>)
      modifies this`response, this`isLoading
      ensures Current() == Succeeded(old(Current()), Guard(isMounted != null, c), fetchResponse)
    {
      if isMounted != null && c.fetchRequest == c.currentFetchRequest && fetchResponse.Some? {
        response := Rendered(fetchResponse.value.rendered);
        isLoading := false;
      }
    }

    /** The `catch` handler of the fetch whose locals are `c`. */
    method OnRejected(c: Closure, message: string)
      modifies this`response, this`isLoading
      ensures Current() == Failed(old(Current()), Guard(isMounted != null, c), message)
    {
      if isMounted != null && c.fetchRequest == c.currentFetchRequest {
        response := ErrorResponse(message);
        isLoading := false;
      }
    }

    /** The mount effect's cleanup. */
    method Unmount()
      requires Valid()
      modifies isMounted
      ensures Valid() && !isMounted.current
    {
      isMounted.current := false;
    }
  }

  /**
   * A client of the component: a fetch whose response arrives after the
   * component has unmounted still passes the guard, so its handler calls
   * the setters.
   */
  method ResolveAfterUnmount(options: Options, r: FetchResponse) returns (final: State)
    ensures final == State(Rendered(r.rendered), false)
  {
    var component := new ServerSideRenderComponent();
    var issued := component.FetchData(options);
    component.Unmount();
    assert !component.isMounted.current;
    component.OnResolved(issued.value.1, Some(r));
    final := component.Current();
  }

  /**
   * A client of the component: with two fetches in flight, the older one
   * settling last is what remains.
   */
  method OlderFetchSettlingLastWins(first: Options, second: Options, a: FetchResponse, b: FetchResponse)
    returns (final: State)
    ensures final == State(Rendered(a.rendered), false)
  {
    var component := new ServerSideRenderComponent();
    var older := component.FetchData(first);
    var newer := component.FetchData(second);
    assert older.value.1 != newer.value.1;
    component.OnResolved(newer.value.1, Some(b));
    component.OnResolved(older.value.1, Some(a));
    final := component.Current();
  }
}
