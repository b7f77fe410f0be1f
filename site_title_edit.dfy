/**
 * The site-title block in the editor: the tag and class it renders with,
 * the title element, and the attribute updates its two toggles make.
 */
module SiteTitleEdit {
  import opened Wrappers
  import opened Strings
  import SiteTitle

  type Attributes = SiteTitle.Attributes

  /**
   * JavaScript's template-literal rendering of an optional integer level:
   * an absent level is `undefined`. A `null` level (`hnull`) and levels
   * of 2^53 or more, which JavaScript holds as doubles, are not modelled.
   */
  function JsNumberText(level: Option<int>): string
  {
    match level
    case None => "undefined"
    case Some(l) => IntToString(l)
  }

  /** JavaScript truthiness of an optional string: absent and "" are falsy. */
  predicate JsTruthy(v: Option<string>)
  {
    v.Some? && v.value != ""
  }

  /** `level === 0 ? 'p' : \`h${ level }\``. */
  function TagName(level: Option<int>): (tag: string)
    ensures tag == "p" <==> level == Some(0)
    ensures level != Some(0) ==> tag == "h" + JsNumberText(level)
  {
    if level == Some(0) then "p" else "h" + JsNumberText(level)
  }

  /** For every set integer level the editor uses the server renderer's tag. */
  lemma TagNameAgreesWithServer(level: int)
    ensures TagName(Some(level)) == SiteTitle.TagName(Some(level))
  {
  }

  /**
   * With the level unset the two disagree: the server falls back to `h1`,
   * the editor's template literal spells out `undefined`.
   */
  lemma UnsetLevelDisagrees()
    ensures TagName(None) == "hundefined" && SiteTitle.TagName(None) == "h1"
  {
  }

  /** The `classnames` map: the alignment class when `textAlign` is truthy. */
  function AlignClassName(textAlign: Option<string>): (c: string)
    ensures c == "" <==> !JsTruthy(textAlign)
    ensures JsTruthy(textAlign) ==> c == "has-text-align-" + textAlign.value
  {
    if JsTruthy(textAlign) then "has-text-align-" + textAlign.value else ""
  }

  /**
   * The editor and the server give the same alignment class except for
   * the string "0", which JavaScript treats as truthy and PHP as empty.
   */
  lemma AlignClassAgreesWithServer(textAlign: Option<string>)
    ensures AlignClassName(textAlign) == SiteTitle.AlignClassName(textAlign) <==> textAlign != Some("0")
  {
    if textAlign == Some("0") {
      assert AlignClassName(textAlign) == "has-text-align-0";
    }
  }

  /** An attribute-update object passed to `setAttributes`. */
  datatype Update =
    | SetLevel(level: Option<int>)
    | SetTextAlign(textAlign: Option<string>)
    | SetIsLink(isLink: bool)
    | SetLinkTarget(linkTarget: string)

  /** `setAttributes` merges the update into the attributes. */
  function Apply(a: Attributes, u: Update): (b: Attributes)
    ensures u.SetLevel? ==> b.level == u.level && b.(level := a.level) == a
    ensures u.SetTextAlign? ==> b.textAlign == u.textAlign && b.(textAlign := a.textAlign) == a
    ensures u.SetIsLink? ==> b.isLink == u.isLink && b.(isLink := a.isLink) == a
    ensures u.SetLinkTarget? ==> b.linkTarget == u.linkTarget && b.(linkTarget := a.linkTarget) == a
  {
    match u
    case SetLevel(l) => a.(level := l)
    case SetTextAlign(t) => a.(textAlign := t)
    case SetIsLink(v) => a.(isLink := v)
    case SetLinkTarget(t) => a.(linkTarget := t)
  }

  /** The level toolbar's and the alignment control's `onChange`. */
  function OnLevelChange(newLevel: int): Update { SetLevel(Some(newLevel)) }
  function OnAlignChange(nextAlign: Option<string>): Update { SetTextAlign(nextAlign) }

  /** The toolbar controls set the level and the alignment and nothing else. */
  lemma ToolbarUpdates(a: Attributes, newLevel: int, nextAlign: Option<string>)
    ensures Apply(a, OnLevelChange(newLevel)) == a.(level := Some(newLevel))
    ensures Edit(Apply(a, OnLevelChange(newLevel))).tagName == SiteTitle.TagName(Some(newLevel))
    ensures Apply(a, OnAlignChange(nextAlign)) == a.(textAlign := nextAlign)
  {
  }

  /** The "Make title a link to home" toggle's `onChange`. */
  function OnLinkToggle(a: Attributes): (u: Update)
    ensures Apply(a, u).isLink == !a.isLink
    ensures Apply(a, u).(isLink := a.isLink) == a
  {
    SetIsLink(!a.isLink)
  }

  /** The "Open in new tab" toggle's `onChange`. */
  function OnNewTabToggle(value: bool): (u: Update)
    ensures u.SetLinkTarget?
    ensures u.linkTarget == "_blank" <==> value
    ensures !value ==> u.linkTarget == "_self"
  {
    SetLinkTarget(if value then "_blank" else "_self")
  }

  /** The title element: a `RichText`, as an anchor when linking. */
  datatype TitleElement = TitleElement(tagName: Option<string>, href: Option<string>)

  /** One toggle in the inspector: whether it shows as checked. */
  datatype Toggle = Toggle(checked: bool)

  /** What the edit component renders. */
  datatype View = View(
    tagName: string,
    className: string,
    title: TitleElement,
    linkToggle: Toggle,
    newTabToggle: Option<Toggle>)

  /**
   * The edit component for the given attributes. The title is an anchor,
   * and the new-tab toggle is offered, exactly when `isLink` holds; the
   * new-tab toggle shows as checked exactly when the target is `_blank`.
   */
  function Edit(a: Attributes): (v: View)
    ensures v.tagName == TagName(a.level) && v.className == AlignClassName(a.textAlign)
    ensures v.title.tagName == Some("a") <==> a.isLink
    ensures v.newTabToggle.Some? <==> a.isLink
    ensures v.linkToggle.checked == a.isLink
    ensures a.isLink ==> v.newTabToggle.value.checked == (a.linkTarget == "_blank")
  {
    View(
      TagName(a.level),
      AlignClassName(a.textAlign),
      if a.isLink then TitleElement(Some("a"), Some("#site-title-pseudo-link")) else TitleElement(None, None),
      Toggle(a.isLink),
      if a.isLink then Some(Toggle(a.linkTarget == "_blank")) else None)
  }

  /** Using the link toggle twice restores the attributes. */
  lemma LinkToggleTwice(a: Attributes)
    ensures var b := Apply(a, OnLinkToggle(a)); Apply(b, OnLinkToggle(b)) == a
  {
  }

  /**
   * Switching the new-tab toggle to `value` makes it show `value`, and
   * changes nothing but the link target.
   */
  lemma NewTabToggleRoundTrip(a: Attributes, value: bool)
    requires a.isLink
    ensures var b := Apply(a, OnNewTabToggle(value));
      && Edit(b).newTabToggle == Some(Toggle(value))
      && b.(linkTarget := a.linkTarget) == a
  {
  }
}
