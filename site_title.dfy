/**
 * Server-side rendering of the site-title block: the heading tag, the
 * alignment class and the optional link to the home page.
 */
module SiteTitle {
  import opened Wrappers
  import opened Strings

  /**
   * The block attributes the renderer and the editor read. An absent
   * `level` or `textAlign` is None.
   */
  datatype Attributes = Attributes(level: Option<int>, textAlign: Option<string>, isLink: bool, linkTarget: string)

  /**
   * What the renderer takes from WordPress: `get_bloginfo('url')`,
   * `get_bloginfo('name')` and the translated, escaped
   * "(opens in a new tab)" label.
   */
  datatype Site = Site(url: string, name: string, newTabLabel: string)

  /** The title markup before it is written out. */
  datatype NewTab = NewTab(target: string, ariaLabel: string)
  datatype TitleMarkup =
    | SiteName(name: string)
    | HomeLink(href: string, newTab: Option<NewTab>, text: string)

  /** PHP's `empty()` on an optional string: unset, "" and "0" are empty. */
  predicate PhpEmpty(v: Option<string>)
  {
    v == None || v == Some("") || v == Some("0")
  }

  /** `s` occurs in `t` starting at position `k`. */
  predicate OccursAt(t: string, s: string, k: nat)
  {
    k + |s| <= |t| && t[k..k + |s|] == s
  }

  /** `s` occurs somewhere in `t`. */
  ghost predicate Contains(t: string, s: string)
  {
    exists k: nat :: OccursAt(t, s, k)
  }

  /** The tag: `h1` by default, `p` for level 0, otherwise `h<level>`. */
  function TagName(level: Option<int>): (tag: string)
    ensures level == None ==> tag == "h1"
    ensures tag == "p" <==> level == Some(0)
    ensures level.Some? && level.value != 0 ==> tag == "h" + IntToString(level.value)
  {
    match level
    case None => "h1"
    case Some(l) => if l == 0 then "p" else "h" + IntToString(l)
  }

  /** Two set levels give the same tag exactly when they are equal. */
  lemma TagNameInjective(i: int, j: int)
    ensures TagName(Some(i)) == TagName(Some(j)) <==> i == j
  {
    if i != 0 && j != 0 && TagName(Some(i)) == TagName(Some(j)) {
      assert ("h" + IntToString(i))[1..] == IntToString(i);
      assert ("h" + IntToString(j))[1..] == IntToString(j);
      IntToStringInjective(i, j);
    }
  }

  /** An unset level renders like level 1. */
  lemma UnsetLevelIsLevelOne()
    ensures TagName(None) == TagName(Some(1))
  {
    assert IntToString(1) == "1";
  }

  /** The alignment class: empty when `textAlign` is PHP-empty. */
  function AlignClassName(textAlign: Option<string>): (c: string)
    ensures c == "" <==> PhpEmpty(textAlign)
    ensures !PhpEmpty(textAlign) ==> c == "has-text-align-" + textAlign.value
  {
    if PhpEmpty(textAlign) then "" else "has-text-align-" + textAlign.value
  }

  /** Which of the three title forms the attributes select. */
  function Title(a: Attributes, site: Site): (m: TitleMarkup)
    ensures m.SiteName? <==> !a.isLink
    ensures m.SiteName? ==> m.name == site.name
    ensures m.HomeLink? ==> m.href == site.url && m.text == site.name
    ensures m.HomeLink? ==> (m.newTab.Some? <==> a.linkTarget == "_blank")
    ensures m.HomeLink? && m.newTab.Some? ==> m.newTab.value == NewTab(a.linkTarget, site.newTabLabel)
  {
    if a.isLink && "_blank" == a.linkTarget then
      HomeLink(site.url, Some(NewTab(a.linkTarget, site.newTabLabel)), site.name)
    else if a.isLink then
      HomeLink(site.url, None, site.name)
    else
      SiteName(site.name)
  }

  /** One HTML attribute, `name="value"`. */
  function HtmlAttr(name: string, value: string): string
  {
    name + "=\"" + value + "\""
  }

  /** The two `sprintf` formats of the anchor, and the bare name. */
  function TitleHtml(m: TitleMarkup): (h: string)
    ensures m.SiteName? ==> h == m.name
    ensures m.HomeLink? ==>
      && OccursAt(h, "<a " + HtmlAttr("href", m.href) + " " + HtmlAttr("rel", "home"), 0)
      && |">" + m.text + "</a>"| <= |h|
      && OccursAt(h, ">" + m.text + "</a>", |h| - |">" + m.text + "</a>"|)
  {
    match m
    case SiteName(name) => name
    case HomeLink(href, Some(NewTab(target, ariaLabel)), text) =>
      "<a " + HtmlAttr("href", href) + " " + HtmlAttr("rel", "home") + " " + HtmlAttr("target", target)
      + " " + HtmlAttr("aria-label", ariaLabel) + ">" + text + "</a>"
    case HomeLink(href, None, text) =>
      "<a " + HtmlAttr("href", href) + " " + HtmlAttr("rel", "home") + ">" + text + "</a>"
  }

  /**
   * `render_block_core_site_title`; `wrapperAttributes` stands for
   * `get_block_wrapper_attributes`, applied to the alignment class.
   */
  function Render(a: Attributes, site: Site, wrapperAttributes: string -> string): (html: string)
    ensures var tag, title := TagName(a.level), TitleHtml(Title(a, site));
      var open := "<" + tag + " " + wrapperAttributes(AlignClassName(a.textAlign)) + ">";
      && OccursAt(html, "<" + tag + " ", 0)
      && OccursAt(html, wrapperAttributes(AlignClassName(a.textAlign)) + ">", |tag| + 2)
      && OccursAt(html, title, |open|)
      && OccursAt(html, "</" + tag + ">", |open| + |title|)
      && |html| == |open| + |title| + |tag| + 3
  {
    var tag := TagName(a.level);
    "<" + tag + " " + wrapperAttributes(AlignClassName(a.textAlign)) + ">" + TitleHtml(Title(a, site)) + "</" + tag + ">"
  }

  lemma OccursAtEnd(p: string, s: string)
    ensures OccursAt(p + s, s, |p|)
  {
    assert (p + s)[|p|..|p| + |s|] == s;
  }

  lemma OccursExtend(t: string, s: string, k: nat, u: string)
    requires OccursAt(t, s, k)
    ensures OccursAt(t + u, s, k)
  {
    assert (t + u)[k..k + |s|] == t[k..k + |s|];
  }

  /** A new-tab link carries `rel="home"`, the target and the new-tab label. */
  lemma NewTabLinkMarkup(a: Attributes, site: Site)
    requires a.isLink && a.linkTarget == "_blank"
    ensures var h := TitleHtml(Title(a, site));
      && Contains(h, HtmlAttr("rel", "home"))
      && Contains(h, HtmlAttr("target", a.linkTarget))
      && Contains(h, HtmlAttr("aria-label", site.newTabLabel))
  {
    var t0 := "<a " + HtmlAttr("href", site.url) + " ";
    var rel, target, aria := HtmlAttr("rel", "home"), HtmlAttr("target", a.linkTarget), HtmlAttr("aria-label", site.newTabLabel);
    var t1 := t0 + rel;
    var t2 := t1 + " " + target;
    var t3 := t2 + " " + aria;
    var post := ">" + site.name + "</a>";
    OccursAtEnd(t0, rel);
    OccursExtend(t1, rel, |t0|, " ");
    OccursExtend(t1 + " ", rel, |t0|, target);
    OccursExtend(t2, rel, |t0|, " ");
    OccursExtend(t2 + " ", rel, |t0|, aria);
    OccursAtEnd(t1 + " ", target);
    OccursExtend(t2, target, |t1 + " "|, " ");
    OccursExtend(t2 + " ", target, |t1 + " "|, aria);
    OccursAtEnd(t2 + " ", aria);
    OccursExtend(t3, rel, |t0|, ">");
    OccursExtend(t3, target, |t1 + " "|, ">");
    OccursExtend(t3, aria, |t2 + " "|, ">");
    OccursExtend(t3 + ">", rel, |t0|, site.name);
    OccursExtend(t3 + ">", target, |t1 + " "|, site.name);
    OccursExtend(t3 + ">", aria, |t2 + " "|, site.name);
    OccursExtend(t3 + ">" + site.name, rel, |t0|, "</a>");
    OccursExtend(t3 + ">" + site.name, target, |t1 + " "|, "</a>");
    OccursExtend(t3 + ">" + site.name, aria, |t2 + " "|, "</a>");
  }

  /** Any other link is the anchor with `href` and `rel="home"` only. */
  lemma SameTabLinkMarkup(a: Attributes, site: Site)
    requires a.isLink && a.linkTarget != "_blank"
    ensures TitleHtml(Title(a, site)) ==
      "<a " + HtmlAttr("href", site.url) + " " + HtmlAttr("rel", "home") + ">" + site.name + "</a>"
  {
  }

  /** Without a link the title is the bare site name. */
  lemma UnlinkedMarkup(a: Attributes, site: Site)
    requires !a.isLink
    ensures TitleHtml(Title(a, site)) == site.name
  {
  }
}
