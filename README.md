# Gutenberg editor logic: a Dafny model

This project models six small pieces of logic in the Gutenberg block editor
and proves properties about them:

- **Server-side render** (`packages/server-side-render/src/server-side-render.js`).
  It builds the block-renderer path and the `apiFetch` request, GET or POST.
  Its fetch handlers update the `(response, isLoading)` state, and the render
  chooses one of four views: empty, loading, error, or raw HTML
  (module `ServerSideRender`).
- **Block list** (`packages/block-editor/src/components/block-list/index.js`).
  It keeps the set of blocks the intersection observer reports as on screen.
  Each rendered block's async flag is derived from that set, and blocks
  render in the store's order (module `BlockList`).
- **Site title, server** (`packages/block-library/src/site-title/index.php`).
  The markup `render_block_core_site_title` builds (module `SiteTitle`).
- **Site title, editor** (`packages/block-library/src/site-title/edit/index.js`).
  The tag, the alignment class, the title element and the toggles' attribute
  updates (module `SiteTitleEdit`). For every set integer level, written in
  plain decimal, the editor is proved to pick the server's tag.
- **Sequential tips** (`packages/components/src/sequential-tips/index.native.js`).
  A counter that starts at -1, and the tip it publishes.
  Stepping continues while the index is at most the number of tips
  (module `SequentialTips`).
- **Menu custom items** (`lib/class-wp-rest-menu-custom-items-controller.php`).
  A first-match search over the filtered item types, and the permission gate
  (module `MenuCustomItems`).

`Wrappers` holds `Option` and `Result`. `Strings` renders integers in decimal
and proves that the rendering reads back to the same integer.

Host services are parameters of the model:

- `get_bloginfo` and the translated new-tab label are the `Site` record.
- `get_block_wrapper_attributes` is a function parameter.
- Both WordPress filters and `current_user_can` are function parameters.
- The nav-menu-item edit capability and `rest_authorization_required_code()`
  are value parameters.
- Whether the window provides `IntersectionObserver` is a boolean.

`apiFetch` becomes an opaque request value. Its settlement is an event that
carries the response or the error message. `addQueryArgs` is modelled as the
base path plus the query-argument map it is given.

Points where the code does less than it appears to, which the model follows:

- The server-side render does not reject stale or post-unmount responses,
  although its comment at server-side-render.js:68-69 says it guards against
  race conditions. The check `isMounted` (lines 49, 77, 86) tests the ref
  object, never its `.current`, so it always passes. `currentFetchRequest`
  (line 66) is a local of each call, so it always equals that call's own
  promise (line 78). Every settlement therefore passes both guards. A truthy
  response (line 79) or a rejection is then applied, in arrival order. Two client methods of the component class show this from the class
  contracts. `ServerSideRender.ResolveAfterUnmount` shows that the handlers
  still call the setters after `Unmount`; React then drops those updates, which
  the model does not represent. `ServerSideRender.OlderFetchSettlingLastWins`
  shows that, while mounted, an older call settling last overwrites a newer one.
- A block's async flag (index.js:151) reads only the intersecting set. The
  comment at index.js:174-175 speaks of the async mode depending on the block
  selection, but no selection input reaches the flag.
- When the window has no `IntersectionObserver` (index.js:74-76), no observer
  is made. The set keeps its initial empty value (line 68), so every block is
  async.
- An observed element without a `data-block` attribute is not skipped
  (index.js:82-84). `getAttribute` gives `null`, and that `null` is added to or
  deleted from the set. `BlockList.EntriesWithoutTargetIgnored` proves that
  such entries never change any block's membership.

## Model

| member | source | states |
|---|---|---|
| ServerSideRender.RendererPath | packages/server-side-render/src/server-side-render.js:15-21 | The path is `/wp/v2/block-renderer/<block>`. Query keys are `context`, `attributes` exactly when attributes are non-null, and the `urlQueryArgs` keys. `urlQueryArgs` values win. Otherwise `context` is `edit` and `attributes` is the given object |
| ServerSideRender.BuildRequest | packages/server-side-render/src/server-side-render.js:53-74 | The request is POST exactly when `httpMethod` is `'POST'`. A POST's path carries no attributes and its body is `{ attributes }`. Any other method gives a GET with the attributes in the path and a null body |
| ServerSideRender.PostKeepsAttributesOutOfPath | packages/server-side-render/src/server-side-render.js:60-65 | A POST puts no `attributes` query argument in the path unless `urlQueryArgs` supplies one, and its body carries the attributes |
| ServerSideRender.Started | packages/server-side-render/src/server-side-render.js:52 | Starting a fetch sets `isLoading` and keeps the response. The view is then neither the error view nor raw HTML |
| ServerSideRender.Succeeded | packages/server-side-render/src/server-side-render.js:75-84 | A passing guard with a truthy response stops loading with its `rendered` markup, which is then shown unless it is `''`. Anything else leaves the state unchanged |
| ServerSideRender.Failed | packages/server-side-render/src/server-side-render.js:85-92 | A passing guard stops loading with the error response. The error view then shows the message verbatim. Otherwise the state is unchanged |
| ServerSideRender.Next | packages/server-side-render/src/server-side-render.js:48-93 | A fetch adds one call and sets loading. A settlement applies `Succeeded` or `Failed` under the guard, which always passes. Unmounting changes nothing the handlers read |
| ServerSideRender.Render | packages/server-side-render/src/server-side-render.js:97-117 | Each view holds exactly when its condition does. Empty means the response is `''`, even while loading. Loading means loading and not `''`, shown over the last response. Error means an error object while not loading. Otherwise the raw response is shown |
| ServerSideRender.FetchShowsLoading | packages/server-side-render/src/server-side-render.js:52-108 | After a fetch starts, the loading view is shown over the previous response, unless that response is `''`, which shows the empty view |
| ServerSideRender.EverySettlementApplies | packages/server-side-render/src/server-side-render.js:76-92 | Any call's settlement reaches the setters, whether stale or after unmount, because the guards always pass. A truthy response shows its markup (or the empty view for `''`). A falsy one changes nothing. A rejection shows its message verbatim |
| ServerSideRender.FalsyResponseKeepsLoading | packages/server-side-render/src/server-side-render.js:75-83 | A fetch answered by a falsy response stays loading |
| ServerSideRender.LastArrivalWins | packages/server-side-render/src/server-side-render.js:66-93 | With two fetches in flight, the older one settling last leaves its own markup. The guards do not reject stale responses |
| ServerSideRender.ServerSideRenderComponent.constructor | packages/server-side-render/src/server-side-render.js:31-33 | The initial state is a null response and not loading. The ref is present with `current` true |
| ServerSideRender.ServerSideRenderComponent.FetchData | packages/server-side-render/src/server-side-render.js:48-95 | With the ref present, the method sets loading, returns `BuildRequest`'s request, and returns a closure whose promise is its own `currentFetchRequest`. Without the ref it does nothing |
| ServerSideRender.ServerSideRenderComponent.OnResolved | packages/server-side-render/src/server-side-render.js:75-84 | The new state is `Succeeded` of the old state under the guard as written |
| ServerSideRender.ServerSideRenderComponent.OnRejected | packages/server-side-render/src/server-side-render.js:85-92 | The new state is `Failed` of the old state under the guard as written |
| ServerSideRender.ServerSideRenderComponent.Unmount | packages/server-side-render/src/server-side-render.js:39-41 | Cleanup clears `isMounted.current` and leaves the ref itself in place |
| ServerSideRender.ResolveAfterUnmount | packages/server-side-render/src/server-side-render.js:35-93 | A fetch that resolves after the component unmounted still passes the guard, so the handler calls the setters with its markup and `false` |
| ServerSideRender.OlderFetchSettlingLastWins | packages/server-side-render/src/server-side-render.js:66-93 | With two fetches from the component, the older one resolving last leaves its markup |
| BlockList.Callback | packages/block-editor/src/components/block-list/index.js:78-88 | The new set is computed from a copy. An id is in it exactly when the batch's last entry for that id is intersecting, or, with no entry for it, when it was in the old set |
| BlockList.UnmentionedKeepsMembership | packages/block-editor/src/components/block-list/index.js:80-85 | An id that no entry of the batch mentions keeps its old membership |
| BlockList.LastEntryDecides | packages/block-editor/src/components/block-list/index.js:81-85 | The last entry for an id decides its membership |
| BlockList.EntriesWithoutTargetIgnored | packages/block-editor/src/components/block-list/index.js:82-84 | Entries whose element has no `data-block` attribute change no block's membership |
| BlockList.Items | packages/block-editor/src/components/block-list/index.js:133-171 | One block per store id, in store order, each with its index. Each block is async exactly when it is not intersecting. The placeholder shows exactly when the order is empty |
| BlockList.AsyncAfterBatch | packages/block-editor/src/components/block-list/index.js:78-151 | After a batch, a block's async flag is the negation of its last entry's intersection. A block with no entry keeps its previous flag |
| BlockList.EmptySetAllAsync | packages/block-editor/src/components/block-list/index.js:68-151 | With the initial empty set, every block is async |
| BlockList.NoObserverAllAsync | packages/block-editor/src/components/block-list/index.js:69-76 | A list that made no observer has the empty set, so every block is async |
| BlockList.BlockListItems | packages/block-editor/src/components/block-list/index.js:173-181 | The items wrapper is always a synchronous provider around `Items` |
| BlockList.LayoutClassNames | packages/block-editor/src/components/block-list/index.js:104-113 | The result is the list of arguments `classnames` receives that take effect, in order, not the joined class string. It starts with the layout classes. The `is-focus-mode` argument is present exactly when focus mode is on and the viewport is large (or the caller's `className` argument is exactly that string) |
| BlockList.BlockListState.constructor | packages/block-editor/src/components/block-list/index.js:67-68 | There is no observer and the intersecting set is empty |
| BlockList.BlockListState.AttachContainer | packages/block-editor/src/components/block-list/index.js:69-96 | An observer exists afterwards exactly when one existed or the window provides one. The set is untouched |
| BlockList.BlockListState.OnIntersection | packages/block-editor/src/components/block-list/index.js:78-88 | The set is replaced by the callback's result for the batch |
| SiteTitle.TagName | packages/block-library/src/site-title/index.php:16-21 | The tag is `h1` when the level is unset, `p` exactly for level 0, and otherwise `h` followed by the level in decimal |
| SiteTitle.TagNameInjective | packages/block-library/src/site-title/index.php:20 | Two set levels give the same tag exactly when they are equal |
| SiteTitle.UnsetLevelIsLevelOne | packages/block-library/src/site-title/index.php:16-21 | An unset level renders like level 1 |
| SiteTitle.AlignClassName | packages/block-library/src/site-title/index.php:17 | The class is empty exactly when `textAlign` is PHP-empty (unset, `""`, `"0"`). Otherwise it is `has-text-align-<textAlign>` |
| SiteTitle.Title | packages/block-library/src/site-title/index.php:23-35 | The title is a home link exactly when `isLink` holds. It has the new-tab target and label exactly when the target is `_blank`. Otherwise it is the bare site name |
| SiteTitle.TitleHtml | packages/block-library/src/site-title/index.php:24-34 | A bare title is the site name. An anchor opens with `<a href="…" rel="home"` and ends with `>` + text + `</a>` |
| SiteTitle.NewTabLinkMarkup | packages/block-library/src/site-title/index.php:23-30 | A new-tab link's markup contains `rel="home"`, the `target` attribute and the `aria-label` attribute |
| SiteTitle.SameTabLinkMarkup | packages/block-library/src/site-title/index.php:31-32 | Any other link is the anchor with only `href` and `rel="home"` |
| SiteTitle.UnlinkedMarkup | packages/block-library/src/site-title/index.php:33-34 | Without a link, the title is the site name |
| SiteTitle.Render | packages/block-library/src/site-title/index.php:15-45 | The output opens with `<tag `, followed by the wrapper attributes built from the alignment class and then `>`. Right after that comes the title, and then the closing tag for the same tag name. Its length is exactly that of these parts |
| SiteTitleEdit.TagName | packages/block-library/src/site-title/edit/index.js:33 | The tag is `p` exactly for level 0, otherwise `h` followed by the level's template-literal text |
| SiteTitleEdit.TagNameAgreesWithServer | packages/block-library/src/site-title/edit/index.js:33 | For every set level, the editor's tag equals the server's |
| SiteTitleEdit.UnsetLevelDisagrees | packages/block-library/src/site-title/edit/index.js:33 | With the level unset, the editor gives `hundefined` and the server gives `h1` |
| SiteTitleEdit.AlignClassName | packages/block-library/src/site-title/edit/index.js:34-38 | The class is `has-text-align-<textAlign>` exactly when `textAlign` is truthy, and empty otherwise |
| SiteTitleEdit.AlignClassAgreesWithServer | packages/block-library/src/site-title/edit/index.js:35-37 | The editor and server classes agree except for `"0"`, which is truthy in JavaScript but empty in PHP |
| SiteTitleEdit.ToolbarUpdates | packages/block-library/src/site-title/edit/index.js:81-91 | The level and alignment controls set their own attribute and nothing else. A new level gives the server's tag for that level |
| SiteTitleEdit.OnLinkToggle | packages/block-library/src/site-title/edit/index.js:98 | Applying the link toggle's update negates `isLink` and changes no other attribute |
| SiteTitleEdit.OnNewTabToggle | packages/block-library/src/site-title/edit/index.js:105-109 | The new-tab toggle sets the link target. The target is `_blank` exactly when the toggle is on, and `_self` when it is off |
| SiteTitleEdit.Apply | packages/block-library/src/site-title/edit/index.js:81-110 | Each `setAttributes` update sets its own attribute to the given value and leaves every other attribute unchanged |
| SiteTitleEdit.Edit | packages/block-library/src/site-title/edit/index.js:31-121 | The view uses the editor tag and alignment class. The title is an anchor, and the new-tab toggle is offered, exactly when `isLink` holds. The link toggle shows `isLink`. The new-tab toggle is checked exactly when the target is `_blank` |
| SiteTitleEdit.LinkToggleTwice | packages/block-library/src/site-title/edit/index.js:98 | Using the link toggle twice restores the attributes |
| SiteTitleEdit.NewTabToggleRoundTrip | packages/block-library/src/site-title/edit/index.js:105-110 | Switching the new-tab toggle to a value makes it show that value and changes nothing else |
| SequentialTips.CurrentTip | packages/components/src/sequential-tips/index.native.js:41-42 | The current tip is the tip at the index exactly when the index is in range, and `Completed` otherwise |
| SequentialTips.Mounted | packages/components/src/sequential-tips/index.native.js:30-35 | After mounting, the index is -1 and one step is pending |
| SequentialTips.Step | packages/components/src/sequential-tips/index.native.js:31-39 | A firing adds exactly 1 to the index and consumes its step. With nothing pending, nothing fires. A block-count change keeps the index and leaves one step pending exactly when the index is at most the number of tips |
| SequentialTips.StepBounded | packages/components/src/sequential-tips/index.native.js:31-39 | Each event keeps the index between -1 and the number of tips plus one, with at most one step pending |
| SequentialTips.RunBounded | packages/components/src/sequential-tips/index.native.js:31-39 | No sequence of events takes the index above the number of tips plus one or creates a second pending step |
| SequentialTips.RunMonotone | packages/components/src/sequential-tips/index.native.js:35 | The index never decreases |
| SequentialTips.RoundsAdvance | packages/components/src/sequential-tips/index.native.js:30-39 | After `k` rounds of firing and a block-count change, the index is `k - 1`, capped at the number of tips plus one. A step is pending exactly while the index has not passed the number of tips |
| SequentialTips.TipsShownInOrder | packages/components/src/sequential-tips/index.native.js:19-42 | Round `k` publishes the `k`-th tip |
| SequentialTips.TipOpacity | packages/components/src/sequential-tips/index.native.js:51-64 | Outside a stepper this is the error. Inside, opacity is 1 exactly when the name is the current tip, and 0.25 otherwise |
| SequentialTips.OneTipHighlighted | packages/components/src/sequential-tips/index.native.js:63 | At most one tip of the list is fully opaque, and none once completed |
| SequentialTips.SequentialStepper.constructor | packages/components/src/sequential-tips/index.native.js:30-39 | The stepper starts at the mounted state |
| SequentialTips.SequentialStepper.OnBlockCountChange | packages/components/src/sequential-tips/index.native.js:31-39 | The new state is `Step` on a block-count change, within bounds |
| SequentialTips.SequentialStepper.OnTimerFired | packages/components/src/sequential-tips/index.native.js:35 | The new state is `Step` on a firing, within bounds |
| MenuCustomItems.FirstMatch | lib/class-wp-rest-menu-custom-items-controller.php:65-71 | The result is the first entry whose `type` is the requested one. No match means no entry matches |
| MenuCustomItems.GetMenuCustomItems | lib/class-wp-rest-menu-custom-items-controller.php:60-79 | Success holds exactly when the filter gave an array with a matching entry. The items are the items filter's value for the first match. Otherwise the items are empty, including for a non-array |
| MenuCustomItems.FirstMatchWins | lib/class-wp-rest-menu-custom-items-controller.php:65-71 | The first matching entry wins, and entries after it never change the result |
| MenuCustomItems.PermissionsCheck | lib/class-wp-rest-menu-custom-items-controller.php:46-52 | The result is `true` exactly when the user has the edit capability. Otherwise it is the `rest_forbidden_context` error with the authorization status |

## Left out

- SiteTitleEdit.TagNameAgreesWithServer: levels are unbounded integers written in plain decimal. This matches both sides only for integers below 2^53 in magnitude. JavaScript doubles (rounding past 2^53, `1e+21` notation), PHP integer overflow into floats (`1.0E+21`) and a `null` level (`hnull` in the editor) are not modelled.
- React's dropping of a state update made on an unmounted component: the model's setters are field writes, so `ServerSideRender.ResolveAfterUnmount` and the after-unmount case of `ServerSideRender.EverySettlementApplies` show the setters being called, not a change anyone could see.
- A filter entry that is not an array (for example a string): `$item_type['type']` (class-wp-rest-menu-custom-items-controller.php:66) then gives a PHP warning or error. `MenuCustomItems.ItemType` assumes each entry is an array with optional `type` and `object` keys.
- The lodash `debounce` and the rebinding of `fetchData` (server-side-render.js:38): these are timer behaviour. Each call of `FetchData` is one issued fetch.
- The two `useEffect` triggers of `ServerSideRender` (mount and prop change): this is React scheduling. The model lets fetches be issued in any order.
- `apiFetch` networking and `addQueryArgs` URL encoding: these are host functions. The request and the query map are kept as values.
- `RawHTML`, the placeholder and spinner components, and the translated error sentence: these are markup.
- `fetchResponse.rendered` is assumed to be a string, and `error.message` is taken as given.
- The block list never disconnects its observer: the ref callback (index.js:69-96) returns no cleanup, and the model has no disconnection either.
- IntersectionObserver options (threshold, root), React context providers, `useSelect` reads, the drop zone, insertion point, popover and appender: these are host APIs and views.
- Block-attribute defaults come from block metadata, which is not part of this model. `isLink` is a boolean and `linkTarget` a string.
- The RichText editing callbacks, `useEntityProp` and the block inspector and toolbar components: these are editor views.
- The stepper's 300 ms delay, the timer cleanup on unmount, and the "Tip Status" and "Label" texts. Timers are events, and the texts are markup.
- The REST controller's constructor, route registration and schema: these are WordPress registration calls. Translation of the error message is also left out.
- SiteTitle.SameTabLinkMarkup: states the exact anchor rather than "no target attribute", because the site name or URL could themselves contain such text.
