/**
 * The REST controller that lists the menu items registered through the
 * `customize_nav_menu_available_item_types` and
 * `customize_nav_menu_available_items` filters.
 */
module MenuCustomItems {
  import opened Wrappers

  /**
   * One entry of the item-types filter's array: its 'type' and 'object'
   * keys, None when the key is missing (PHP reads null).
   */
  datatype ItemType = ItemType(typeName: Option<string>, objectName: Option<string>)

  /** What the item-types filter returned: an array of item types, or some other value. */
  datatype FilteredItemTypes = ItemTypeArray(items: seq<ItemType>) | NotAnArray

  /** The route's response array. */
  datatype Response<I> = Response(success: bool, customItems: seq<I>)

  /** The `WP_Error` the permission check returns. */
  datatype WpError = WpError(code: string, message: string, status: int)

  /** PHP's `===` between the entry's 'type' and the requested type (both may be null). */
  predicate Matches(it: ItemType, requestedType: Option<string>)
  {
    it.typeName == requestedType
  }

  /** The position of the first item type whose 'type' is the requested one. */
  function FirstMatch(items: seq<ItemType>, requestedType: Option<string>): (r: Option<nat>)
    ensures r.Some? ==> r.value < |items| && Matches(items[r.value], requestedType)
    ensures r.Some? ==> forall j :: 0 <= j < r.value ==> !Matches(items[j], requestedType)
    ensures r.None? <==> forall j :: 0 <= j < |items| ==> !Matches(items[j], requestedType)
    decreases |items|
  {
    if items == [] then None
    else if Matches(items[0], requestedType) then Some(0)
    else match FirstMatch(items[1..], requestedType)
      case None => None
      case Some(i) => Some(i + 1)
  }

  /** The response `get_menu_custom_items` promises, stated through FirstMatch. */
  ghost predicate IsCustomItemsResponse<I>(
    r: Response<I>, requestedType: Option<string>, itemTypes: FilteredItemTypes,
    availableItems: (Option<string>, Option<string>) -> seq<I>)
  {
    var m := if itemTypes.ItemTypeArray? then FirstMatch(itemTypes.items, requestedType) else None;
    && r.success == m.Some?
    && (m.Some? ==> r.customItems == availableItems(itemTypes.items[m.value].typeName, itemTypes.items[m.value].objectName))
    && (m.None? ==> r.customItems == [])
  }

  /**
   * `get_menu_custom_items`: `requestedType` is the request's 'type'
   * parameter, `itemTypes` the item-types filter's value, and
   * `availableItems` the items filter applied to an empty array, the
   * matching entry's 'type' and 'object', and 0.
   */
  method GetMenuCustomItems<I>(
    requestedType: Option<string>, itemTypes: FilteredItemTypes,
    availableItems: (Option<string>, Option<string>) -> seq<I>)
    returns (r: Response<I>)
    ensures IsCustomItemsResponse(r, requestedType, itemTypes, availableItems)
    ensures r.success <==>
      (itemTypes.ItemTypeArray? && exists i :: 0 <= i < |itemTypes.items| && Matches(itemTypes.items[i], requestedType))
    ensures !r.success ==> r.customItems == []
  {
    if itemTypes.ItemTypeArray? {
      var items := itemTypes.items;
      var k := 0;
      while k < |items|
        invariant 0 <= k <= |items|
        invariant forall j :: 0 <= j < k ==> !Matches(items[j], requestedType)
      {
        var itemType := items[k];
        if itemType.typeName == requestedType {
          ghost var m := FirstMatch(items, requestedType);
          assert m == Some(k);
          return Response(true, availableItems(itemType.typeName, itemType.objectName));
        }
        k := k + 1;
      }
    }
    return Response(false, []);
  }

  /** The first matching entry decides: entries after it are never consulted. */
  lemma FirstMatchWins<I>(
    requestedType: Option<string>, prefix: seq<ItemType>, hit: ItemType, rest1: seq<ItemType>, rest2: seq<ItemType>)
    requires Matches(hit, requestedType)
    requires forall j :: 0 <= j < |prefix| ==> !Matches(prefix[j], requestedType)
    ensures FirstMatch(prefix + [hit] + rest1, requestedType) == Some(|prefix|)
    ensures FirstMatch(prefix + [hit] + rest1, requestedType) == FirstMatch(prefix + [hit] + rest2, requestedType)
  {
    var a, b := prefix + [hit] + rest1, prefix + [hit] + rest2;
    assert a[|prefix|] == hit && b[|prefix|] == hit;
    assert forall j :: 0 <= j < |prefix| ==> a[j] == prefix[j] && b[j] == prefix[j];
  }

  const ForbiddenMessage: string := "Sorry, you are not allowed to view menu items."

  /**
   * `permissions_check`: `currentUserCan` stands for `current_user_can`,
   * `editPostsCap` for the nav-menu-item post type's edit capability and
   * `authorizationStatus` for `rest_authorization_required_code()`.
   */
  function PermissionsCheck(currentUserCan: string -> bool, editPostsCap: string, authorizationStatus: int): (r: Result<bool, WpError>)
    ensures r.Ok? <==> currentUserCan(editPostsCap)
    ensures r.Ok? ==> r.value == true
    ensures r.Err? ==> r.error == WpError("rest_forbidden_context", ForbiddenMessage, authorizationStatus)
  {
    if !currentUserCan(editPostsCap) then
      Err(WpError("rest_forbidden_context", ForbiddenMessage, authorizationStatus))
    else
      Ok(true)
  }
}
