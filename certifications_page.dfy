/**
 * The certifications list page: the cards are drawn from a copy of the
 * store's list sorted by `display_order`, and each card carries an expiry
 * badge. Dates are day numbers; `new Date(v)` is the parameter `dateOf`,
 * `None` for an invalid date, and the current day is the parameter `now`.
 */
module CertificationsPage {
  import opened Wrappers
  import opened Json
  import opened Lists
  import opened Sorting
  import opened Store
  import EntitySlices

  /** `[...(certifications || [])].sort((a, b) => a.display_order - b.display_order)`. */
  function Displayed(items: Option<seq<Record>>): seq<Record> {
    SortBy(if items.None? then [] else items.value, ByDisplayOrder)
  }

  /** The cards show every certification of the store once, ascending by
      `display_order`, those of equal order in store order. */
  lemma DisplayedIsSortedPermutation(items: seq<Record>, order: Value)
    ensures SortedBy(Displayed(Some(items)), ByDisplayOrder)
    ensures multiset(Displayed(Some(items))) == multiset(items)
    ensures Keep(Displayed(Some(items)), (r: Record) => Column(r, "display_order") == order) ==
            Keep(items, (r: Record) => Column(r, "display_order") == order)
  {
    ByDisplayOrderIsTotalPreorder();
    SortBySorted(items, ByDisplayOrder);
    SortByPermutation(items, ByDisplayOrder);
    var same := (r: Record) => Column(r, "display_order") == order;
    forall a, b | same(a) && same(b) ensures ByDisplayOrder(a, b) {
      ValueLeTotal(order, order);
    }
    SortByStable(items, ByDisplayOrder, same);
  }

  /** The render: the spread copy is sorted, the slice's own list is only
      read (this method may change nothing). */
  method RenderList(slice: EntitySlices.EntitySlice) returns (shown: seq<Record>)
    ensures shown == Displayed(Some(slice.items))
  {
    var items := slice.items;
    var copy := new Record[|items|](i requires 0 <= i < |items| => items[i]);
    assert copy[..] == items;
    SortInPlace(copy, ByDisplayOrder);
    shown := copy[..];
  }

  /** `isExpired(expiryDate)`: a falsy date never expires; an invalid date
      compares false. */
  predicate IsExpired(expiry: Value, now: int, dateOf: Value -> Option<int>) {
    Truthy(expiry) && dateOf(expiry).Some? && dateOf(expiry).value < now
  }

  /** A certification without an expiry date is never expired, and one that
      has expired stays expired. */
  lemma ExpiryIsPermanent(expiry: Value, now: int, later: int, dateOf: Value -> Option<int>)
    ensures !IsExpired(Null, now, dateOf) && !IsExpired(Str(""), now, dateOf)
    ensures IsExpired(expiry, now, dateOf) && now <= later ==> IsExpired(expiry, later, dateOf)
  {
  }

  /** The words of the expiry badge of a card. */
  function ExpiryBadge(cert: Record, now: int, dateOf: Value -> Option<int>): (badge: string)
    ensures badge == "No Expiry" <==> !Truthy(Column(cert, "expiry_date"))
    ensures badge == "Expired" <==> IsExpired(Column(cert, "expiry_date"), now, dateOf)
    ensures badge in {"Expired", "Expires", "No Expiry"}
  {
    var expiry := Column(cert, "expiry_date");
    if Truthy(expiry) then
      if IsExpired(expiry, now, dateOf) then "Expired" else "Expires"
    else "No Expiry"
  }

  /** `(certifications?.length || 0) === 0`. */
  predicate ShowsEmptyState(items: Option<seq<Record>>) {
    items.None? || |items.value| == 0
  }

  lemma EmptyStateWhenNothingDisplayed(items: Option<seq<Record>>)
    ensures ShowsEmptyState(items) <==> Displayed(items) == []
  {
  }
}
