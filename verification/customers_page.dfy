/**
 The customers page: the list of records, the modal-open flag and the record
 being edited, and the transitions that open and close the modal.
 */
module CustomersPage {
  import opened Wrappers
  import opened CustomerData

  /** `customers`, `modal` and `editCustomer` of the page component. */
  datatype PageState = PageState(customers: seq<Customer>, modal: bool, editTarget: Option<Customer>)

  /** `Array.prototype.findIndex` on `c.id === id`: the first matching
      position, or -1 when no row matches. */
  function FindIndex(cs: seq<Customer>, id: int): (r: int)
    ensures -1 <= r < |cs|
    ensures 0 <= r ==> cs[r].id == id && forall j :: 0 <= j < r ==> cs[j].id != id
    ensures r == -1 <==> forall j :: 0 <= j < |cs| ==> cs[j].id != id
    decreases |cs|
  {
    if |cs| == 0 then -1
    else if cs[0].id == id then 0
    else
      var k := FindIndex(cs[1..], id);
      if k == -1 then -1 else k + 1
  }

  /** The list after the edit path: the copy `[...customers]` with the row at
      `FindIndex` replaced by the merge. On a miss the assignment targets the
      non-index property "-1", so no element changes. */
  function ReplaceMatching(cs: seq<Customer>, id: int, d: Draft): seq<Customer> {
    var i := FindIndex(cs, id);
    if 0 <= i then cs[i := Merge(cs[i], d)] else cs
  }

  /** `onNewModalClosed(newCustomer)`, with `now` standing for `new Date()`.
      A present result either merges into the first row carrying the edit
      target's id or is stamped and put at the front; absent, the list stays.
      Either way the modal flag flips and the edit target is cleared. */
  function OnNewModalClosed(p: PageState, result: Option<Draft>, now: int): (q: PageState)
    ensures q.modal == !p.modal
    ensures q.editTarget.None?
    // cancel
    ensures result.None? ==> q.customers == p.customers
    // create
    ensures result.Some? && p.editTarget.None? ==>
      && |q.customers| == |p.customers| + 1
      && q.customers[0].id == |p.customers| + 1
      && q.customers[0].dateAdded == now
      && FromCustomer(q.customers[0]).(id := None, dateAdded := None)
         == result.value.(id := None, dateAdded := None)
      && q.customers[1..] == p.customers
    // edit
    ensures result.Some? && p.editTarget.Some? ==>
      && |q.customers| == |p.customers|
      && forall j :: 0 <= j < |p.customers| ==>
           q.customers[j] == (if j == FindIndex(p.customers, p.editTarget.value.id)
                              then Merge(p.customers[j], result.value)
                              else p.customers[j])
  {
    var cs :=
      if result.None? then p.customers
      else if p.editTarget.Some? then ReplaceMatching(p.customers, p.editTarget.value.id, result.value)
      else [Stamp(result.value, |p.customers| + 1, now)] + p.customers;
    PageState(cs, !p.modal, None)
  }

  /** `onRowSelected(row)`: the row becomes the edit target and the modal opens. */
  function OnRowSelected(p: PageState, row: Customer): (q: PageState)
    ensures q.customers == p.customers
    ensures q.modal
    ensures q.editTarget == Some(row)
  {
    PageState(p.customers, true, Some(row))
  }

  /** The "+" button: opens the modal and touches nothing else. */
  function OnAddClicked(p: PageState): (q: PageState)
    ensures q.modal
    ensures q.customers == p.customers && q.editTarget == p.editTarget
  {
    p.(modal := true)
  }

  // ---------------------------------------------------------------------------
  // Properties of closing

  /** Cancelling leaves the list as it was, clears the target, closes an open modal. */
  lemma CancelLeavesListUnchanged(p: PageState, now: int)
    requires p.modal
    ensures OnNewModalClosed(p, None, now) == PageState(p.customers, false, None)
  {
  }

  /** On the edit path only the first row carrying the target's id may change;
      when no row carries it, nothing changes. */
  lemma EditTouchesOnlyFirstMatch(p: PageState, d: Draft, now: int, j: int)
    requires p.editTarget.Some?
    requires 0 <= j < |p.customers|
    ensures var q := OnNewModalClosed(p, Some(d), now);
      q.customers[j] != p.customers[j] ==>
        && p.customers[j].id == p.editTarget.value.id
        && forall k :: 0 <= k < j ==> p.customers[k].id != p.editTarget.value.id
    ensures (forall k :: 0 <= k < |p.customers| ==> p.customers[k].id != p.editTarget.value.id) ==>
      OnNewModalClosed(p, Some(d), now).customers == p.customers
  {
  }

  /** With ids bounded by the length, the id the create path assigns is
      larger than every existing id; uniqueness and the bound both survive. */
  lemma CreateKeepsIdsFresh(p: PageState, d: Draft, now: int)
    requires p.editTarget.None?
    requires UniqueIds(p.customers) && IdsBounded(p.customers)
    ensures var q := OnNewModalClosed(p, Some(d), now);
      && (forall j :: 0 <= j < |p.customers| ==> p.customers[j].id < q.customers[0].id)
      && UniqueIds(q.customers)
      && IdsBounded(q.customers)
  {
  }

  /** When the edit target is one of the rows and ids are unique, the edit
      path replaces exactly that row by the merge. */
  lemma EditReplacesTarget(p: PageState, d: Draft, now: int, k: int)
    requires UniqueIds(p.customers)
    requires 0 <= k < |p.customers| && p.editTarget == Some(p.customers[k])
    ensures var q := OnNewModalClosed(p, Some(d), now);
      q.customers == p.customers[k := Merge(p.customers[k], d)]
  {
  }
}
