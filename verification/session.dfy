/**
 The page and its modal together, driven by the user's events. This is where
 the invariants that span several transitions live: ids stay unique and
 fresh, stored records stay complete, and a closed modal holds no target and
 an empty draft.
 */
module Session {
  import opened Wrappers
  import opened CustomerData
  import opened AddNewModal
  import opened CustomersPage

  /** The page state and the modal's draft. */
  datatype App = App(page: PageState, draft: Draft)

  /** What the user (or React, for the seeding effect) can do. `now` is the
      clock reading `new Date()` would give at that moment. */
  datatype Event =
    | RowClicked(row: Customer)
    | AddClicked
    | SeedEffect
    | InputChanged(field: Field, value: string)
    | SaveClicked(now: int)
    | CancelClicked(now: int)

  /** The page as first rendered over the given sample rows. */
  function Initial(cs: seq<Customer>): App {
    App(PageState(cs, false, None), EmptyCustomer)
  }

  function Step(a: App, e: Event): App {
    match e
    case RowClicked(row) => a.(page := OnRowSelected(a.page, row))
    case AddClicked => a.(page := OnAddClicked(a.page))
    case SeedEffect => a.(draft := SeedFromExisting(a.draft, a.page.editTarget))
    case InputChanged(f, v) => a.(draft := OnInputChange(a.draft, f, v))
    case SaveClicked(now) =>
      // a disabled button does not fire
      if SaveDisabled(a.draft) then a
      else
        var c := Save(a.draft);
        App(OnNewModalClosed(a.page, c.result, now), c.draft)
    case CancelClicked(now) =>
      var c := Cancel(a.draft);
      App(OnNewModalClosed(a.page, c.result, now), c.draft)
  }

  /** Which events the rendered page offers: rows and "+" only while the
      modal is closed (the modal's backdrop covers them), the form buttons
      and inputs only while it is open. A clicked row is one of the rows. */
  predicate Enabled(a: App, e: Event) {
    match e
    case RowClicked(row) => !a.page.modal && row in a.page.customers
    case AddClicked => !a.page.modal
    case SeedEffect => true
    case InputChanged(_, _) => a.page.modal
    case SaveClicked(_) => a.page.modal
    case CancelClicked(_) => a.page.modal
  }

  function Run(a: App, es: seq<Event>): App
    decreases |es|
  {
    if |es| == 0 then a else Run(Step(a, es[0]), es[1..])
  }

  /** Every event of the sequence is offered when it happens. */
  predicate ValidTrace(a: App, es: seq<Event>)
    decreases |es|
  {
    |es| == 0 || (Enabled(a, es[0]) && ValidTrace(Step(a, es[0]), es[1..]))
  }

  ghost predicate Inv(a: App) {
    var p := a.page;
    && UniqueIds(p.customers)
    && IdsBounded(p.customers)
    && AllComplete(p.customers)
    && (!p.modal ==> p.editTarget.None? && a.draft == EmptyCustomer)
    && (p.editTarget.Some? ==> p.editTarget.value in p.customers)
    && (a.draft.id.Some? ==> p.editTarget.Some? && a.draft.id.value == p.editTarget.value.id)
    && (a.draft.dateAdded.Some? ==> p.editTarget.Some? && a.draft.dateAdded.value == p.editTarget.value.dateAdded)
  }

  // ---------------------------------------------------------------------------
  // The invariant

  lemma InitialInv(cs: seq<Customer>)
    requires IdsAreIndices(cs) && AllComplete(cs)
    ensures Inv(Initial(cs))
  {
  }

  lemma StepPreservesInv(a: App, e: Event)
    requires Inv(a) && Enabled(a, e)
    ensures Inv(Step(a, e))
  {
  }

  lemma {:induction false} RunPreservesInv(a: App, es: seq<Event>)
    requires Inv(a) && ValidTrace(a, es)
    ensures Inv(Run(a, es))
    decreases |es|
  {
    if |es| > 0 {
      StepPreservesInv(a, es[0]);
      RunPreservesInv(Step(a, es[0]), es[1..]);
    }
  }

  /** From the sample data, every reachable state keeps ids unique and
      bounded, and every stored record complete. */
  lemma ReachableWellFormed(cs: seq<Customer>, es: seq<Event>)
    requires IsFakeData(cs) && ValidTrace(Initial(cs), es)
    ensures var b := Run(Initial(cs), es);
      UniqueIds(b.page.customers) && IdsBounded(b.page.customers) && AllComplete(b.page.customers)
  {
    InitialInv(cs);
    RunPreservesInv(Initial(cs), es);
  }

  // ---------------------------------------------------------------------------
  // The modal's three states

  datatype Mode = Closed | OpenCreate | OpenEdit

  function ModeOf(p: PageState): Mode {
    if !p.modal then Closed else if p.editTarget.Some? then OpenEdit else OpenCreate
  }

  /** Closed goes to Open-Create by "+" and to Open-Edit by a row; an open
      modal closes on cancel and on an enabled save, a disabled save does
      nothing, and input and seeding keep the mode. The heading names the mode. */
  lemma ModeTransitions(a: App, e: Event)
    requires Inv(a) && Enabled(a, e)
    ensures var m := ModeOf(a.page); var m' := ModeOf(Step(a, e).page);
      && (e.AddClicked? ==> m == Closed && m' == OpenCreate)
      && (e.RowClicked? ==> m == Closed && m' == OpenEdit)
      && (e.CancelClicked? ==> m != Closed && m' == Closed)
      && (e.SaveClicked? && !SaveDisabled(a.draft) ==> m != Closed && m' == Closed)
      && (e.SaveClicked? && SaveDisabled(a.draft) ==> Step(a, e) == a)
      && (e.InputChanged? || e.SeedEffect? ==> m' == m)
      && (m' != Closed ==> (Title(Step(a, e).page.editTarget) == "Edit Customer" <==> m' == OpenEdit))
  {
  }

  // ---------------------------------------------------------------------------
  // Whole editing sessions

  lemma RunAppend(a: App, es: seq<Event>, e: Event)
    ensures Run(a, es + [e]) == Step(Run(a, es), e)
    decreases |es|
  {
    if |es| > 0 {
      assert (es + [e])[1..] == es[1..] + [e];
      RunAppend(Step(a, es[0]), es[1..], e);
    }
  }

  lemma RunPrepend(a: App, e: Event, es: seq<Event>)
    ensures Run(a, [e] + es) == Run(Step(a, e), es)
  {
  }

  predicate AllInputs(es: seq<Event>) {
    forall i :: 0 <= i < |es| ==> es[i].InputChanged?
  }

  /** Typing into the form changes neither the page nor the draft's id and date. */
  lemma {:induction false} InputsTouchOnlyFields(a: App, es: seq<Event>)
    requires AllInputs(es)
    ensures Run(a, es).page == a.page
    ensures Run(a, es).draft.id == a.draft.id
    ensures Run(a, es).draft.dateAdded == a.draft.dateAdded
    decreases |es|
  {
    if |es| > 0 {
      InputsTouchOnlyFields(Step(a, es[0]), es[1..]);
    }
  }

  /** Cancelling after any amount of typing leaves the list as it was and
      returns the modal to closed with an empty draft. */
  lemma CancelAfterEdits(a: App, inputs: seq<Event>, now: int)
    requires a.page.modal && AllInputs(inputs)
    ensures var b := Run(a, inputs + [CancelClicked(now)]);
      && b.page.customers == a.page.customers
      && !b.page.modal
      && b.page.editTarget.None?
      && b.draft == EmptyCustomer
  {
    RunAppend(a, inputs, CancelClicked(now));
    InputsTouchOnlyFields(a, inputs);
  }

  /** "+", typing, Save: the typed record is stamped with `length + 1` and
      `now` and put in front of the unchanged list; its id was not in use. */
  lemma CreateSession(a: App, inputs: seq<Event>, now: int)
    requires Inv(a) && !a.page.modal && AllInputs(inputs)
    requires !SaveDisabled(Run(a, [AddClicked] + inputs).draft)
    ensures var d := Run(a, [AddClicked] + inputs).draft;
      var cs := a.page.customers;
      var b := Run(a, [AddClicked] + inputs + [SaveClicked(now)]);
      && b.page.customers == [Customer(|cs| + 1, d.name, d.contact, d.phone, now)] + cs
      && (forall j :: 0 <= j < |cs| ==> cs[j].id != |cs| + 1)
      && ModeOf(b.page) == Closed
      && b.draft == EmptyCustomer
  {
    var cs := a.page.customers;
    RunAppend(a, [AddClicked] + inputs, SaveClicked(now));
    RunPrepend(a, AddClicked, inputs);
    InputsTouchOnlyFields(Step(a, AddClicked), inputs);
  }

  /** Selecting row `k`, letting the form seed, typing, Save: row `k` keeps
      its id and creation date and takes the typed fields; every other row
      and the length stay as they were. */
  lemma EditSession(a: App, k: int, inputs: seq<Event>, now: int)
    requires Inv(a) && !a.page.modal && AllInputs(inputs)
    requires 0 <= k < |a.page.customers|
    requires !SaveDisabled(Run(a, [RowClicked(a.page.customers[k]), SeedEffect] + inputs).draft)
    ensures var cs := a.page.customers;
      var d := Run(a, [RowClicked(cs[k]), SeedEffect] + inputs).draft;
      var b := Run(a, [RowClicked(cs[k]), SeedEffect] + inputs + [SaveClicked(now)]);
      && b.page.customers == cs[k := Customer(cs[k].id, d.name, d.contact, d.phone, cs[k].dateAdded)]
      && ModeOf(b.page) == Closed
      && b.draft == EmptyCustomer
  {
    var cs := a.page.customers;
    var row := cs[k];
    var es := [RowClicked(row), SeedEffect] + inputs;
    RunAppend(a, es, SaveClicked(now));
    assert es == [RowClicked(row)] + ([SeedEffect] + inputs);
    RunPrepend(a, RowClicked(row), [SeedEffect] + inputs);
    var a1 := Step(a, RowClicked(row));
    RunPrepend(a1, SeedEffect, inputs);
    var a2 := Step(a1, SeedEffect);
    assert a2.draft == FromCustomer(row);
    InputsTouchOnlyFields(a2, inputs);
    var b := Run(a2, inputs);
    assert b.page == OnRowSelected(a.page, row);
    MergeKeepsIdentity(row, b.draft);
    EditReplacesTarget(b.page, b.draft, now, k);
  }
}
