/**
 The create/edit modal: a working draft, a single-field change handler, a
 validity test that enables Save, and the two ways of closing.
 */
module AddNewModal {
  import opened Wrappers
  import opened CustomerData

  /** JavaScript truthiness of a string: only the empty string is falsy. */
  predicate Truthy(s: string) {
    s != ""
  }

  /** JavaScript `a && b` on strings: `a` when it is falsy, otherwise `b`. */
  function And(a: string, b: string): string {
    if Truthy(a) then b else a
  }

  /** The value `isValid()` returns, `name && contact && phone`: one of the
      three fields, truthy exactly when none of them is empty. */
  function IsValid(d: Draft): (v: string)
    ensures Truthy(v) <==> d.name != "" && d.contact != "" && d.phone != ""
    ensures v == d.name || v == d.contact || v == d.phone
  {
    And(And(d.name, d.contact), d.phone)
  }

  /** The Save button's `disabled` attribute. */
  predicate SaveDisabled(d: Draft) {
    !Truthy(IsValid(d))
  }

  /** Save is disabled exactly when some required field is empty. */
  lemma SaveDisabledIffFieldEmpty(d: Draft)
    ensures SaveDisabled(d) <==> exists f :: Get(d, f) == ""
  {
    if d.name == "" { assert Get(d, Name) == ""; }
    if d.contact == "" { assert Get(d, Contact) == ""; }
    if d.phone == "" { assert Get(d, Phone) == ""; }
  }

  /** `{...customer, [name]: value}`: the named field takes the new value. */
  function OnInputChange(d: Draft, f: Field, v: string): (r: Draft)
    ensures DraftObject(r) == DraftObject(d)[FieldKey(f) := Str(v)]
    ensures Get(r, f) == v
    ensures forall g :: g != f ==> Get(r, g) == Get(d, g)
    ensures r.id == d.id && r.dateAdded == d.dateAdded
  {
    match f
    case Name => d.(name := v)
    case Contact => d.(contact := v)
    case Phone => d.(phone := v)
  }

  /** A later change of a field overrides an earlier change of the same field. */
  lemma InputChangeOverrides(d: Draft, f: Field, v: string, w: string)
    ensures OnInputChange(OnInputChange(d, f, v), f, w) == OnInputChange(d, f, w)
  {
  }

  /** Changes to different fields do not interfere. */
  lemma InputChangesCommute(d: Draft, f: Field, v: string, g: Field, w: string)
    requires f != g
    ensures OnInputChange(OnInputChange(d, f, v), g, w) == OnInputChange(OnInputChange(d, g, w), f, v)
  {
  }

  /** The modal's draft after closing, and what it hands to `toggle`. */
  datatype Closing = Closing(draft: Draft, result: Option<Draft>)

  /** Close without saving: the draft is emptied and nothing is handed back. */
  function Cancel(d: Draft): (c: Closing)
    ensures DraftObject(c.draft) == map[NameKey := Str(""), ContactKey := Str(""), PhoneKey := Str("")]
    ensures c.result.None?
  {
    Closing(EmptyCustomer, None)
  }

  /** Save: the draft is emptied, and the draft as it stood is handed back. */
  function Save(d: Draft): (c: Closing)
    ensures DraftObject(c.draft) == map[NameKey := Str(""), ContactKey := Str(""), PhoneKey := Str("")]
    ensures c.result.Some? && DraftObject(c.result.value) == DraftObject(d)
  {
    Closing(EmptyCustomer, Some(d))
  }

  /** The seeding effect: a present `existingCustomer` replaces the draft by
      its own record object; an absent one leaves the draft alone. */
  function SeedFromExisting(d: Draft, existing: Option<Customer>): (r: Draft)
    ensures existing.None? ==> r == d
    ensures existing.Some? ==> DraftObject(r) == CustomerObject(existing.value)
  {
    if existing.Some? then FromCustomer(existing.value) else d
  }

  /** A seeded draft carries the record's `id` and `dateAdded`; editing its
      fields and merging it back changes only the edited field. */
  lemma SeededEditChangesOnlyField(c: Customer, f: Field, v: string)
    ensures Merge(c, OnInputChange(FromCustomer(c), f, v)).id == c.id
    ensures Merge(c, OnInputChange(FromCustomer(c), f, v)).dateAdded == c.dateAdded
    ensures Get(FromCustomer(Merge(c, OnInputChange(FromCustomer(c), f, v))), f) == v
    ensures forall g :: g != f ==> Get(FromCustomer(Merge(c, OnInputChange(FromCustomer(c), f, v))), g) == Get(FromCustomer(c), g)
  {
  }

  /** The modal's heading. */
  function Title(existing: Option<Customer>): (t: string)
    ensures t == "Edit Customer" <==> existing.Some?
    ensures t == "Create Customer" <==> existing.None?
  {
    if existing.Some? then "Edit Customer" else "Create Customer"
  }
}
