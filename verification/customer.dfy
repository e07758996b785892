/**
 The records the customers page works on: the stored `Customer`, the modal's
 working `Draft`, and a key/value view of both that gives JavaScript's object
 spread (`{...a, ...b}`) and property assignment a reference meaning.
 */
module CustomerData {
  import opened Wrappers

  /** A row of the table. `dateAdded` is an opaque timestamp. */
  datatype Customer = Customer(id: int, name: string, contact: string, phone: string, dateAdded: int)

  /** The modal's working record. The three form fields are always present;
      `id` and `dateAdded` are present only when the draft was copied from a
      stored record. */
  datatype Draft = Draft(name: string, contact: string, phone: string, id: Option<int>, dateAdded: Option<int>)

  /** The form inputs, named as their `name` attribute. */
  datatype Field = Name | Contact | Phone

  /** The draft every open starts from and every close resets to. */
  const EmptyCustomer: Draft := Draft("", "", "", None, None)

  /** Number of sample rows the page starts with. */
  const FakeDataSize: nat := 10

  function Get(d: Draft, f: Field): string {
    match f
    case Name => d.name
    case Contact => d.contact
    case Phone => d.phone
  }

  // ---------------------------------------------------------------------------
  // The JavaScript object view

  datatype Key = IdKey | NameKey | ContactKey | PhoneKey | DateAddedKey
  datatype Value = Num(n: int) | Str(s: string)

  function FieldKey(f: Field): Key {
    match f
    case Name => NameKey
    case Contact => ContactKey
    case Phone => PhoneKey
  }

  /** A stored record has all five properties. */
  function CustomerObject(c: Customer): map<Key, Value> {
    map[IdKey := Num(c.id), NameKey := Str(c.name), ContactKey := Str(c.contact),
        PhoneKey := Str(c.phone), DateAddedKey := Num(c.dateAdded)]
  }

  /** A draft has the three form properties, plus `id` and `dateAdded` when present. */
  function DraftObject(d: Draft): map<Key, Value> {
    var base := map[NameKey := Str(d.name), ContactKey := Str(d.contact), PhoneKey := Str(d.phone)];
    var withId := if d.id.Some? then base[IdKey := Num(d.id.value)] else base;
    if d.dateAdded.Some? then withId[DateAddedKey := Num(d.dateAdded.value)] else withId
  }

  /** Two records with the same properties are the same record. */
  lemma CustomerObjectInjective(a: Customer, b: Customer)
    requires CustomerObject(a) == CustomerObject(b)
    ensures a == b
  {
    assert CustomerObject(a)[IdKey] == CustomerObject(b)[IdKey];
    assert CustomerObject(a)[NameKey] == CustomerObject(b)[NameKey];
    assert CustomerObject(a)[ContactKey] == CustomerObject(b)[ContactKey];
    assert CustomerObject(a)[PhoneKey] == CustomerObject(b)[PhoneKey];
    assert CustomerObject(a)[DateAddedKey] == CustomerObject(b)[DateAddedKey];
  }

  /** Two drafts with the same properties are the same draft: which of `id`
      and `dateAdded` are present is part of the view. */
  lemma DraftObjectInjective(a: Draft, b: Draft)
    requires DraftObject(a) == DraftObject(b)
    ensures a == b
  {
    assert DraftObject(a)[NameKey] == DraftObject(b)[NameKey];
    assert DraftObject(a)[ContactKey] == DraftObject(b)[ContactKey];
    assert DraftObject(a)[PhoneKey] == DraftObject(b)[PhoneKey];
    assert a.id.Some? <==> IdKey in DraftObject(a);
    assert a.dateAdded.Some? <==> DateAddedKey in DraftObject(a);
    if a.id.Some? {
      assert DraftObject(a)[IdKey] == DraftObject(b)[IdKey];
    }
    if a.dateAdded.Some? {
      assert DraftObject(a)[DateAddedKey] == DraftObject(b)[DateAddedKey];
    }
  }

  // ---------------------------------------------------------------------------
  // Record construction

  /** The draft a stored record seeds: the record object itself. */
  function FromCustomer(c: Customer): (d: Draft)
    ensures DraftObject(d) == CustomerObject(c)
  {
    Draft(c.name, c.contact, c.phone, Some(c.id), Some(c.dateAdded))
  }

  /** `{...existing, ...d}`: the draft's properties laid over the stored record. */
  function Merge(existing: Customer, d: Draft): (r: Customer)
    ensures CustomerObject(r) == CustomerObject(existing) + DraftObject(d)
  {
    Customer(d.id.GetOr(existing.id), d.name, d.contact, d.phone, d.dateAdded.GetOr(existing.dateAdded))
  }

  /** The draft after `d.id = id; d.dateAdded = now`, as a record. */
  function Stamp(d: Draft, id: int, now: int): (r: Customer)
    ensures CustomerObject(r) == DraftObject(d)[IdKey := Num(id)][DateAddedKey := Num(now)]
  {
    Customer(id, d.name, d.contact, d.phone, now)
  }

  /** Merging a record's own copy back into it yields the record unchanged. */
  lemma MergeSeedRoundTrip(c: Customer)
    ensures Merge(c, FromCustomer(c)) == c
  {
  }

  /** Merging a draft that carries the stored record's `id` and `dateAdded`
      keeps both, and takes every form field from the draft. */
  lemma MergeKeepsIdentity(existing: Customer, d: Draft)
    requires d.id.Some? ==> d.id.value == existing.id
    requires d.dateAdded.Some? ==> d.dateAdded.value == existing.dateAdded
    ensures Merge(existing, d).id == existing.id
    ensures Merge(existing, d).dateAdded == existing.dateAdded
    ensures forall f :: Get(FromCustomer(Merge(existing, d)), f) == Get(d, f)
  {
  }

  // ---------------------------------------------------------------------------
  // Collection predicates

  /** No two rows share an `id`. */
  ghost predicate UniqueIds(cs: seq<Customer>) {
    forall i, j :: 0 <= i < |cs| && 0 <= j < |cs| && cs[i].id == cs[j].id ==> i == j
  }

  /** Every `id` is at most the number of rows: what keeps `length + 1` fresh. */
  ghost predicate IdsBounded(cs: seq<Customer>) {
    forall i :: 0 <= i < |cs| ==> cs[i].id <= |cs|
  }

  /** The three required fields of a stored record are non-empty. */
  predicate Complete(c: Customer) {
    c.name != "" && c.contact != "" && c.phone != ""
  }

  ghost predicate AllComplete(cs: seq<Customer>) {
    forall i :: 0 <= i < |cs| ==> Complete(cs[i])
  }

  /** The shape of the sample data: row `i` has `id == i`. */
  ghost predicate IdsAreIndices(cs: seq<Customer>) {
    forall i :: 0 <= i < |cs| ==> cs[i].id == i
  }

  /** The page's sample data: ten rows, ids `0..9`, generated text non-empty. */
  ghost predicate IsFakeData(cs: seq<Customer>) {
    |cs| == FakeDataSize && IdsAreIndices(cs) && AllComplete(cs)
  }

  /** Ids equal to the row positions are unique and within bounds. */
  lemma IndexIdsWellFormed(cs: seq<Customer>)
    requires IdsAreIndices(cs)
    ensures UniqueIds(cs)
    ensures IdsBounded(cs)
  {
  }
}
