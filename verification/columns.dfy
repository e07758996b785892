/** The sort indicator every column of the table uses. */
module Columns {
  import opened Wrappers

  /** The sort state the table passes to a column's caret; `None` is unsorted. */
  datatype SortOrder = Asc | Desc

  function OrderName(o: SortOrder): string {
    match o
    case Asc => "asc"
    case Desc => "desc"
  }

  /** The class of the neutral indicator shown for an unsorted column. */
  const NeutralCaret: string := "fa fa-fw fa-sort text-muted"
  const DirectionalPrefix: string := "fa fa-fw text-muted fa-sort-"

  /** The indicator class for a column's sort state. */
  function SortCaret(order: Option<SortOrder>): (cls: string)
    ensures cls == NeutralCaret <==> order.None?
    ensures order.Some? ==> DirectionalPrefix <= cls
  {
    if order.None? then NeutralCaret
    else DirectionalPrefix + OrderName(order.value)
  }

  /** The indicator tells the three sort states apart. */
  lemma SortCaretInjective(a: Option<SortOrder>, b: Option<SortOrder>)
    ensures SortCaret(a) == SortCaret(b) <==> a == b
  {
  }
}
