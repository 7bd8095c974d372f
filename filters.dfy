/** The five-field filter state (`FilterOptions`) that the filter panel edits
    and the admin dashboard applies, and the partial updates passed between them. */
module Filters {
  import opened Wrappers

  datatype FilterField = Status | Category | Agency | DateRange | SearchQuery

  datatype FilterOptions = FilterOptions(
    status: string,
    category: string,
    agency: string,
    dateRange: string,
    searchQuery: string)

  /** Every field empty: the initial state and the state after a reset. */
  const EmptyFilters := FilterOptions("", "", "", "", "")

  /** A `Partial<FilterOptions>`: None marks a key the object does not carry. */
  datatype PartialFilter = PartialFilter(
    status: Option<string>,
    category: Option<string>,
    agency: Option<string>,
    dateRange: Option<string>,
    searchQuery: Option<string>)

  /** `filters[field]` */
  function Get(f: FilterOptions, field: FilterField): string
  {
    match field
    case Status => f.status
    case Category => f.category
    case Agency => f.agency
    case DateRange => f.dateRange
    case SearchQuery => f.searchQuery
  }

  /** `partial[field]`, None when the key is absent. */
  function GetPartial(p: PartialFilter, field: FilterField): Option<string>
  {
    match field
    case Status => p.status
    case Category => p.category
    case Agency => p.agency
    case DateRange => p.dateRange
    case SearchQuery => p.searchQuery
  }

  /** `{ ...f, [field]: value }`: only the named field takes the new value. */
  function SetField(f: FilterOptions, field: FilterField, value: string): (r: FilterOptions)
    ensures Get(r, field) == value
    ensures forall g :: g != field ==> Get(r, g) == Get(f, g)
  {
    match field
    case Status => f.(status := value)
    case Category => f.(category := value)
    case Agency => f.(agency := value)
    case DateRange => f.(dateRange := value)
    case SearchQuery => f.(searchQuery := value)
  }

  /** `{ [field]: value }`: a partial object carrying one key. */
  function Single(field: FilterField, value: string): (p: PartialFilter)
    ensures GetPartial(p, field) == Some(value)
    ensures forall g :: g != field ==> GetPartial(p, g) == None
  {
    var none := PartialFilter(None, None, None, None, None);
    match field
    case Status => none.(status := Some(value))
    case Category => none.(category := Some(value))
    case Agency => none.(agency := Some(value))
    case DateRange => none.(dateRange := Some(value))
    case SearchQuery => none.(searchQuery := Some(value))
  }

  /** A whole `FilterOptions` passed where a partial one is expected: every key present. */
  function Whole(f: FilterOptions): (p: PartialFilter)
    ensures forall g :: GetPartial(p, g) == Some(Get(f, g))
  {
    PartialFilter(Some(f.status), Some(f.category), Some(f.agency), Some(f.dateRange), Some(f.searchQuery))
  }

  function Pick(update: Option<string>, current: string): string
  {
    match update
    case Some(v) => v
    case None => current
  }

  /** `{ ...prev, ...update }`: keys present in `update` overwrite, all others are kept. */
  function Merge(prev: FilterOptions, update: PartialFilter): (r: FilterOptions)
    ensures forall g :: GetPartial(update, g).Some? ==> Get(r, g) == GetPartial(update, g).value
    ensures forall g :: GetPartial(update, g).None? ==> Get(r, g) == Get(prev, g)
  {
    FilterOptions(
      Pick(update.status, prev.status),
      Pick(update.category, prev.category),
      Pick(update.agency, prev.agency),
      Pick(update.dateRange, prev.dateRange),
      Pick(update.searchQuery, prev.searchQuery))
  }

  /** Two filter states that agree on every field are the same state. */
  lemma FieldsDetermine(f: FilterOptions, g: FilterOptions)
    requires forall field :: Get(f, field) == Get(g, field)
    ensures f == g
  {
    assert Get(f, Status) == Get(g, Status);
    assert Get(f, Category) == Get(g, Category);
    assert Get(f, Agency) == Get(g, Agency);
    assert Get(f, DateRange) == Get(g, DateRange);
    assert Get(f, SearchQuery) == Get(g, SearchQuery);
  }

  /** Merging a one-key update is setting that one field. */
  lemma MergeSingle(f: FilterOptions, field: FilterField, value: string)
    ensures Merge(f, Single(field, value)) == SetField(f, field, value)
  {
    var a, b := Merge(f, Single(field, value)), SetField(f, field, value);
    forall g ensures Get(a, g) == Get(b, g) {
      if g != field {
        assert GetPartial(Single(field, value), g) == None;
      }
    }
    FieldsDetermine(a, b);
  }

  /** Merging a whole filter state replaces the previous state entirely. */
  lemma MergeWhole(prev: FilterOptions, f: FilterOptions)
    ensures Merge(prev, Whole(f)) == f
  {
    var a := Merge(prev, Whole(f));
    forall g ensures Get(a, g) == Get(f, g) {
      assert GetPartial(Whole(f), g) == Some(Get(f, g));
    }
    FieldsDetermine(a, f);
  }

  /** Applying the same partial update twice is applying it once. */
  lemma MergeIdempotent(prev: FilterOptions, update: PartialFilter)
    ensures Merge(Merge(prev, update), update) == Merge(prev, update)
  {
    var once := Merge(prev, update);
    var twice := Merge(once, update);
    forall g ensures Get(twice, g) == Get(once, g) {
    }
    FieldsDetermine(twice, once);
  }
}
