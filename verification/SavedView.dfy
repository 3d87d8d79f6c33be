/** The saved-view compiler: a closed grammar checked field by field, and the bounds of what it compiles to. */
module SavedView {
  import opened Wrappers
  import opened Distinctness
  import opened CalendarRange

  const MAX_FIELDS := 8
  const MAX_FILTERS := 8
  const MAX_CALENDAR_FILTERS := 6
  const MAX_SORTS := 2
  const MAX_PAGE := 100
  const MAX_LIST := 20
  const MIN_KANBAN_PAGE := 7
  const MAX_PAGE_NUMBER := 1_000_000

  datatype Kind = Table | Kanban | Calendar
  datatype Operator = IsNull | IsNotNull | In | NotIn | Gte | Lt | OtherOperator(name: string)
  datatype Direction = Asc | Desc

  /** A filter value: a list, an instant, or any other scalar; `typed` says whether its scalars fit the field. */
  datatype Value = List(items: nat, sameType: bool, typed: bool) | Instant(at: int) | Scalar(typed: bool)

  datatype Filter = Filter(field: string, operator: Operator, value: Option<Value>)
  datatype Sort = Sort(field: string, direction: Direction)

  datatype Field = Field(operators: set<Operator>, sortable: bool, required: bool, datetime: bool)
  type Descriptor = map<string, Field>

  /** `shape` stands for exact keys, source binding, presentation and byte size; `zoneMatches` for the range's zone check. */
  datatype View = View(
    kind: Kind, shape: bool, fields: seq<string>, filters: seq<Filter>, sorts: seq<Sort>, pageSize: int,
    dateField: string, range: Option<Range>, zoneMatches: bool)

  datatype Compiled = Compiled(fields: seq<string>, filters: seq<Filter>, sorts: seq<Sort>, page: int, pageSize: int)

  predicate ValueValid(f: Field, operator: Operator, value: Value) {
    if operator == In || operator == NotIn then value.List? && 1 <= value.items <= MAX_LIST && value.sameType && value.typed
    else match value case List(_, _, _) => false case Instant(_) => f.datetime case Scalar(typed) => typed
  }

  predicate FilterValid(d: Descriptor, fields: seq<string>, f: Filter) {
    && f.field in d && f.field in fields && f.operator in d[f.field].operators
    && (f.operator == IsNull || f.operator == IsNotNull <==> f.value.None?)
    && (f.value.Some? ==> ValueValid(d[f.field], f.operator, f.value.value))
  }

  predicate SortValid(d: Descriptor, fields: seq<string>, s: Sort) {
    s.field in d && s.field in fields && d[s.field].sortable
  }

  function SortFields(sorts: seq<Sort>): (r: seq<string>)
    ensures |r| == |sorts|
  {
    seq(|sorts|, i requires 0 <= i < |sorts| => sorts[i].field)
  }

  ghost predicate FieldsValid(d: Descriptor, selected: seq<string>, v: View) {
    && 1 <= |v.fields| <= MAX_FIELDS && Distinct(v.fields) && (forall f <- v.fields :: f in d)
    && selected == v.fields && forall f <- d :: d[f].required ==> f in v.fields
  }

  predicate PageValid(v: View) { 1 <= v.pageSize <= MAX_PAGE && (v.kind == Kanban ==> v.pageSize >= MIN_KANBAN_PAGE) }

  predicate CalendarValid(v: View, zone: int -> int) {
    v.kind == Calendar ==> v.zoneMatches && v.dateField in v.fields && v.range.Some? && RangeAccepted(zone, v.range.value)
  }

  /** What the compiler accepts. */
  ghost predicate Accepted(d: Descriptor, selected: seq<string>, v: View, page: int, zone: int -> int) {
    && 1 <= page <= MAX_PAGE_NUMBER && v.shape && FieldsValid(d, selected, v)
    && |v.filters| <= (if v.kind == Calendar then MAX_CALENDAR_FILTERS else MAX_FILTERS) && |v.sorts| <= MAX_SORTS
    && (forall f <- v.filters :: FilterValid(d, v.fields, f))
    && (forall s <- v.sorts :: SortValid(d, v.fields, s)) && Distinct(SortFields(v.sorts))
    && PageValid(v) && CalendarValid(v, zone)
  }

  /** The two bounds a calendar view adds. */
  function RangeFilters(v: View): seq<Filter> {
    if v.kind == Calendar && v.range.Some? then
      [Filter(v.dateField, Gte, Some(Instant(v.range.value.start))), Filter(v.dateField, Lt, Some(Instant(v.range.value.end)))]
    else []
  }

  /** The compiler: fields, then filters and sorts one by one, then page and calendar range. */
  method Compile(d: Descriptor, selected: seq<string>, v: View, page: int, zone: int -> int) returns (r: Option<Compiled>)
    ensures r.Some? <==> Accepted(d, selected, v, page, zone)
    ensures r.Some? ==> r.value == Compiled(v.fields, v.filters + RangeFilters(v), v.sorts, page, v.pageSize)
  {
    hide FilterValid, SortValid, RangeAccepted;
    if page < 1 || page > MAX_PAGE_NUMBER || !v.shape { return None; }
    var distinct := AllDistinct(v.fields);
    if |v.fields| < 1 || |v.fields| > MAX_FIELDS || !distinct || !(forall f <- v.fields :: f in d) || selected != v.fields ||
       !(forall f <- d :: d[f].required ==> f in v.fields) {
      return None;
    }
    if |v.filters| > (if v.kind == Calendar then MAX_CALENDAR_FILTERS else MAX_FILTERS) || |v.sorts| > MAX_SORTS { return None; }
    var filters: seq<Filter>, i := [], 0;
    while i < |v.filters|
      invariant i <= |v.filters| && filters == v.filters[..i]
      invariant forall f <- v.filters[..i] :: FilterValid(d, v.fields, f)
    {
      if !FilterValid(d, v.fields, v.filters[i]) {
        assert v.filters[i] in v.filters;
        return None;
      }
      filters := filters + [v.filters[i]];
      i := i + 1;
    }
    assert v.filters[..i] == v.filters;
    var sorts: seq<Sort>, seen: set<string>, j := [], {}, 0;
    while j < |v.sorts|
      invariant j <= |v.sorts| && sorts == v.sorts[..j] && seen == set k | 0 <= k < j :: v.sorts[k].field
      invariant forall s <- v.sorts[..j] :: SortValid(d, v.fields, s)
      invariant forall k, l :: 0 <= k < l < j ==> SortFields(v.sorts)[k] != SortFields(v.sorts)[l]
    {
      if v.sorts[j].field in seen {
        var k :| 0 <= k < j && v.sorts[k].field == v.sorts[j].field;
        assert SortFields(v.sorts)[k] == SortFields(v.sorts)[j];
        return None;
      }
      if !SortValid(d, v.fields, v.sorts[j]) {
        assert v.sorts[j] in v.sorts;
        return None;
      }
      sorts := sorts + [v.sorts[j]];
      seen := seen + {v.sorts[j].field};
      j := j + 1;
    }
    assert v.sorts[..j] == v.sorts;
    if !PageValid(v) || !CalendarValid(v, zone) { return None; }
    if v.kind == Calendar {
      filters := filters + [Filter(v.dateField, Gte, Some(Instant(v.range.value.start))), Filter(v.dateField, Lt, Some(Instant(v.range.value.end)))];
    } else {
      assert v.filters + [] == v.filters;
    }
    return Some(Compiled(v.fields, filters, sorts, page, v.pageSize));
  }

  /** Every compiled view stays within the source's limits, even with the two date bounds, and filters only selected fields. */
  lemma CompiledViewsAreBounded(d: Descriptor, selected: seq<string>, v: View, page: int, zone: int -> int)
    requires Accepted(d, selected, v, page, zone)
    ensures |v.filters + RangeFilters(v)| <= MAX_FILTERS
    ensures |v.sorts| <= MAX_SORTS && 1 <= |v.fields| <= MAX_FIELDS && v.pageSize <= MAX_PAGE
    ensures forall f <- v.filters + RangeFilters(v) :: f.field in v.fields && f.field in d
    ensures forall s <- v.sorts :: s.field in v.fields
  {
    forall f <- v.filters + RangeFilters(v) ensures f.field in v.fields && f.field in d {
      if f in v.filters { assert FilterValid(d, v.fields, f); }
    }
    forall s <- v.sorts ensures s.field in v.fields { assert SortValid(d, v.fields, s); }
  }

  /** A calendar view given the canonical month of any zone within a day of UTC passes, if the rest of it does. */
  lemma CanonicalMonthCompiles(d: Descriptor, selected: seq<string>, v: View, page: int, zone: int -> int, now: int)
    requires forall t :: -DAY_SECONDS <= zone(t) <= DAY_SECONDS
    requires v.kind == Calendar && v.zoneMatches && v.dateField in v.fields
    requires RangeOf(zone, now).Some? && v.range == RangeOf(zone, now)
    ensures Accepted(d, selected, v, page, zone) <==> Accepted(d, selected, v.(kind := Table), page, zone) && |v.filters| <= MAX_CALENDAR_FILTERS
  {
    hide Accepted, RangeOf, RangeAccepted, PartsAt, Days;
    RangesAreAccepted(zone, now);
    KindDecidesOnlyTheRange(d, selected, v, page, zone);
  }

  lemma KindDecidesOnlyTheRange(d: Descriptor, selected: seq<string>, v: View, page: int, zone: int -> int)
    requires v.kind == Calendar && CalendarValid(v, zone)
    ensures Accepted(d, selected, v, page, zone) <==> Accepted(d, selected, v.(kind := Table), page, zone) && |v.filters| <= MAX_CALENDAR_FILTERS
  {
    hide RangeAccepted, FilterValid, SortValid, Distinct;
    assert FieldsValid(d, selected, v) <==> FieldsValid(d, selected, v.(kind := Table));
  }

  // ---------- the grammar, clause by clause ----------

  /** A null test takes no value, a list test one to twenty fitting items of one type, any other test one fitting value. */
  ghost predicate FilterFits(d: Descriptor, selected: seq<string>, f: Filter) {
    && f.field in d && f.field in selected && f.operator in d[f.field].operators
    && match f.operator
       case IsNull | IsNotNull => f.value.None?
       case In | NotIn =>
         && f.value.Some? && f.value.value.List? && 0 < f.value.value.items < 21 && f.value.value.sameType && f.value.value.typed
       case _ =>
         && f.value.Some? && !f.value.value.List?
         && (f.value.value.Instant? ==> d[f.field].datetime) && (f.value.value.Scalar? ==> f.value.value.typed)
  }

  /** A calendar shows a selected date field over one to thirty-one local days of the reporting time zone. */
  ghost predicate CalendarFits(v: View, zone: int -> int) {
    && v.zoneMatches && v.dateField in v.fields && v.range.Some? && v.range.value.start < v.range.value.end
    && 0 < Days(PartsAt(zone, v.range.value.end).date) - Days(PartsAt(zone, v.range.value.start).date) < 32
  }

  lemma FilterFitsExactly(d: Descriptor, selected: seq<string>, f: Filter)
    ensures FilterValid(d, selected, f) <==> FilterFits(d, selected, f)
  {
  }

  /** A view compiles exactly when each of these holds, and nothing else is asked of it. */
  lemma GrammarClauseByClause(d: Descriptor, selected: seq<string>, v: View, page: int, zone: int -> int)
    ensures Accepted(d, selected, v, page, zone) <==>
              && 0 < page < 1_000_001 && v.shape
              && 0 < |v.fields| < 9 && Distinct(v.fields) && selected == v.fields
              && (forall f <- v.fields :: f in d) && (forall f <- d :: d[f].required ==> f in v.fields)
              && |v.filters| < (if v.kind == Calendar then 7 else 9) && (forall f <- v.filters :: FilterFits(d, v.fields, f))
              && |v.sorts| < 3
              && (forall s <- v.sorts :: s.field in d && s.field in v.fields && d[s.field].sortable)
              && (forall i, j | 0 <= i < j < |v.sorts| :: v.sorts[i].field != v.sorts[j].field)
              && (if v.kind == Kanban then 6 else 0) < v.pageSize < 101
              && (v.kind == Calendar ==> CalendarFits(v, zone))
  {
    forall f <- v.filters ensures FilterValid(d, v.fields, f) <==> FilterFits(d, v.fields, f) {
      FilterFitsExactly(d, v.fields, f);
    }
    hide FilterValid, FilterFits, PartsAt, Days, CalendarValid, CalendarFits;
    CalendarFitsExactly(v, zone);
    SortsAreDistinct(v.sorts);
    hide Distinct;
  }

  lemma CalendarFitsExactly(v: View, zone: int -> int)
    ensures CalendarValid(v, zone) <==> (v.kind == Calendar ==> CalendarFits(v, zone))
  {
    hide PartsAt, Days;
  }

  lemma SortsAreDistinct(sorts: seq<Sort>)
    ensures Distinct(SortFields(sorts)) <==> forall i, j | 0 <= i < j < |sorts| :: sorts[i].field != sorts[j].field
  {
    var fields := SortFields(sorts);
    assert forall i | 0 <= i < |sorts| :: fields[i] == sorts[i].field;
    if Distinct(fields) {
      forall i, j | 0 <= i < j < |sorts| ensures sorts[i].field != sorts[j].field { assert fields[i] != fields[j]; }
    }
  }
}
