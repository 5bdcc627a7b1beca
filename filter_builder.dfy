/**
 * The document-store filter builder. A listing request carries a list of
 * filters, each a field, an operation and up to three values; a filter is
 * accepted only when the metadata lists its field with that operation, and
 * each accepted filter sets the query condition of its field (a later one
 * replacing an earlier one). It also turns paging and sorting fields into
 * find options, and adds date-range conditions.
 *
 * Dates are parsed by a layout-driven parser given as a parameter: it maps
 * a layout and a text to an instant or to the parser's error text.
 */
module Filtering {
  import opened Wrappers
  import opened Models
  import opened Options

  /** A decoded JSON value as it appears in a filter, and the query values built from it. */
  datatype Value =
    | Null
    | Str(text: string)
    | Num(n: int)
    | Flag(b: bool)
    | Date(t: Time)
    | Doc(fields: map<string, Value>)

  /** A query: the condition on each field. */
  type Query = map<string, Value>

  /** A date parser: the layout, then the text; the instant or the parse error's text. */
  type DateParser = (string, string) -> Result<Time, string>

  /** The day-month-year layout of filter dates. */
  const DateLayout: string := "02-01-2006"
  const BadDateFormat: string := "invalid date format. Use DD-MM-YYYY"
  const DateNotString: string := "date must be string"

  /** The operations the builder knows. */
  const KnownOperations: seq<string> := ["between", "contains", "equals", "gt", "lt"]

  const Day: Duration := 24 * Hour

  /** One requested filter; a value the request leaves out is `Null`. */
  datatype Filter = Filter(field: string, operation: string, value: Value, valueFrom: Value, valueTo: Value)

  datatype FilterableField = FilterableField(name: string, fieldType: string, operations: seq<string>)

  datatype FilterMetadata = FilterMetadata(filterableFields: seq<FilterableField>, sortableFields: seq<string>)

  datatype FilterRequest = FilterRequest(filtersJson: string, sortBy: string, sortOrder: string, page: int, pageSize: int)

  datatype MongoFilterBuilder = MongoFilterBuilder(request: FilterRequest, metadata: FilterMetadata)

  /** The metadata lists a filterable field named like the filter's field with the filter's operation. */
  predicate Allowed(metadata: FilterMetadata, f: Filter)
  {
    exists i, j :: 0 <= i < |metadata.filterableFields| && metadata.filterableFields[i].name == f.field &&
                   0 <= j < |metadata.filterableFields[i].operations| &&
                   metadata.filterableFields[i].operations[j] == f.operation
  }

  /** `isValidFilter`: search the filterable fields, and their operations, for the filter's pair. */
  method IsValidFilter(metadata: FilterMetadata, f: Filter) returns (valid: bool)
    ensures valid <==> Allowed(metadata, f)
  {
    var fields := metadata.filterableFields;
    for i := 0 to |fields|
      invariant forall k, j :: 0 <= k < i && fields[k].name == f.field && 0 <= j < |fields[k].operations| ==>
                  fields[k].operations[j] != f.operation
    {
      if fields[i].name == f.field {
        var ops := fields[i].operations;
        for j := 0 to |ops|
          invariant forall m :: 0 <= m < j ==> ops[m] != f.operation
        {
          if ops[j] == f.operation {
            return true;
          }
        }
      }
    }
    return false;
  }

  /** `GetFilters`: no filter text means no filters; otherwise the text is decoded. */
  function GetFilters(request: FilterRequest, decode: string -> Result<seq<Filter>, string>): (r: Result<seq<Filter>, string>)
    ensures request.filtersJson == "" ==> r == Success([])
    ensures request.filtersJson != "" ==> r == decode(request.filtersJson)
  {
    if request.filtersJson == "" then Success([]) else decode(request.filtersJson)
  }

  /** A text the filter-date layout accepts. */
  predicate IsDateFormat(text: string, parse: DateParser)
  {
    parse(DateLayout, text).Success?
  }

  /** `parseDate`: a filter date must be a text in the filter-date layout. */
  function ParseDate(v: Value, parse: DateParser): (r: Result<Time, string>)
    ensures r.Success? <==> v.Str? && IsDateFormat(v.text, parse)
    ensures r.Success? ==> r.value == parse(DateLayout, v.text).value
    ensures r.Failure? ==> r.error == if v.Str? then BadDateFormat else DateNotString
  {
    match v
    case Str(text) =>
      var t := parse(DateLayout, text);
      if t.Success? then Success(t.value) else Failure(BadDateFormat)
    case _ => Failure(DateNotString)
  }

  /**
   * The condition one filter puts on its field, or `None` for an operation
   * the builder does not know. A `between` whose lower bound is a date text
   * compares instants and fails when its upper bound is not a date text;
   * any other `between` compares the raw values.
   */
  function Condition(f: Filter, parse: DateParser): (r: Result<Option<Value>, string>)
    ensures r == Success(None) <==> f.operation !in KnownOperations
    ensures r.Failure? <==>
              f.operation == "between" && ParseDate(f.valueFrom, parse).Success? && ParseDate(f.valueTo, parse).Failure?
    ensures r.Failure? ==> r.error == if f.valueTo.Str? then BadDateFormat else DateNotString
    ensures f.operation == "between" && r.Success? ==>
              r.value.Some? && r.value.value.Doc? && r.value.value.fields.Keys == {"$gte", "$lte"}
    ensures f.operation == "between" && ParseDate(f.valueFrom, parse).Success? && ParseDate(f.valueTo, parse).Success? ==>
              r == Success(Some(Doc(map["$gte" := Date(ParseDate(f.valueFrom, parse).value),
                                        "$lte" := Date(ParseDate(f.valueTo, parse).value)])))
    ensures f.operation == "between" && ParseDate(f.valueFrom, parse).Failure? ==>
              r == Success(Some(Doc(map["$gte" := f.valueFrom, "$lte" := f.valueTo])))
    ensures f.operation == "equals" ==> r == Success(Some(f.value))
    ensures f.operation == "contains" ==> r == Success(Some(Doc(map["$regex" := f.value, "$options" := Str("i")])))
    ensures f.operation == "gt" ==> r == Success(Some(Doc(map["$gt" := f.value])))
    ensures f.operation == "lt" ==> r == Success(Some(Doc(map["$lt" := f.value])))
  {
    if f.operation == "between" then
      if f.valueFrom.Str? && IsDateFormat(f.valueFrom.text, parse) then
        var from := ParseDate(f.valueFrom, parse).value;
        var to := ParseDate(f.valueTo, parse);
        if to.Failure? then Failure(to.error)
        else Success(Some(Doc(map["$gte" := Date(from), "$lte" := Date(to.value)])))
      else
        Success(Some(Doc(map["$gte" := f.valueFrom, "$lte" := f.valueTo])))
    else if f.operation == "contains" then
      Success(Some(Doc(map["$regex" := f.value, "$options" := Str("i")])))
    else if f.operation == "equals" then
      Success(Some(f.value))
    else if f.operation == "gt" then
      Success(Some(Doc(map["$gt" := f.value])))
    else if f.operation == "lt" then
      Success(Some(Doc(map["$lt" := f.value])))
    else
      Success(None)
  }

  /** `applyFilter`: set the filter's condition on its field; no other field changes. */
  function ApplyFilter(query: Query, f: Filter, parse: DateParser): (r: Result<Query, string>)
    ensures r.Failure? <==> Condition(f, parse).Failure?
    ensures r.Success? ==> forall k :: k != f.field ==> (k in r.value <==> k in query)
    ensures r.Success? ==> forall k :: k != f.field && k in query ==> r.value[k] == query[k]
    ensures r.Success? && f.operation in KnownOperations ==>
              f.field in r.value && Some(r.value[f.field]) == Condition(f, parse).value
    ensures f.operation !in KnownOperations ==> r == Success(query)
  {
    match Condition(f, parse)
    case Failure(e) => Failure(e)
    case Success(None) => Success(query)
    case Success(Some(v)) => Success(query[f.field := v])
  }

  function InvalidFilter(f: Filter): string
  {
    "invalid filter: field '" + f.field + "' with operation '" + f.operation + "' is not allowed"
  }

  /** The filters applied in order to `query`, stopping at the first one refused or failing. */
  function ApplyFilters(metadata: FilterMetadata, filters: seq<Filter>, parse: DateParser, query: Query): Result<Query, string>
    decreases |filters|
  {
    if filters == [] then Success(query)
    else if !Allowed(metadata, filters[0]) then Failure(InvalidFilter(filters[0]))
    else
      match ApplyFilter(query, filters[0], parse)
      case Failure(e) => Failure(e)
      case Success(q) => ApplyFilters(metadata, filters[1..], parse, q)
  }

  /** What `BuildFilter` computes from the decoded filters. */
  function FilterOf(metadata: FilterMetadata, decoded: Result<seq<Filter>, string>, parse: DateParser): Result<Query, string>
  {
    match decoded
    case Failure(e) => Failure(e)
    case Success(filters) => ApplyFilters(metadata, filters, parse, map[])
  }

  /** `BuildFilter`: decode the filters, then fill the query one filter at a time. */
  method BuildFilter(b: MongoFilterBuilder, decode: string -> Result<seq<Filter>, string>, parse: DateParser)
    returns (r: Result<Query, string>)
    ensures r == FilterOf(b.metadata, GetFilters(b.request, decode), parse)
    ensures b.request.filtersJson == "" ==> r == Success(map[])
  {
    var decoded := GetFilters(b.request, decode);
    if decoded.Failure? {
      return Failure(decoded.error);
    }
    var filters := decoded.value;
    var filter: Query := map[];
    for i := 0 to |filters|
      invariant ApplyFilters(b.metadata, filters, parse, map[]) == ApplyFilters(b.metadata, filters[i..], parse, filter)
    {
      assert filters[i..][1..] == filters[i + 1..];
      var valid := IsValidFilter(b.metadata, filters[i]);
      if !valid {
        return Failure(InvalidFilter(filters[i]));
      }
      var applied := ApplyFilter(filter, filters[i], parse);
      if applied.Failure? {
        return Failure(applied.error);
      }
      filter := applied.value;
    }
    return Success(filter);
  }

  /** A query is built only when every filter's field and operation are whitelisted. */
  lemma {:induction false} BuiltOnlyFromAllowed(metadata: FilterMetadata, filters: seq<Filter>, parse: DateParser, query: Query)
    requires ApplyFilters(metadata, filters, parse, query).Success?
    ensures forall i :: 0 <= i < |filters| ==> Allowed(metadata, filters[i])
  {
    if filters != [] {
      var q := ApplyFilter(query, filters[0], parse).value;
      BuiltOnlyFromAllowed(metadata, filters[1..], parse, q);
      forall i | 0 < i < |filters|
        ensures Allowed(metadata, filters[i])
      {
        assert filters[i] == filters[1..][i - 1];
      }
    }
  }

  /** One filter that is not whitelisted makes the whole build fail. */
  lemma {:induction false} DisallowedFilterFails(metadata: FilterMetadata, filters: seq<Filter>, parse: DateParser, query: Query, i: int)
    requires 0 <= i < |filters| && !Allowed(metadata, filters[i])
    ensures ApplyFilters(metadata, filters, parse, query).Failure?
  {
    if i > 0 && Allowed(metadata, filters[0]) && ApplyFilter(query, filters[0], parse).Success? {
      assert filters[1..][i - 1] == filters[i];
      DisallowedFilterFails(metadata, filters[1..], parse, ApplyFilter(query, filters[0], parse).value, i - 1);
    }
  }

  /**
   * In a built query, a field's condition is the one set by the last filter
   * on that field with a known operation: later filters on the field with an
   * unknown operation add nothing.
   */
  lemma {:induction false} LastFilterWins(metadata: FilterMetadata, filters: seq<Filter>, parse: DateParser, query: Query, i: int)
    requires ApplyFilters(metadata, filters, parse, query).Success?
    requires 0 <= i < |filters| && filters[i].operation in KnownOperations
    requires forall j :: i < j < |filters| && filters[j].field == filters[i].field ==>
               filters[j].operation !in KnownOperations
    ensures Condition(filters[i], parse).Success?
    ensures filters[i].field in ApplyFilters(metadata, filters, parse, query).value
    ensures Some(ApplyFilters(metadata, filters, parse, query).value[filters[i].field]) == Condition(filters[i], parse).value
  {
    var q := ApplyFilter(query, filters[0], parse).value;
    if i == 0 {
      ConditionKept(metadata, filters[1..], parse, q, filters[0].field);
    } else {
      forall j | i - 1 < j < |filters[1..]| && filters[1..][j].field == filters[1..][i - 1].field
        ensures filters[1..][j].operation !in KnownOperations
      {
        assert filters[1..][j] == filters[j + 1];
      }
      LastFilterWins(metadata, filters[1..], parse, q, i - 1);
    }
  }

  /** A field no remaining filter sets (with a known operation) keeps the condition it already has. */
  lemma {:induction false} ConditionKept(metadata: FilterMetadata, filters: seq<Filter>, parse: DateParser, query: Query, field: string)
    requires ApplyFilters(metadata, filters, parse, query).Success?
    requires forall j :: 0 <= j < |filters| && filters[j].field == field ==> filters[j].operation !in KnownOperations
    ensures field in ApplyFilters(metadata, filters, parse, query).value <==> field in query
    ensures field in query ==> ApplyFilters(metadata, filters, parse, query).value[field] == query[field]
  {
    if filters != [] {
      var q := ApplyFilter(query, filters[0], parse).value;
      assert field in q <==> field in query;
      assert field in query ==> q[field] == query[field];
      forall j | 0 <= j < |filters[1..]| && filters[1..][j].field == field
        ensures filters[1..][j].operation !in KnownOperations
      {
        assert filters[1..][j] == filters[j + 1];
      }
      ConditionKept(metadata, filters[1..], parse, q, field);
    }
  }

  /** `BuildFindOptions`: paging only when page and page size are both positive; sorting only when a sort key is given. */
  method BuildFindOptions(b: MongoFilterBuilder) returns (opts: FindOptions)
    ensures fresh(opts)
    ensures b.request.page > 0 && b.request.pageSize > 0 ==>
              opts.skip == Some((b.request.page - 1) * b.request.pageSize) && opts.limit == Some(b.request.pageSize)
    ensures !(b.request.page > 0 && b.request.pageSize > 0) ==> opts.skip.None? && opts.limit.None?
    ensures b.request.sortBy != "" ==> opts.sort == Some(SortSpec(b.request.sortBy, SortOrder(b.request.sortOrder)))
    ensures b.request.sortBy == "" ==> opts.sort.None?
  {
    opts := new FindOptions();
    if b.request.page > 0 && b.request.pageSize > 0 {
      opts.SetSkip((b.request.page - 1) * b.request.pageSize);
      opts.SetLimit(b.request.pageSize);
    }
    if b.request.sortBy != "" {
      opts.SetSort(SortSpec(b.request.sortBy, SortOrder(b.request.sortOrder)));
    }
  }

  /** The last instant of the (UTC) day of `t`: 23:59:59.999999999. */
  function EndOfDay(t: Time): Time
  {
    (t / Day) * Day + Day - 1
  }

  /** The end of the day is on the same day, not before `t`, at 23:59:59.999999999, and a fixed point. */
  lemma EndOfDayIsLastInstant(t: Time)
    ensures t <= EndOfDay(t)
    ensures EndOfDay(t) / Day == t / Day
    ensures EndOfDay(t) - (t / Day) * Day == 23 * Hour + 59 * 60 * Second + 59 * Second + 999_999_999
    ensures EndOfDay(EndOfDay(t)) == EndOfDay(t)
  {
    var d := t / Day;
    assert d * Day <= t < d * Day + Day;
    assert EndOfDay(t) == d * Day + (Day - 1);
    assert EndOfDay(t) / Day == d;
  }

  /** The layout of a date range: the caller's, when one is given and non-empty, else the filter-date layout. */
  function RangeLayout(dateFormat: seq<string>): (layout: string)
    ensures layout != ""
    ensures |dateFormat| > 0 && dateFormat[0] != "" ==> layout == dateFormat[0]
  {
    if |dateFormat| > 0 && dateFormat[0] != "" then dateFormat[0] else DateLayout
  }

  /**
   * `ApplyDateRangeFilter`: with neither bound the query is unchanged;
   * otherwise each bound given must parse, and the field gets a condition
   * with exactly the given bounds, the end bound moved to the end of its day.
   */
  function ApplyDateRangeFilter(query: Query, fieldName: string, beginDate: string, endDate: string,
                                dateFormat: seq<string>, parse: DateParser): (r: Result<Query, string>)
    ensures beginDate == "" && endDate == "" ==> r == Success(query)
    ensures r.Failure? <==> (beginDate != "" && parse(RangeLayout(dateFormat), beginDate).Failure?) ||
                            (endDate != "" && parse(RangeLayout(dateFormat), endDate).Failure?)
    ensures r.Failure? && beginDate != "" && parse(RangeLayout(dateFormat), beginDate).Failure? ==>
              r.error == "invalid begin date format: " + parse(RangeLayout(dateFormat), beginDate).error
    ensures r.Failure? && !(beginDate != "" && parse(RangeLayout(dateFormat), beginDate).Failure?) ==>
              r.error == "invalid end date format: " + parse(RangeLayout(dateFormat), endDate).error
    ensures r.Success? ==> forall k :: k != fieldName ==> (k in r.value <==> k in query)
    ensures r.Success? ==> forall k :: k != fieldName && k in query ==> r.value[k] == query[k]
    ensures r.Success? && (beginDate != "" || endDate != "") ==>
              && fieldName in r.value && r.value[fieldName].Doc?
              && ("$gte" in r.value[fieldName].fields <==> beginDate != "")
              && ("$lte" in r.value[fieldName].fields <==> endDate != "")
              && r.value[fieldName].fields.Keys <= {"$gte", "$lte"}
              && (beginDate != "" ==>
                    r.value[fieldName].fields["$gte"] == Date(parse(RangeLayout(dateFormat), beginDate).value))
              && (endDate != "" ==>
                    r.value[fieldName].fields["$lte"] == Date(EndOfDay(parse(RangeLayout(dateFormat), endDate).value)))
  {
    if beginDate == "" && endDate == "" then Success(query)
    else
      var layout := RangeLayout(dateFormat);
      var begin := parse(layout, beginDate);
      var end := parse(layout, endDate);
      if beginDate != "" && begin.Failure? then Failure("invalid begin date format: " + begin.error)
      else if endDate != "" && end.Failure? then Failure("invalid end date format: " + end.error)
      else
        var lower: map<string, Value> := if beginDate != "" then map["$gte" := Date(begin.value)] else map[];
        var range := if endDate != "" then lower["$lte" := Date(EndOfDay(end.value))] else lower;
        if |range| > 0 then Success(query[fieldName := Doc(range)]) else Success(query)
  }
}
