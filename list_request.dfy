/**
  * The parameter shaping shared, line for line, by `getUsers`, `getCourses`
  * and `getLeads`: destructure `pageIndex` and `pageSize` with their
  * defaults, drop `sortBy`, spread the other filters, and split a truthy
  * `sortBy` of the form `field.order` into `sortField` and `sortOrder`.
  */
module ListRequest {
  import opened Js
  import opened ParamsUtils

  /** `filters.sortBy`, `undefined` when absent. */
  function SortBy(filters: map<string, Value>): Value {
    if "sortBy" in filters then filters["sortBy"] else Undefined
  }

  /** A destructuring default applies only when the property is absent or `undefined`. */
  function WithDefault(filters: map<string, Value>, key: string, default: int): (v: Value)
    ensures key in filters && !filters[key].Undefined? ==> v == filters[key]
    ensures key !in filters || filters[key].Undefined? ==> v == Num(Int(default))
  {
    if key in filters && !filters[key].Undefined? then filters[key] else Num(Int(default))
  }

  /** `...otherFilters`: everything but the three destructured keys. */
  function OtherFilters(filters: map<string, Value>): map<string, Value> {
    map key | key in filters && key != "pageIndex" && key != "pageSize" && key != "sortBy" :: filters[key]
  }

  /** The `params` object the builders pass to `GET`. */
  function ListParams(filters: map<string, Value>, defaults: PageDefaults): (r: Result<map<string, Value>, JsError>)
    ensures r.Err? <==> Truthy(SortBy(filters)) && !SortBy(filters).Str?
    ensures r.Ok? ==>
      && "pageIndex" in r.value && "pageSize" in r.value
      && r.value["pageIndex"] == WithDefault(filters, "pageIndex", defaults.pageIndex)
      && r.value["pageSize"] == WithDefault(filters, "pageSize", defaults.pageSize)
      && "sortBy" !in r.value
    ensures r.Ok? ==>
      forall key :: key in filters && key !in ["pageIndex", "pageSize", "sortBy", "sortField", "sortOrder"] ==>
        key in r.value && r.value[key] == filters[key]
    ensures r.Ok? ==>
      forall key :: key in r.value ==>
        key in filters || key in ["pageIndex", "pageSize", "sortField", "sortOrder"]
    ensures r.Ok? && Truthy(SortBy(filters)) ==>
      "sortField" in r.value && "sortOrder" in r.value
  {
    var params := OtherFilters(filters)["pageIndex" := WithDefault(filters, "pageIndex", defaults.pageIndex)]
                                       ["pageSize" := WithDefault(filters, "pageSize", defaults.pageSize)];
    var sortBy := SortBy(filters);
    if !Truthy(sortBy) then Ok(params)
    else if !sortBy.Str? then Err(TypeError)
    else
      var parts := Split(sortBy.s, '.');
      Ok(params["sortField" := Str(parts[0])]["sortOrder" := if |parts| > 1 then Str(parts[1]) else Undefined])
  }

  /** A non-empty string `sortBy` is split at its dots: the first part is the field, the second (if any) the order. */
  lemma SortKeys(filters: map<string, Value>, defaults: PageDefaults, sortBy: string)
    requires SortBy(filters) == Str(sortBy) && sortBy != ""
    ensures ListParams(filters, defaults).Ok?
    ensures ListParams(filters, defaults).value["sortField"] == Str(Split(sortBy, '.')[0])
    ensures ListParams(filters, defaults).value["sortOrder"] ==
      if |Split(sortBy, '.')| > 1 then Str(Split(sortBy, '.')[1]) else Undefined
  {
  }

  /** `sortBy = "f.o"` yields `sortField = f` and `sortOrder = o`. */
  lemma SortFieldAndOrder(filters: map<string, Value>, defaults: PageDefaults, field: string, order: string)
    requires SortBy(filters) == Str(field + "." + order)
    requires '.' !in field && '.' !in order
    ensures ListParams(filters, defaults).Ok?
    ensures ListParams(filters, defaults).value["sortField"] == Str(field)
    ensures ListParams(filters, defaults).value["sortOrder"] == Str(order)
  {
    SplitCons(field, '.', order);
    assert field + "." + order == field + ['.'] + order;
  }

  /** A `sortBy` without a dot sorts by the whole string and leaves `sortOrder` undefined. */
  lemma SortWithoutOrder(filters: map<string, Value>, defaults: PageDefaults, field: string)
    requires SortBy(filters) == Str(field) && field != ""
    requires '.' !in field
    ensures ListParams(filters, defaults).Ok?
    ensures ListParams(filters, defaults).value["sortField"] == Str(field)
    ensures ListParams(filters, defaults).value["sortOrder"] == Undefined
  {
  }

  /** Segments after the second are dropped. */
  lemma ExtraSegmentsDropped(filters: map<string, Value>, defaults: PageDefaults, field: string, order: string, rest: string)
    requires SortBy(filters) == Str(field + "." + order + "." + rest)
    requires '.' !in field && '.' !in order
    ensures ListParams(filters, defaults).Ok?
    ensures ListParams(filters, defaults).value["sortField"] == Str(field)
    ensures ListParams(filters, defaults).value["sortOrder"] == Str(order)
  {
    SplitFirstTwo(field, order, rest, '.');
    SortKeys(filters, defaults, field + "." + order + "." + rest);
  }

  /**
    * An absent or empty `sortBy` adds neither sort key: the params are the
    * other filters plus the two page keys.
    */
  lemma FalsySortAddsNothing(filters: map<string, Value>, defaults: PageDefaults)
    requires !Truthy(SortBy(filters))
    ensures ListParams(filters, defaults).Ok?
    ensures ListParams(filters, defaults).value.Keys == (filters.Keys - {"sortBy"}) + {"pageIndex", "pageSize"}
  {
  }

  /** Filters without page keys get both defaults. */
  lemma MissingPageKeysDefaulted(filters: map<string, Value>, defaults: PageDefaults)
    requires "pageIndex" !in filters && "pageSize" !in filters
    requires ListParams(filters, defaults).Ok?
    ensures ListParams(filters, defaults).value["pageIndex"] == Num(Int(defaults.pageIndex))
    ensures ListParams(filters, defaults).value["pageSize"] == Num(Int(defaults.pageSize))
  {
  }
}
