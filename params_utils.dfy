/**
  * `cleanEmptyParams`: normalises a list view's search object before it is
  * published, dropping empty filter values and page keys that hold their
  * defaults.
  */
module ParamsUtils {
  import opened Js

  /**
    * DEFAULT_PAGE_INDEX and DEFAULT_PAGE_SIZE. Their definitions are not part
    * of this model, so they are parameters.
    */
  datatype PageDefaults = PageDefaults(pageIndex: int, pageSize: int)

  /** A value the cleaner treats as absent: `undefined`, `''`, NaN or `[]`. */
  predicate IsEmpty(v: Value) {
    v.Undefined? || v == Str("") || v == Num(NaN) || (v.Arr? && v.items == [])
  }

  /** `v === d` for a numeric default `d`. */
  predicate IsNumber(v: Value, d: int) {
    v == Num(Int(d))
  }

  /** Whether `key` holds its page default; only the two page keys are compared. */
  predicate IsPageDefault(key: string, v: Value, defaults: PageDefaults) {
    (key == "pageIndex" && IsNumber(v, defaults.pageIndex))
    || (key == "pageSize" && IsNumber(v, defaults.pageSize))
  }

  /** The cleaned search object, as a function of the search object. */
  function Cleaned(search: map<string, Value>, defaults: PageDefaults): map<string, Value> {
    map key | key in search && !IsEmpty(search[key]) && !IsPageDefault(key, search[key], defaults)
      :: search[key]
  }

  /**
    * The source's procedure: copy the search object, delete every empty
    * entry one key at a time, then delete `pageIndex` and `pageSize` when
    * they equal their defaults. The argument is a value, so it is untouched.
    */
  method CleanEmptyParams(search: map<string, Value>, defaults: PageDefaults)
    returns (newSearch: map<string, Value>)
    ensures newSearch == Cleaned(search, defaults)
  {
    newSearch := search;
    var keys := search.Keys;
    while keys != {}
      invariant keys <= search.Keys
      invariant newSearch.Keys <= search.Keys
      invariant forall key :: key in search && key !in keys ==> (key in newSearch <==> !IsEmpty(search[key]))
      invariant keys <= newSearch.Keys
      invariant forall key :: key in newSearch ==> newSearch[key] == search[key]
      decreases keys
    {
      var key :| key in keys;
      var value := newSearch[key];
      if IsEmpty(value) {
        newSearch := newSearch - {key};
      }
      keys := keys - {key};
    }
    if "pageIndex" in newSearch && IsNumber(newSearch["pageIndex"], defaults.pageIndex) {
      newSearch := newSearch - {"pageIndex"};
    }
    if "pageSize" in newSearch && IsNumber(newSearch["pageSize"], defaults.pageSize) {
      newSearch := newSearch - {"pageSize"};
    }
  }

  /**
    * What the cleaner promises: only keys of the input survive, with their
    * values unchanged; empty values go; every other value stays except a page
    * key holding its default.
    */
  lemma CleanedSpec(search: map<string, Value>, defaults: PageDefaults)
    ensures Cleaned(search, defaults).Keys <= search.Keys
    ensures forall key :: key in Cleaned(search, defaults) ==> Cleaned(search, defaults)[key] == search[key]
    ensures forall key :: key in search && IsEmpty(search[key]) ==> key !in Cleaned(search, defaults)
    ensures forall key ::
              key in search && !IsEmpty(search[key]) && key != "pageIndex" && key != "pageSize"
              ==> key in Cleaned(search, defaults)
  {
  }

  /** `pageIndex` is removed exactly when it is empty or equals DEFAULT_PAGE_INDEX; likewise `pageSize`. */
  lemma PageKeysDropped(search: map<string, Value>, defaults: PageDefaults)
    ensures "pageIndex" in search ==>
      ("pageIndex" !in Cleaned(search, defaults) <==>
         IsEmpty(search["pageIndex"]) || search["pageIndex"] == Num(Int(defaults.pageIndex)))
    ensures "pageSize" in search ==>
      ("pageSize" !in Cleaned(search, defaults) <==>
         IsEmpty(search["pageSize"]) || search["pageSize"] == Num(Int(defaults.pageSize)))
  {
  }

  /** `0`, `false` and `null` are meaningful filter values and are kept. */
  lemma FalsyFiltersKept(search: map<string, Value>, defaults: PageDefaults, key: string)
    requires key in search && key != "pageIndex" && key != "pageSize"
    requires search[key] in {Num(Int(0)), Bool(false), Null}
    ensures key in Cleaned(search, defaults) && Cleaned(search, defaults)[key] == search[key]
  {
  }

  /** Cleaning a cleaned search object changes nothing. */
  lemma CleanIdempotent(search: map<string, Value>, defaults: PageDefaults)
    ensures Cleaned(Cleaned(search, defaults), defaults) == Cleaned(search, defaults)
  {
    var once := Cleaned(search, defaults);
    assert Cleaned(once, defaults).Keys == once.Keys;
  }

  /** A search on the first page with the default size and blank filters publishes nothing. */
  lemma DefaultsOmitted(defaults: PageDefaults)
    ensures Cleaned(map["pageIndex" := Num(Int(defaults.pageIndex)), "pageSize" := Num(Int(defaults.pageSize)),
                        "name" := Str(""), "roles" := Arr([])], defaults) == map[]
  {
    var search := map["pageIndex" := Num(Int(defaults.pageIndex)), "pageSize" := Num(Int(defaults.pageSize)),
                      "name" := Str(""), "roles" := Arr([])];
    assert Cleaned(search, defaults).Keys == {};
  }

  /** A page index other than the default is kept. */
  lemma OtherPageKept(defaults: PageDefaults, page: int)
    requires page != defaults.pageIndex
    ensures Cleaned(map["pageIndex" := Num(Int(page))], defaults) == map["pageIndex" := Num(Int(page))]
  {
    var search := map["pageIndex" := Num(Int(page))];
    assert Cleaned(search, defaults).Keys == search.Keys;
  }
}
