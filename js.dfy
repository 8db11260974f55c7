/**
  * The JavaScript runtime notions the application code leans on: dynamic
  * values, truthiness, property reads and the string builtins it calls
  * (`toLowerCase`, `endsWith`, `includes`, `split`, `join`).
  */
module Js {

  datatype Option<+T> = None | Some(value: T) {
    /** `x ?? default` */
    function GetOr(default: T): T {
      if Some? then value else default
    }
  }

  datatype Result<+T, +E> = Ok(value: T) | Err(error: E)

  /** The error a builtin throws, e.g. reading a property of `undefined`. */
  datatype JsError = TypeError

  /** Numbers: integers and NaN; fractions and infinities are not modelled. */
  datatype Number = NaN | Int(i: int)

  /** A JavaScript value. `isError` says whether an object is an `Error` instance. */
  datatype Value =
    | Undefined
    | Null
    | Bool(b: bool)
    | Num(n: Number)
    | Str(s: string)
    | Arr(items: seq<Value>)
    | Obj(fields: map<string, Value>, isError: bool)

  predicate IsNullish(v: Value) {
    v.Undefined? || v.Null?
  }

  /** `!!v` */
  predicate Truthy(v: Value) {
    match v
    case Undefined => false
    case Null => false
    case Bool(b) => b
    case Num(n) => n.Int? && n.i != 0
    case Str(s) => s != ""
    case Arr(_) => true
    case Obj(_, _) => true
  }

  /** `v.key` for a value that is not nullish: own fields of an object, `undefined` otherwise. */
  function Field(v: Value, key: string): (r: Value)
    ensures !v.Obj? ==> r == Undefined
    ensures v.Obj? && key !in v.fields ==> r == Undefined
  {
    if v.Obj? && key in v.fields then v.fields[key] else Undefined
  }

  /** `v.key`, which throws a TypeError when `v` is `undefined` or `null`. */
  function Prop(v: Value, key: string): (r: Result<Value, JsError>)
    ensures r.Err? <==> IsNullish(v)
    ensures r.Ok? ==> r.value == Field(v, key)
  {
    if IsNullish(v) then Err(TypeError) else Ok(Field(v, key))
  }

  // ---------------------------------------------------------------------
  // Strings (ASCII only)

  function LowerChar(c: char): char {
    if 'A' <= c <= 'Z' then (c as int + 32) as char else c
  }

  /** `s.toLowerCase()` for ASCII text. */
  function Lower(s: string): (r: string)
    ensures |r| == |s|
    ensures forall i :: 0 <= i < |s| ==> r[i] == LowerChar(s[i])
  {
    if s == [] then [] else [LowerChar(s[0])] + Lower(s[1..])
  }

  /** `s.endsWith(suffix)` */
  predicate EndsWith(s: string, suffix: string) {
    |suffix| <= |s| && s[|s| - |suffix|..] == suffix
  }

  /** `s.startsWith(prefix)` */
  predicate StartsWith(s: string, prefix: string) {
    |prefix| <= |s| && s[..|prefix|] == prefix
  }

  /** `s.includes(sub)` */
  predicate Includes(s: string, sub: string) {
    StartsWith(s, sub) || (s != [] && Includes(s[1..], sub))
  }

  /** Every string includes the empty string. */
  lemma IncludesEmpty(s: string)
    ensures Includes(s, "")
  {
  }

  /** The first position of `c` in `s`. */
  function IndexOf(s: string, c: char): (i: nat)
    requires c in s
    ensures i < |s| && s[i] == c && c !in s[..i]
  {
    if s[0] == c then 0 else 1 + IndexOf(s[1..], c)
  }

  /** `s.split(sep)` for a one-character separator. */
  function Split(s: string, sep: char): (parts: seq<string>)
    ensures |parts| >= 1
    ensures forall i :: 0 <= i < |parts| ==> sep !in parts[i]
    decreases |s|
  {
    if sep !in s then [s]
    else
      var i := IndexOf(s, sep);
      [s[..i]] + Split(s[i + 1..], sep)
  }

  /** `parts.join(sep)` */
  function Join(parts: seq<string>, sep: string): string {
    if parts == [] then ""
    else if |parts| == 1 then parts[0]
    else parts[0] + sep + Join(parts[1..], sep)
  }

  lemma JoinCons(x: string, rest: seq<string>, sep: string)
    requires rest != []
    ensures Join([x] + rest, sep) == x + sep + Join(rest, sep)
  {
    assert ([x] + rest)[1..] == rest;
  }

  /** Splitting and joining again gives back the original string. */
  lemma {:induction false} SplitJoin(s: string, sep: char)
    ensures Join(Split(s, sep), [sep]) == s
    decreases |s|
  {
    if sep in s {
      var i := IndexOf(s, sep);
      var rest := s[i + 1..];
      SplitJoin(rest, sep);
      JoinCons(s[..i], Split(rest, sep), [sep]);
      assert s == s[..i] + [sep] + rest;
    }
  }

  /** The first separator of `a + sep + b` is the one after `a` when `a` holds none. */
  lemma {:induction false} IndexOfAfter(a: string, c: char, b: string)
    requires c !in a
    ensures c in a + [c] + b && IndexOf(a + [c] + b, c) == |a|
  {
    var s := a + [c] + b;
    assert s[|a|] == c;
    if a != [] {
      assert s[1..] == a[1..] + [c] + b;
      IndexOfAfter(a[1..], c, b);
    }
  }

  /** Splitting `a + sep + b`, where `a` holds no separator, peels `a` off. */
  lemma SplitCons(a: string, sep: char, b: string)
    requires sep !in a
    ensures Split(a + [sep] + b, sep) == [a] + Split(b, sep)
  {
    var s := a + [sep] + b;
    IndexOfAfter(a, sep, b);
    assert s[..|a|] == a;
    assert s[|a| + 1..] == b;
  }

  /** Splitting `a.b.c` gives `a` and `b` first, whatever `c` holds. */
  lemma SplitFirstTwo(a: string, b: string, c: string, sep: char)
    requires sep !in a && sep !in b
    ensures var parts := Split(a + [sep] + b + [sep] + c, sep);
      |parts| > 1 && parts[0] == a && parts[1] == b
  {
    var s := a + [sep] + b + [sep] + c;
    assert s == a + [sep] + (b + [sep] + c);
    SplitCons(a, sep, b + [sep] + c);
    SplitCons(b, sep, c);
  }

  /** Decimal digits of a natural number, as `String(n)` prints it. */
  function NatToString(n: nat): (r: string)
    ensures |r| >= 1
    ensures forall i :: 0 <= i < |r| ==> '0' <= r[i] <= '9'
  {
    if n < 10 then [DigitChar(n)] else NatToString(n / 10) + [DigitChar(n % 10)]
  }

  function DigitChar(d: nat): (c: char)
    requires d < 10
    ensures '0' <= c <= '9'
  {
    (48 + d) as char
  }

  // ---------------------------------------------------------------------
  // Sequences

  /** An array of strings as a JavaScript value's items. */
  function Strs(xs: seq<string>): (r: seq<Value>)
    ensures |r| == |xs| && forall i :: 0 <= i < |xs| ==> r[i] == Str(xs[i])
  {
    seq(|xs|, i requires 0 <= i < |xs| => Str(xs[i]))
  }

  /** The elements of a sequence, without repetition. */
  predicate NoDup<T(==)>(s: seq<T>) {
    forall i, j :: 0 <= i < j < |s| ==> s[i] != s[j]
  }

  function Elements<T(==)>(s: seq<T>): set<T> {
    set x | x in s
  }

  // ---------------------------------------------------------------------
  // `Set` with insertion order, as `Array.from(set)` lists it

  /** `Array.from(new Set(xs))`: first occurrences, in order. */
  function SetOf<T(==, !new)>(xs: seq<T>): (r: seq<T>)
    ensures NoDup(r)
    ensures forall x :: x in r <==> x in xs
    ensures |r| <= |xs|
  {
    if xs == [] then []
    else
      var init := SetOf(xs[..|xs| - 1]);
      var last := xs[|xs| - 1];
      assert xs == xs[..|xs| - 1] + [last];
      if last in init then init else init + [last]
  }

  /** `set.delete(v)`, keeping the order of the others. */
  function Delete<T(==, !new)>(xs: seq<T>, v: T): (r: seq<T>)
    ensures forall x :: x in r <==> x in xs && x != v
    ensures NoDup(xs) ==> NoDup(r)
  {
    if xs == [] then []
    else if xs[0] == v then Delete(xs[1..], v)
    else
      var rest := Delete(xs[1..], v);
      if NoDup(xs) then
        assert xs[0] !in xs[1..] by {
          assert forall k :: 0 <= k < |xs[1..]| ==> xs[1..][k] == xs[k + 1] != xs[0];
        }
        NoDupCons(xs[0], rest);
        [xs[0]] + rest
      else
        [xs[0]] + rest
  }

  lemma NoDupCons<T>(x: T, rest: seq<T>)
    requires x !in rest && NoDup(rest)
    ensures NoDup([x] + rest)
  {
    var s := [x] + rest;
    forall i, j | 0 <= i < j < |s|
      ensures s[i] != s[j]
    {
      assert s[j] == rest[j - 1];
      if i > 0 {
        assert s[i] == rest[i - 1];
      }
    }
  }

  /** `set.has(v) ? set.delete(v) : set.add(v)` on `new Set(xs)`. */
  function Toggle<T(==, !new)>(xs: seq<T>, v: T): (r: seq<T>)
    ensures NoDup(r)
    ensures forall x :: x in r <==> (x in xs <==> x != v)
  {
    var present := SetOf(xs);
    if v in present then Delete(present, v) else present + [v]
  }

  /** Toggling the same value twice gives back the same set of values. */
  lemma ToggleTwice<T(!new)>(xs: seq<T>, v: T)
    ensures Elements(Toggle(Toggle(xs, v), v)) == Elements(xs)
  {
    var once := Toggle(xs, v);
    var twice := Toggle(once, v);
    forall x
      ensures x in Elements(twice) <==> x in Elements(xs)
    {
      assert x in twice <==> (x in once <==> x != v);
    }
  }

  /** Adding a value that was absent puts it last and leaves the order of the others. */
  lemma ToggleAppends<T(!new)>(xs: seq<T>, v: T)
    requires NoDup(xs) && v !in xs
    ensures Toggle(xs, v) == xs + [v]
  {
    SetOfNoDup(xs);
  }

  lemma {:induction false} SetOfNoDup<T(!new)>(xs: seq<T>)
    requires NoDup(xs)
    ensures SetOf(xs) == xs
  {
    if xs != [] {
      var init := xs[..|xs| - 1];
      assert NoDup(init);
      SetOfNoDup(init);
      assert xs[|xs| - 1] !in init;
      assert xs == init + [xs[|xs| - 1]];
    }
  }
}
