/**
  * `debounced-select.tsx`: a single- or multi-select whose value is a
  * string or an array of strings. Options are either loaded (shown as
  * returned) or static (filtered by a case-insensitive substring search).
  */
module DebouncedSelect {
  import opened Js

  /** `{ label, value }`; the label is the field `text`. */
  datatype SelectOption = SelectOption(text: string, value: string)

  /** The component's `value` state: `string | Array<string>`. */
  datatype Selection = One(s: string) | Many(items: seq<string>)

  /** `new Set(Array.isArray(value) ? value : value ? [value] : [])` */
  function SelectedValues(value: Selection): (r: seq<string>)
    ensures NoDup(r)
    ensures value.Many? ==> forall x :: x in r <==> x in value.items
    ensures value.One? && value.s == "" ==> r == []
    ensures value.One? && value.s != "" ==> r == [value.s]
  {
    match value
    case Many(items) => SetOf(items)
    case One(s) => if s != "" then [s] else []
  }

  /** `o.label.toLowerCase().includes(search.toLowerCase())` */
  predicate Matches(o: SelectOption, search: string) {
    Includes(Lower(o.text), Lower(search))
  }

  /** `options.filter(o => Matches(o, search))` */
  function FilterStatic(options: seq<SelectOption>, search: string): (r: seq<SelectOption>)
    ensures forall o :: o in r <==> o in options && Matches(o, search)
    ensures |r| <= |options|
  {
    if options == [] then []
    else if Matches(options[0], search) then [options[0]] + FilterStatic(options[1..], search)
    else FilterStatic(options[1..], search)
  }

  /** `filteredOptions`: loaded options as they are, otherwise the static ones that match. */
  function FilteredOptions(loaded: Option<seq<SelectOption>>, options: seq<SelectOption>, search: string): (r: seq<SelectOption>)
    ensures loaded.Some? ==> r == loaded.value
    ensures loaded.None? ==> forall o :: o in r <==> o in options && Matches(o, search)
  {
    if loaded.Some? then loaded.value else FilterStatic(options, search)
  }

  /** Filtering keeps the original order: it distributes over concatenation. */
  lemma {:induction false} FilterConcat(a: seq<SelectOption>, b: seq<SelectOption>, search: string)
    ensures FilterStatic(a + b, search) == FilterStatic(a, search) + FilterStatic(b, search)
  {
    if a == [] {
      assert a + b == b;
    } else {
      var ab := a + b;
      var tail := a[1..];
      assert ab[0] == a[0] && ab[1..] == tail + b;
      FilterConcat(tail, b, search);
      var restAB := FilterStatic(tail + b, search);
      var restA := FilterStatic(tail, search);
      var fb := FilterStatic(b, search);
      assert restAB == restA + fb;
      if Matches(a[0], search) {
        calc {
          FilterStatic(ab, search);
          [a[0]] + restAB;
          [a[0]] + (restA + fb);
          ([a[0]] + restA) + fb;
          FilterStatic(a, search) + fb;
        }
      } else {
        calc {
          FilterStatic(ab, search);
          restAB;
          restA + fb;
          FilterStatic(a, search) + fb;
        }
      }
    }
  }

  /** An empty search keeps every static option. */
  lemma {:induction false} EmptySearchKeepsAll(options: seq<SelectOption>)
    ensures FilterStatic(options, "") == options
  {
    if options != [] {
      IncludesEmpty(Lower(options[0].text));
      EmptySearchKeepsAll(options[1..]);
    }
  }

  /** The search ignores letter case. */
  lemma SearchIgnoresCase(o: SelectOption, search: string)
    ensures Matches(o, search) <==> Matches(o, Lower(search))
  {
    LowerIdempotent(search);
  }

  lemma LowerIdempotent(s: string)
    ensures Lower(Lower(s)) == Lower(s)
  {
  }

  /** `options.find(o => o.value === v)` */
  function Find(options: seq<SelectOption>, v: string): (r: Option<SelectOption>)
    ensures r.None? <==> forall i :: 0 <= i < |options| ==> options[i].value != v
    ensures r.Some? ==> r.value in options && r.value.value == v
  {
    if options == [] then None
    else if options[0].value == v then Some(options[0])
    else Find(options[1..], v)
  }

  /** Every label in `labels` is the label of one of `options` whose value is selected. */
  ghost predicate LabelsOfSelected(labels: seq<string>, options: seq<SelectOption>, selected: seq<string>) {
    forall i :: 0 <= i < |labels| ==> exists o :: o in options && o.value in selected && o.text == labels[i]
  }

  /** Every option of `options` whose value is selected has its label in `labels`. */
  ghost predicate SelectedLabelled(options: seq<SelectOption>, selected: seq<string>, labels: seq<string>) {
    forall o :: o in options && o.value in selected ==> o.text in labels
  }

  /** `filteredOptions.filter(o => selectedValues.has(o.value)).map(o => o.label)` */
  function SelectedLabels(options: seq<SelectOption>, selected: seq<string>): (r: seq<string>)
    ensures |r| <= |options|
    ensures LabelsOfSelected(r, options, selected)
    ensures SelectedLabelled(options, selected, r)
  {
    if options == [] then []
    else
      var rest := SelectedLabels(options[1..], selected);
      var r := if options[0].value in selected then [options[0].text] + rest else rest;
      LabelsCons(options, selected, rest, r);
      r
  }

  /** One step of `SelectedLabels`: the head option's label, when selected, goes in front of the tail's labels. */
  lemma LabelsCons(options: seq<SelectOption>, selected: seq<string>, rest: seq<string>, r: seq<string>)
    requires options != []
    requires LabelsOfSelected(rest, options[1..], selected)
    requires SelectedLabelled(options[1..], selected, rest)
    requires r == if options[0].value in selected then [options[0].text] + rest else rest
    ensures LabelsOfSelected(r, options, selected)
    ensures SelectedLabelled(options, selected, r)
  {
    var head := options[0];
    assert forall o :: o in options[1..] ==> o in options;
    forall o | o in options && o.value in selected
      ensures o.text in r
    {
      if o != head {
        assert o in options[1..];
      }
    }
    forall i | 0 <= i < |r|
      ensures exists o :: o in options && o.value in selected && o.text == r[i]
    {
      if head.value in selected {
        if i == 0 {
          assert head in options;
        } else {
          assert r[i] == rest[i - 1];
          var o :| o in options[1..] && o.value in selected && o.text == rest[i - 1];
          assert o in options;
        }
      } else {
        var o :| o in options[1..] && o.value in selected && o.text == rest[i];
        assert o in options;
      }
    }
  }

  /** The labels keep the order of the displayed options: the map distributes over concatenation. */
  lemma {:induction false} SelectedLabelsConcat(a: seq<SelectOption>, b: seq<SelectOption>, selected: seq<string>)
    ensures SelectedLabels(a + b, selected) == SelectedLabels(a, selected) + SelectedLabels(b, selected)
  {
    if a == [] {
      assert a + b == b;
    } else {
      var ab := a + b;
      var tail := a[1..];
      assert ab[0] == a[0] && ab[1..] == tail + b;
      SelectedLabelsConcat(tail, b, selected);
      var restAB := SelectedLabels(tail + b, selected);
      var restA := SelectedLabels(tail, selected);
      var lb := SelectedLabels(b, selected);
      assert restAB == restA + lb;
      if a[0].value in selected {
        calc {
          SelectedLabels(ab, selected);
          [a[0].text] + restAB;
          [a[0].text] + (restA + lb);
          ([a[0].text] + restA) + lb;
          SelectedLabels(a, selected) + lb;
        }
      } else {
        calc {
          SelectedLabels(ab, selected);
          restAB;
          restA + lb;
          SelectedLabels(a, selected) + lb;
        }
      }
    }
  }

  /**
    * The trigger text; `None` is the `undefined` of a failed `find`, which
    * renders nothing.
    */
  function TriggerLabel(value: Selection, multiple: bool, filtered: seq<SelectOption>, placeholder: string): (r: Option<string>)
    ensures SelectedValues(value) == [] ==> r == Some(placeholder)
    ensures SelectedValues(value) != [] && multiple && |SelectedValues(value)| > 2 ==>
      r == Some(NatToString(|SelectedValues(value)|) + " selected")
    ensures SelectedValues(value) != [] && multiple && |SelectedValues(value)| <= 2 ==>
      r == Some(Join(SelectedLabels(filtered, SelectedValues(value)), ", "))
    ensures SelectedValues(value) != [] && !multiple ==>
      (r.Some? <==> value.One? && Find(filtered, value.s).Some?)
  {
    var selected := SelectedValues(value);
    if |selected| > 0 then
      if multiple then
        if |selected| > 2 then Some(NatToString(|selected|) + " selected")
        else Some(Join(SelectedLabels(filtered, selected), ", "))
      else
        match value
        case One(s) => (match Find(filtered, s) case Some(o) => Some(o.text) case None => None)
        case Many(_) => None
    else Some(placeholder)
  }

  /**
    * Two selected values shown as two displayed options read as both
    * labels, in the options' order, joined by ", ".
    */
  lemma TwoSelectedShowsBoth(first: SelectOption, second: SelectOption, placeholder: string)
    requires first.value != second.value
    ensures TriggerLabel(Many([first.value, second.value]), true, [first, second], placeholder)
         == Some(first.text + ", " + second.text)
  {
    var values := [first.value, second.value];
    assert NoDup(values);
    SetOfNoDup(values);
    assert SelectedLabels([first, second], values) == [first.text, second.text] by {
      assert [first, second][1..] == [second];
    }
    assert Join([first.text, second.text], ", ") == first.text + ", " + second.text by {
      assert [first.text, second.text][1..] == [second.text];
    }
  }

  /** A single selection shows the label of the first displayed option with that value. */
  lemma SingleShowsLabel(s: string, filtered: seq<SelectOption>, placeholder: string, i: nat)
    requires s != "" && i < |filtered| && filtered[i].value == s
    requires forall j :: 0 <= j < i ==> filtered[j].value != s
    ensures TriggerLabel(One(s), false, filtered, placeholder) == Some(filtered[i].text)
  {
    FindFirst(filtered, s, i);
  }

  lemma {:induction false} FindFirst(options: seq<SelectOption>, v: string, i: nat)
    requires i < |options| && options[i].value == v
    requires forall j :: 0 <= j < i ==> options[j].value != v
    ensures Find(options, v) == Some(options[i])
  {
    if i > 0 {
      FindFirst(options[1..], v, i - 1);
    }
  }

  /** Three distinct selected values in multiple mode read "3 selected", whatever is displayed. */
  lemma ThreeSelected(a: string, b: string, c: string, filtered: seq<SelectOption>, placeholder: string)
    requires a != b && b != c && a != c
    ensures TriggerLabel(Many([a, b, c]), true, filtered, placeholder) == Some("3 selected")
  {
    var sel := SelectedValues(Many([a, b, c]));
    assert a in sel && b in sel && c in sel;
    assert |sel| > 2 by {
      if |sel| <= 2 {
        PigeonTwo(sel, a, b, c);
      }
    }
    assert |sel| == 3;
    assert DigitChar(3) == '3';
    assert NatToString(3) == "3";
    assert NatToString(3) + " selected" == "3 selected";
  }

  /** Three distinct values do not fit in a duplicate-free sequence of two. */
  lemma PigeonTwo(s: seq<string>, a: string, b: string, c: string)
    requires NoDup(s) && |s| <= 2 && a in s && b in s && c in s
    ensures a == b || b == c || a == c
  {
  }

  /** The component's `value` state and the handlers that set it. */
  class SelectState {
    var value: Selection
    const multiple: bool

    constructor (initialValue: Selection, multiple: bool)
      ensures value == initialValue && this.multiple == multiple
    {
      value := initialValue;
      this.multiple := multiple;
    }

    /**
      * `toggleValue(val)`: in multiple mode, copy the selected set and flip
      * `val`'s membership; in single mode, clear when `val` is the current
      * value and select `val` otherwise.
      */
    method ToggleValue(val: string)
      modifies this
      ensures multiple ==> value == Many(Toggle(SelectedValues(old(value)), val))
      ensures !multiple ==> value == One(if old(value) == One(val) then "" else val)
    {
      if multiple {
        var newSet := SelectedValues(value);
        SetOfNoDup(newSet);
        if val in newSet {
          newSet := Delete(newSet, val);
        } else {
          newSet := newSet + [val];
        }
        value := Many(newSet);
      } else {
        value := One(if value == One(val) then "" else val);
      }
    }

    /** "Clear selections" */
    method Clear()
      modifies this
      ensures value == Many([]) && SelectedValues(value) == []
    {
      value := Many([]);
    }
  }

  /** In multiple mode a toggle flips the membership of that one value. */
  lemma MultipleToggleFlipsOne(value: Selection, val: string)
    ensures forall x :: x in SelectedValues(Many(Toggle(SelectedValues(value), val))) <==>
      (x in SelectedValues(value) <==> x != val)
  {
  }

  /** Toggling the same value twice in multiple mode restores the selected set. */
  lemma MultipleToggleTwice(value: Selection, val: string)
    ensures Elements(SelectedValues(Many(Toggle(SelectedValues(Many(Toggle(SelectedValues(value), val))), val))))
         == Elements(SelectedValues(value))
  {
    var once := Toggle(SelectedValues(value), val);
    SetOfNoDup(once);
    var twice := Toggle(once, val);
    SetOfNoDup(twice);
    ToggleTwice(SelectedValues(value), val);
  }
}
