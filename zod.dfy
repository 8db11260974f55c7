/**
  * The few zod checks the form schemas use, each producing the issues it
  * reports: a failing check yields one issue at its field's path with its
  * message; an object schema reports its fields' issues in declaration order.
  */
module Zod {
  import opened Js

  /** A custom message given in the schema, or zod's own wording. */
  datatype Message = Text(text: string) | Builtin

  /** A validation issue: where (field, then array index) and what to show. */
  datatype Issue = Issue(path: seq<string>, message: Message)

  /** `z.enum(options, { message })` */
  datatype ZodEnum = ZodEnum(options: seq<string>, message: Message)

  /**
    * One refinement: no issue when `ok`, otherwise one issue at `path`.
    * This is zod's primitive and its contract is definitional; what the
    * schemas built from it accept is stated by each form's `IssuesEmptyIff`.
    */
  function Check(ok: bool, path: seq<string>, message: Message): (r: seq<Issue>)
    ensures r == [] <==> ok
    ensures !ok ==> r == [Issue(path, message)]
  {
    if ok then [] else [Issue(path, message)]
  }

  /** Parsing one value with an enum schema. */
  function EnumIssues(e: ZodEnum, path: seq<string>, v: string): (r: seq<Issue>)
    ensures r == [] <==> v in e.options
    ensures r != [] ==> r == [Issue(path, e.message)]
  {
    Check(v in e.options, path, e.message)
  }

  /** `z.array(e)`: every element is parsed, each failure reported at its index. */
  function ItemIssues(e: ZodEnum, path: seq<string>, items: seq<string>): (r: seq<Issue>)
    ensures r == [] <==> forall i :: 0 <= i < |items| ==> items[i] in e.options
    ensures |r| <= |items|
    ensures forall k :: 0 <= k < |r| ==> r[k].message == e.message
  {
    if items == [] then []
    else
      var last := |items| - 1;
      ItemIssues(e, path, items[..last]) + EnumIssues(e, path + [NatToString(last)], items[last])
  }

  /** The issues are all empty exactly when each part is. */
  lemma NoIssues2(a: seq<Issue>, b: seq<Issue>)
    ensures a + b == [] <==> a == [] && b == []
  {
    if a != [] {
      assert (a + b)[0] == a[0];
    }
  }
}
