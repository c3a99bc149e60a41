/** JavaScript value semantics that the web client relies on: fields that may
    be undefined, and the truthiness rules behind `a || b`.

    In JavaScript `""`, `0`, `false`, `null` and `undefined` are falsy, so
    `a || b` falls through to `b` for them; an array is always truthy, even
    when empty, so `list || fallback` keeps an empty list. */
module Js {

  /** A field that may be undefined (or null) in a JavaScript object. */
  datatype Option<+T> = None | Some(value: T)

  /** `!!s` for an optional string: defined and not empty. */
  predicate Truthy(s: Option<string>) {
    s.Some? && s.value != ""
  }

  /** `a || fallback` where `a` is an optional string. */
  function OrStr(a: Option<string>, fallback: string): string {
    if Truthy(a) then a.value else fallback
  }

  /** `a || fallback` where `a` is an optional array: any array is truthy. */
  function OrList<T>(a: Option<seq<T>>, fallback: seq<T>): seq<T> {
    if a.Some? then a.value else fallback
  }

  /** `a || fallback` where `a` is an optional number: 0 is falsy. */
  function OrNum(a: Option<int>, fallback: int): int {
    if a.Some? && a.value != 0 then a.value else fallback
  }

  /** `a || b` where both are optional numbers (the result may stay undefined). */
  function OrNumOpt(a: Option<int>, b: Option<int>): Option<int> {
    if a.Some? && a.value != 0 then a else b
  }

  /** `a || fallback` where `a` is an optional boolean. */
  function OrBool(a: Option<bool>, fallback: bool): bool {
    if a.Some? && a.value then true else fallback
  }

  /** `!x` for an optional number: undefined and 0 are falsy. */
  predicate NumFalsy(a: Option<int>) {
    a.None? || a.value == 0
  }

  /** The first defined, non-empty string among `cs`, or "" when there is
      none: the value of `cs[0] || cs[1] || ... || ""`. */
  function FirstTruthy(cs: seq<Option<string>>): (r: string)
    ensures r == "" <==> forall i :: 0 <= i < |cs| ==> !Truthy(cs[i])
  {
    if cs == [] then ""
    else if Truthy(cs[0]) then cs[0].value
    else FirstTruthy(cs[1..])
  }

  /** `FirstTruthy` picks the candidate that comes first among the truthy ones. */
  lemma {:induction false} FirstTruthyPicksFirst(cs: seq<Option<string>>, i: nat)
    requires i < |cs| && Truthy(cs[i])
    requires forall j :: 0 <= j < i ==> !Truthy(cs[j])
    ensures FirstTruthy(cs) == cs[i].value
  {
    if i > 0 {
      FirstTruthyPicksFirst(cs[1..], i - 1);
    }
  }

  lemma FirstTruthyOfOne(a: Option<string>)
    ensures FirstTruthy([a]) == OrStr(a, "")
  {
    assert [a][1..] == [];
  }

  lemma FirstTruthyOfTwo(a: Option<string>, b: Option<string>)
    ensures FirstTruthy([a, b]) == OrStr(a, OrStr(b, ""))
  {
    assert [a, b][1..] == [b];
    assert [b][1..] == [];
  }

  lemma FirstTruthyOfThree(a: Option<string>, b: Option<string>, c: Option<string>)
    ensures FirstTruthy([a, b, c]) == OrStr(a, OrStr(b, OrStr(c, "")))
  {
    assert [a, b, c][1..] == [b, c];
    FirstTruthyOfTwo(b, c);
  }
}
