/**
 * The few JavaScript value rules the source leans on, stated once:
 * truthiness of an optional string, `a || b`, `a ?? b` and template interpolation
 * of a value that may be `undefined`.
 */
module Js {
  import opened Wrappers

  /** A string is truthy when it is present and not empty. */
  predicate Truthy(s: Option<string>) {
    s.Some? && s.value != ""
  }

  /** `a || b` on optional strings: `a` when truthy, otherwise `b` whatever `b` is. */
  function Or(a: Option<string>, b: Option<string>): (r: Option<string>)
  {
    if Truthy(a) then a else b
  }

  /** `a || d` where the fallback `d` is a literal string. */
  function OrElse(a: Option<string>, d: string): (r: string)
  {
    if Truthy(a) then a.value else d
  }

  /** `a ?? b`: only an absent `a` falls through; an empty string does not. */
  function Nullish<T>(a: Option<T>, b: Option<T>): (r: Option<T>)
  {
    if a.Some? then a else b
  }

  /** `${a}` in a template string: an absent value prints as "undefined". */
  function Interp(a: Option<string>): (r: string)
  {
    match a
    case Some(v) => v
    case None => "undefined"
  }

  /**
   * `c0 || c1 || ... || cn`: the first truthy candidate, or the last candidate
   * when none is truthy (JavaScript's `||` yields its last operand then).
   */
  function FirstTruthy(cands: seq<Option<string>>): (r: Option<string>)
    requires |cands| > 0
  {
    if |cands| == 1 || Truthy(cands[0]) then cands[0] else FirstTruthy(cands[1..])
  }

  /** FirstTruthy picks the candidate at the least truthy index. */
  lemma {:induction false} FirstTruthyPicksLeastTruthy(cands: seq<Option<string>>, i: nat)
    requires i < |cands| && Truthy(cands[i])
    requires forall j :: 0 <= j < i ==> !Truthy(cands[j])
    ensures FirstTruthy(cands) == cands[i]
  {
    if i > 0 {
      FirstTruthyPicksLeastTruthy(cands[1..], i - 1);
    }
  }

  /** With no truthy candidate the chain yields its last operand. */
  lemma {:induction false} FirstTruthyNoneTruthy(cands: seq<Option<string>>)
    requires |cands| > 0
    requires forall j :: 0 <= j < |cands| ==> !Truthy(cands[j])
    ensures FirstTruthy(cands) == cands[|cands| - 1]
  {
    if |cands| > 1 {
      FirstTruthyNoneTruthy(cands[1..]);
    }
  }
}
