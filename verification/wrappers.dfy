/** Optional values and the two JavaScript fallback operators the application
    leans on everywhere: `a ?? b` (first value that is present) and, for
    strings, `a || b` (first value that is present and non-empty). */
module Wrappers {

  /** A field of a loosely-typed server payload: absent (null/undefined) or present. */
  datatype Option<+T> = None | Some(value: T) {

    /** The encapsulated value, or `default` when absent (JavaScript `x ?? default`). */
    function GetOr(default: T): T {
      match this
      case Some(v) => v
      case None => default
    }

    /** This value when present, otherwise `other` (JavaScript `x ?? other`). */
    function Or(other: Option<T>): Option<T> {
      match this
      case Some(_) => this
      case None => other
    }
  }

  /** Reference definition of a `??` chain: the first present candidate. */
  function FirstSome<T>(xs: seq<Option<T>>): (r: Option<T>)
    ensures r.None? <==> forall i | 0 <= i < |xs| :: xs[i].None?
    ensures r.Some? ==> exists i | 0 <= i < |xs| :: xs[i] == r && forall j | 0 <= j < i :: xs[j].None?
  {
    if |xs| == 0 then None
    else if xs[0].Some? then xs[0]
    else
      var r := FirstSome(xs[1..]);
      assert forall i | 1 <= i < |xs| :: xs[i] == xs[1..][i - 1];
      r
  }

  /** A `??` chain unfolds one candidate at a time. */
  lemma FirstSomeCons<T>(xs: seq<Option<T>>)
    requires |xs| > 0
    ensures FirstSome(xs) == xs[0].Or(FirstSome(xs[1..]))
  {
  }

  /** JavaScript truthiness of an optional string: present and non-empty. */
  predicate Truthy(s: Option<string>) {
    s.Some? && s.value != ""
  }

  /** JavaScript `a || b` on two optional strings: `a` when truthy, else `b` as it is. */
  function OrElse(a: Option<string>, b: Option<string>): (r: Option<string>)
    ensures Truthy(a) ==> r == a
    ensures !Truthy(a) ==> r == b
  {
    if Truthy(a) then a else b
  }

  /** Reference definition of a `||` chain on strings: the first truthy candidate. */
  function FirstTruthy(xs: seq<Option<string>>): (r: Option<string>)
    ensures r.None? <==> forall i | 0 <= i < |xs| :: !Truthy(xs[i])
    ensures r.Some? ==> r.value != ""
    ensures r.Some? ==> exists i | 0 <= i < |xs| :: xs[i] == r && forall j | 0 <= j < i :: !Truthy(xs[j])
  {
    if |xs| == 0 then None
    else if Truthy(xs[0]) then xs[0]
    else
      var r := FirstTruthy(xs[1..]);
      assert forall i | 1 <= i < |xs| :: xs[i] == xs[1..][i - 1];
      r
  }

  /** A two-candidate `||` chain, case by case. */
  lemma TruthyOrPair(a: Option<string>, b: Option<string>, default: string)
    ensures TruthyOr([a, b], default) == if Truthy(a) then a.value else if Truthy(b) then b.value else default
  {
    var xs := [a, b];
    assert xs[1..] == [b] && [b][1..] == [];
    assert !Truthy(a) ==> FirstTruthy(xs) == FirstTruthy([b]);
  }

  /** A two-candidate `||` chain with no default, case by case. */
  lemma FirstTruthyPair(a: Option<string>, b: Option<string>)
    ensures FirstTruthy([a, b]) == if Truthy(a) then a else if Truthy(b) then b else None
  {
    var xs := [a, b];
    assert xs[1..] == [b] && [b][1..] == [];
  }

  /** A `||` chain ending in a literal default: the first truthy candidate, else `default`. */
  function TruthyOr(xs: seq<Option<string>>, default: string): (r: string)
    ensures (forall i | 0 <= i < |xs| :: !Truthy(xs[i])) ==> r == default
    ensures (exists i | 0 <= i < |xs| :: Truthy(xs[i])) ==> r == FirstTruthy(xs).value
    ensures default != "" ==> r != ""
  {
    FirstTruthy(xs).GetOr(default)
  }
}
