/** String helpers shared by the screens: whitespace trimming (JavaScript
    `String.prototype.trim`) and the "first last" customer-name join. */
module Text {
  import opened Wrappers

  /** The white-space characters `trim` removes that this model recognises. */
  predicate IsSpace(c: char) {
    c == ' ' || c == '\t' || c == '\n' || c == '\r' || c == '\U{000B}' || c == '\U{000C}'
    || c == '\U{00A0}' || c == '\U{2028}' || c == '\U{2029}' || c == '\U{3000}' || c == '\U{FEFF}'
  }

  predicate AllSpace(s: string) {
    forall k | 0 <= k < |s| :: IsSpace(s[k])
  }

  /** Number of white-space characters at the start of `s`. */
  function LeadingSpaces(s: string): (n: nat)
    ensures n <= |s|
    ensures forall k | 0 <= k < n :: IsSpace(s[k])
    ensures n == |s| || !IsSpace(s[n])
  {
    if |s| > 0 && IsSpace(s[0]) then 1 + LeadingSpaces(s[1..]) else 0
  }

  /** Index just past the last character of `s` that is not white space (0 when there is none). */
  function ContentEnd(s: string): (n: nat)
    ensures n <= |s|
    ensures forall k | n <= k < |s| :: IsSpace(s[k])
    ensures n == 0 || !IsSpace(s[n - 1])
  {
    if |s| > 0 && IsSpace(s[|s| - 1]) then ContentEnd(s[..|s| - 1]) else |s|
  }

  /** JavaScript `s.trim()`: the slice of `s` left after cutting white space off both ends. */
  function Trim(s: string): (r: string)
    ensures r == [] <==> AllSpace(s)
    ensures r == [] || (!IsSpace(r[0]) && !IsSpace(r[|r| - 1]))
    ensures var i := LeadingSpaces(s);
      i + |r| <= |s| && r == s[i..i + |r|] && forall k | i + |r| <= k < |s| :: IsSpace(s[k])
  {
    var i := LeadingSpaces(s);
    if i == |s| then [] else s[i..ContentEnd(s)]
  }

  /** A string that neither starts nor ends with white space is its own trim. */
  lemma TrimOfTrimmed(s: string)
    requires s == [] || (!IsSpace(s[0]) && !IsSpace(s[|s| - 1]))
    ensures Trim(s) == s
  {
  }

  /** `${first ?? ''} ${last ?? ''}`.trim(), the full-name label used by the list and dashboard. */
  function JoinName(first: Option<string>, last: Option<string>): (r: string)
    ensures r == [] || (!IsSpace(r[0]) && !IsSpace(r[|r| - 1]))
    ensures |r| <= |first.GetOr("")| + 1 + |last.GetOr("")|
  {
    Trim(first.GetOr("") + " " + last.GetOr(""))
  }

  /** Two blank-free names join to exactly "first last". */
  lemma JoinNamePlain(first: string, last: string)
    requires first != [] && !IsSpace(first[0])
    requires last != [] && !IsSpace(last[|last| - 1])
    ensures JoinName(Some(first), Some(last)) == first + " " + last
  {
    var s := first + " " + last;
    assert s[0] == first[0] && s[|s| - 1] == last[|last| - 1];
    TrimOfTrimmed(s);
  }

  /** Either name part is present and non-empty (`u?.firstName || u?.lastName`). */
  predicate HasName(first: Option<string>, last: Option<string>) {
    Truthy(first) || Truthy(last)
  }

  /** The customer label the order list, the history list and the dashboard share:
      the joined name when either part is non-empty, else the e-mail when non-empty,
      else `fallback`. */
  function NameOrEmail(first: Option<string>, last: Option<string>, email: Option<string>, fallback: string): (r: string)
    ensures HasName(first, last) ==> r == JoinName(first, last)
    ensures !HasName(first, last) ==> r == TruthyOr([email], fallback)
    ensures !HasName(first, last) && fallback != "" ==> r != ""
  {
    if HasName(first, last) then JoinName(first, last)
    else if Truthy(email) then email.value
    else fallback
  }
}
