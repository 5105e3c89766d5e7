/** Python's string helpers, as far as the model needs them. */
module Strings {

  function Join(sep: string, parts: seq<string>): string {
    if parts == [] then ""
    else if |parts| == 1 then parts[0]
    else parts[0] + sep + Join(sep, parts[1..])
  }

  predicate IsSpace(c: char) {
    c == ' ' || c == '\n' || c == '\t' || c == '\r'
  }

  predicate IsBlank(s: string) {
    forall i | 0 <= i < |s| :: IsSpace(s[i])
  }

  predicate Trimmed(s: string) {
    s == "" || (!IsSpace(s[0]) && !IsSpace(s[|s| - 1]))
  }

  function Strip(s: string): (r: string)
    ensures Trimmed(r)
    ensures Trimmed(s) ==> r == s
  {
    if s == "" then s
    else if IsSpace(s[0]) then Strip(s[1..])
    else if IsSpace(s[|s| - 1]) then Strip(s[..|s| - 1])
    else s
  }

  /** What is left of a text once blank ones are dropped and the others stripped. */
  predicate IsPart(s: string) {
    s != "" && Trimmed(s)
  }

  predicate AllParts(parts: seq<string>) {
    forall i | 0 <= i < |parts| :: IsPart(parts[i])
  }

  lemma {:induction false} JoinIsPart(sep: string, parts: seq<string>)
    requires AllParts(parts) && parts != []
    ensures IsPart(Join(sep, parts))
  {
    if |parts| > 1 {
      JoinIsPart(sep, parts[1..]);
      var rest := Join(sep, parts[1..]);
      var all := Join(sep, parts);
      assert all == parts[0] + sep + rest;
      assert all[0] == parts[0][0] && all[|all| - 1] == rest[|rest| - 1];
    }
  }

  lemma BlankConcat(a: string, b: string)
    requires IsBlank(a) && IsBlank(b)
    ensures IsBlank(a + b)
  {
  }

  /** Stripping takes white space off both ends, and nothing else. */
  lemma {:induction false} StripTakesBlanks(s: string) returns (before: string, after: string)
    ensures s == before + Strip(s) + after && IsBlank(before) && IsBlank(after)
    decreases |s|
  {
    before, after := "", "";
    if s == "" {
      return;
    } else if IsSpace(s[0]) {
      before, after := StripTakesBlanks(s[1..]);
      BlankConcat([s[0]], before);
      assert s == [s[0]] + s[1..];
      before := [s[0]] + before;
    } else if IsSpace(s[|s| - 1]) {
      var last := s[|s| - 1..];
      before, after := StripTakesBlanks(s[..|s| - 1]);
      BlankConcat(after, last);
      assert s == s[..|s| - 1] + last;
      after := after + last;
    }
  }
}
