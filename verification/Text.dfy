/** White space as Go's unicode.IsSpace and strings.TrimSpace see it, and texts within and between texts. */
module Text {

  predicate IsSpace(c: char) {
    || c == ' ' || c == '\t' || c == '\n' || c == '\r' || c == '\U{0B}' || c == '\U{0C}'
    || c == '\U{85}' || c == '\U{A0}' || c == '\U{1680}' || '\U{2000}' <= c <= '\U{200A}'
    || c == '\U{2028}' || c == '\U{2029}' || c == '\U{202F}' || c == '\U{205F}' || c == '\U{3000}'
  }

  predicate IsBlank(s: string) { forall c | c in s :: IsSpace(c) }

  function TrimSpace(s: string): string {
    if s == "" then ""
    else if IsSpace(s[0]) then TrimSpace(s[1..])
    else if IsSpace(s[|s| - 1]) then TrimSpace(s[..|s| - 1])
    else s
  }

  lemma {:induction false} BlankIff(s: string)
    ensures TrimSpace(s) == "" <==> IsBlank(s)
  {
    if s != "" {
      if IsSpace(s[0]) {
        BlankIff(s[1..]);
        assert s == [s[0]] + s[1..];
      } else if IsSpace(s[|s| - 1]) {
        BlankIff(s[..|s| - 1]);
        assert s == s[..|s| - 1] + [s[|s| - 1]];
      }
    }
  }

  predicate OccursAt(part: string, text: string, i: nat) {
    i + |part| <= |text| && text[i..i + |part|] == part
  }

  /** strings.Join. */
  function Join(sep: string, parts: seq<string>): string {
    if parts == [] then "" else
    if |parts| == 1 then parts[0] else Join(sep, parts[..|parts| - 1]) + sep + parts[|parts| - 1]
  }

  predicate Occurs(part: string, text: string) {
    exists i | 0 <= i <= |text| :: OccursAt(part, text, i)
  }

  lemma {:induction false} OccursWithin(part: string, a: string, b: string, c: string)
    requires Occurs(part, b)
    ensures Occurs(part, a + b + c)
  {
    var i: nat :| i <= |b| && OccursAt(part, b, i);
    assert (a + b + c)[|a| + i..|a| + i + |part|] == b[i..i + |part|];
    assert OccursAt(part, a + b + c, |a| + i);
  }

  lemma {:induction false} JoinHolds(sep: string, parts: seq<string>, k: nat)
    requires k < |parts|
    ensures Occurs(parts[k], Join(sep, parts))
  {
    var last := parts[|parts| - 1];
    assert OccursAt(last, last, 0);
    if |parts| > 1 {
      var head := parts[..|parts| - 1];
      if k < |head| {
        JoinHolds(sep, head, k);
        OccursWithin(parts[k], "", Join(sep, head), sep + last);
        assert "" + Join(sep, head) + (sep + last) == Join(sep, parts);
      } else {
        OccursWithin(last, Join(sep, head) + sep, last, "");
        assert Join(sep, head) + sep + last + "" == Join(sep, parts);
      }
    }
  }
}
