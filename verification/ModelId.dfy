/** Model ids: parsing, comparing, and choosing among them (pkg/workflow/builtin/bedrock/autoupdate.go). */
module ModelId {
  import opened JoinedKeys
  import opened Text
  import opened Wrappers

  // ---- text

  /** strings.Index: where part first occurs. */
  function Find(text: string, part: string): (r: Option<nat>)
    ensures r.Some? ==> OccursAt(part, text, r.value) && forall j: nat | j < r.value :: !OccursAt(part, text, j)
    ensures r.None? ==> forall j: nat :: !OccursAt(part, text, j)
  {
    if |text| < |part| then None
    else if text[..|part|] == part then
      assert OccursAt(part, text, 0);
      Some(0)
    else
      var rest := Find(text[1..], part);
      assert forall j: nat | OccursAt(part, text, j) :: j > 0 && OccursAt(part, text[1..], j - 1);
      if rest.Some? then
        assert text[1 + rest.value..1 + rest.value + |part|] == text[1..][rest.value..rest.value + |part|];
        Some(rest.value + 1)
      else None
  }

  predicate IsDigit(c: char) { '0' <= c <= '9' }

  predicate Digits(s: string) { s != "" && forall c | c in s :: IsDigit(c) }

  predicate Letters(s: string) { s != "" && forall c | c in s :: 'a' <= c <= 'z' }

  function DigitValue(c: char): nat
    requires IsDigit(c)
    ensures DigitValue(c) <= 9
  {
    c as int - '0' as int
  }

  function Value(s: string): nat
    requires Digits(s) && |s| <= 2
    ensures Value(s) <= 99
  {
    assert IsDigit(s[0]) && IsDigit(s[|s| - 1]);
    if |s| == 1 then DigitValue(s[0]) else 10 * DigitValue(s[0]) + DigitValue(s[1])
  }

  /** The pieces of s between hyphens. */
  function Split(s: string): (r: seq<string>)
    ensures |r| >= 1
  {
    if s == "" then [""] else
    var parts, c := Split(s[..|s| - 1]), s[|s| - 1];
    if c == '-' then parts + [""] else parts[|parts| - 1 := parts[|parts| - 1] + [c]]
  }

  predicate NoHyphen(s: string) { '-' !in s }

  lemma {:induction false} SplitLast(a: string, b: string)
    requires NoHyphen(b)
    ensures Split(a + "-" + b) == Split(a) + [b]
  {
    var s := a + "-" + b;
    if b == "" {
      assert s[..|s| - 1] == a;
    } else {
      var b' := b[..|b| - 1];
      assert s[..|s| - 1] == a + "-" + b';
      SplitLast(a, b');
      assert b == b' + [b[|b| - 1]] && b[|b| - 1] in b;
    }
  }

  lemma {:induction false} SplitOne(s: string)
    requires NoHyphen(s)
    ensures Split(s) == [s]
  {
    if s != "" {
      assert s[|s| - 1] in s;
      SplitOne(s[..|s| - 1]);
      assert s == s[..|s| - 1] + [s[|s| - 1]];
    }
  }

  // ---- the id grammar

  datatype Parsed = Parsed(prefix: string, family: string, major: nat, minor: nat)
  {
    /** Version order as one number. */
    function Rank(): nat { 100 * major + minor }

    predicate NewerThan(o: Parsed) {
      if major != o.major then major > o.major else minor > o.minor
    }
  }

  const PROVIDER := "anthropic."

  /** "-v1" or "-v1:0", the whole of s. */
  predicate VersionTag(s: string) {
    && "-v" <= s
    && (Digits(s[2..]) || exists k | 3 <= k < |s| - 1 :: s[k] == ':' && Digits(s[2..k]) && Digits(s[k + 1..]))
  }

  /** "-20" and six digits. */
  predicate DateTag(s: string) {
    |s| == 9 && "-20" <= s && Digits(s[3..])
  }

  /** Removes the part of s from the first place where a version tag runs to the end. */
  function StripVersion(s: string, from: nat): string
    requires from <= |s|
    decreases |s| - from
  {
    if from == |s| then s
    else if VersionTag(s[from..]) then s[..from]
    else StripVersion(s, from + 1)
  }

  function StripDate(s: string): string {
    if |s| >= 9 && DateTag(s[|s| - 9..]) then s[..|s| - 9] else s
  }

  predicate Number(s: string) { Digits(s) && |s| <= 2 }

  /** claude-<letters>-<major>[-<minor>]. */
  function ParseVersion(prefix: string, rest: string): Option<Parsed> {
    var parts := Split(rest);
    if (|parts| == 3 || |parts| == 4) && parts[0] == "claude" && Letters(parts[1]) && Number(parts[2])
       && (|parts| == 4 ==> Number(parts[3]))
    then Some(Parsed(prefix, "claude-" + parts[1], Value(parts[2]), if |parts| == 4 then Value(parts[3]) else 0))
    else None
  }

  function Parse(id: string): Option<Parsed> {
    match Find(id, PROVIDER)
    case None => None
    case Some(i) =>
      var prefix, rest := id[..i], id[i + |PROVIDER|..];
      if i == 0 || (prefix[i - 1] == '.' && Count('.', prefix) == 1)
      then ParseVersion(prefix, StripDate(StripVersion(rest, 0)))
      else None
  }

  lemma {:induction false} RankIsOrder(a: Parsed, b: Parsed)
    requires a.minor <= 99 && b.minor <= 99
    ensures a.NewerThan(b) <==> a.Rank() > b.Rank()
  {
  }

  lemma {:induction false} ParseBounds(id: string)
    ensures Parse(id).Some? ==> Parse(id).value.major <= 99 && Parse(id).value.minor <= 99
  {
  }

  // ---- round trip

  /** The parts of an id in the modern naming. p is the geo prefix without its dot. */
  datatype Spelling = Spelling(geo: Option<string>, letters: string, major: string, minor: Option<string>, date: Option<string>, tag: string)
  {
    predicate Fits() {
      && (geo.Some? ==> '.' !in geo.value)
      && Letters(letters) && Number(major) && (minor.Some? ==> Number(minor.value))
      && (date.Some? ==> Digits(date.value) && |date.value| == 6)
      && (tag == "" || VersionTag(tag))
    }

    function Prefix(): string { if geo.Some? then geo.value + "." else "" }

    function Release(): string {
      "claude" + "-" + letters + "-" + major + if minor.Some? then "-" + minor.value else ""
    }

    function Dated(): string { Release() + if date.Some? then "-20" + date.value else "" }

    function Id(): string { Prefix() + PROVIDER + Dated() + tag }

    function Meaning(): Parsed
      requires Fits()
    {
      Parsed(Prefix(), "claude-" + letters, Value(major), if minor.Some? then Value(minor.value) else 0)
    }
  }

  lemma {:induction false} SplitRelease(letters: string, major: string, minor: Option<string>)
    requires NoHyphen(letters) && NoHyphen(major) && (minor.Some? ==> NoHyphen(minor.value))
    ensures Split("claude" + "-" + letters + "-" + major + if minor.Some? then "-" + minor.value else "") ==
            ["claude", letters, major] + if minor.Some? then [minor.value] else []
  {
    SplitOne("claude");
    SplitLast("claude", letters);
    var short := "claude" + "-" + letters + "-" + major;
    SplitLast("claude" + "-" + letters, major);
    if minor.Some? {
      SplitLast(short, minor.value);
      assert short + ("-" + minor.value) == short + "-" + minor.value;
    } else {
      assert short + "" == short;
    }
  }

  lemma {:induction false} ReleaseParses(s: Spelling)
    requires s.Fits()
    ensures ParseVersion(s.Prefix(), s.Release()) == Some(s.Meaning())
  {
    SplitRelease(s.letters, s.major, s.minor);
    assert s.Release() == "claude" + "-" + s.letters + "-" + s.major + if s.minor.Some? then "-" + s.minor.value else "";
  }

  /** Everything after a tag's hyphen is v, digits or a colon. */
  lemma {:induction false} TagChars(t: string, k: nat)
    requires VersionTag(t) && 0 < k < |t|
    ensures t[k] == 'v' || t[k] == ':' || IsDigit(t[k])
  {
    if k >= 2 {
      if Digits(t[2..]) {
        assert t[2..][k - 2] in t[2..];
      } else {
        var j :| 3 <= j < |t| - 1 && t[j] == ':' && Digits(t[2..j]) && Digits(t[j + 1..]);
        if k < j {
          assert t[2..j][k - 2] in t[2..j];
        } else if k > j {
          assert t[j + 1..][k - j - 1] in t[j + 1..];
        }
      }
    }
  }

  lemma {:induction false} NotTag(t: string, k: nat)
    requires 0 < k < |t| && t[k] == '-'
    ensures !VersionTag(t)
  {
    if VersionTag(t) {
      TagChars(t, k);
    }
  }

  /** The last hyphen of s is where a tag at its end must begin. */
  lemma {:induction false} StripTag(s: string, tag: string, from: nat)
    requires from <= |s| && VersionTag(tag)
    ensures StripVersion(s + tag, from) == s
    decreases |s| - from
  {
    var all := s + tag;
    if from == |s| {
      assert all[from..] == tag && all[..from] == s;
    } else {
      assert all[from..][|s| - from] == '-';
      NotTag(all[from..], |s| - from);
      StripTag(s, tag, from + 1);
    }
  }

  /** A text that ends with a hyphen and digits has no tag to strip. */
  lemma {:induction false} StripNothing(s: string, k: nat, from: nat)
    requires from <= |s| && k + 1 < |s| && s[k] == '-' && Digits(s[k + 1..])
    ensures StripVersion(s, from) == s
    decreases |s| - from
  {
    if from < |s| {
      if from < k {
        NotTag(s[from..], k - from);
      } else if from == k {
        assert s[k + 1..][0] in s[k + 1..] && s[from..][1] == s[k + 1];
      } else {
        assert s[k + 1..][from - k - 1] in s[k + 1..] && s[from..][0] == s[from];
      }
      StripNothing(s, k, from + 1);
    }
  }

  lemma {:induction false} EndsInDigits(s: Spelling)
    requires s.Fits()
    ensures var d := s.Dated(); exists k: nat :: k + 1 < |d| && d[k] == '-' && Digits(d[k + 1..])
  {
    var d := s.Dated();
    if s.date.Some? {
      var k := |s.Release()|;
      assert d[k + 1..] == "20" + s.date.value;
      assert d[k] == '-';
    } else if s.minor.Some? {
      var k := |d| - |s.minor.value| - 1;
      assert d[k + 1..] == s.minor.value && d[k] == '-';
    } else {
      var k := |d| - |s.major| - 1;
      assert d[k + 1..] == s.major && d[k] == '-';
    }
  }

  lemma {:induction false} DateStripped(s: Spelling)
    requires s.Fits()
    ensures StripDate(s.Dated()) == s.Release()
  {
    var d := s.Dated();
    if s.date.Some? {
      assert d[|d| - 9..] == "-20" + s.date.value;
      assert (("-20" + s.date.value))[3..] == s.date.value;
      assert d[..|d| - 9] == s.Release();
    } else if |d| >= 9 {
      var last := if s.minor.Some? then s.minor.value else s.major;
      NotDate(d[|d| - 9..], 8 - |last|);
    }
  }

  lemma {:induction false} NotDate(t: string, k: nat)
    requires |t| == 9 && 3 <= k < 9 && t[k] == '-'
    ensures !DateTag(t)
  {
    assert t[3..][k - 3] == '-' && '-' in t[3..];
  }

  predicate EndsWithAnthropic(p: string) {
    |p| >= 9 && p[|p| - 9..] == "anthropic"
  }

  /** The provider's name ends in its only dot. */
  lemma {:induction false} DotOfProvider(id: string, f: nat)
    requires OccursAt(PROVIDER, id, f)
    ensures id[f + 9] == '.' && forall j | f <= j < f + 9 :: id[j] != '.'
  {
    assert forall j | 0 <= j < 10 :: id[f + j] == id[f..f + 10][j] == PROVIDER[j];
  }

  lemma {:induction false} ShapeOfId(s: Spelling)
    requires s.Fits()
    ensures OccursAt(PROVIDER, s.Id(), |s.Prefix()|)
    ensures s.geo.Some? ==> |s.Id()| > |s.geo.value| + 10 && s.Id()[|s.geo.value|] == '.' && s.Id()[..|s.geo.value|] == s.geo.value
  {
    var id, p := s.Id(), |s.Prefix()|;
    assert id == s.Prefix() + PROVIDER + (s.Dated() + s.tag);
    assert id[p..p + 10] == PROVIDER;
  }

  /** Where the provider name is found: at the end of the prefix, unless the prefix ends with it. */
  lemma {:induction false} ProviderAt(s: Spelling)
    requires s.Fits()
    ensures s.geo.Some? && EndsWithAnthropic(s.geo.value) ==> Find(s.Id(), PROVIDER) == Some(|s.geo.value| - 9)
    ensures !(s.geo.Some? && EndsWithAnthropic(s.geo.value)) ==> Find(s.Id(), PROVIDER) == Some(|s.Prefix()|)
  {
    ShapeOfId(s);
    var id := s.Id();
    if s.geo.Some? {
      FirstProvider(id, s.geo.value);
    }
  }

  lemma {:induction false} FirstProvider(id: string, geo: string)
    requires |id| > |geo| && id[..|geo|] == geo && id[|geo|] == '.' && '.' !in geo && OccursAt(PROVIDER, id, |geo| + 1)
    ensures Find(id, PROVIDER) == Some(if EndsWithAnthropic(geo) then |geo| - 9 else |geo| + 1)
  {
    forall f: nat | f <= |geo| && OccursAt(PROVIDER, id, f) ensures EndsWithAnthropic(geo) && f == |geo| - 9 {
      DotInPrefix(id, geo, f);
    }
    if EndsWithAnthropic(geo) {
      NameInPrefix(id, geo);
      FindIsFirst(id, PROVIDER, |geo| - 9);
    } else {
      FindIsFirst(id, PROVIDER, |geo| + 1);
    }
  }

  lemma {:induction false} FindIsFirst(text: string, part: string, i: nat)
    requires OccursAt(part, text, i) && forall j: nat | j < i :: !OccursAt(part, text, j)
    ensures Find(text, part) == Some(i)
  {
    var f := Find(text, part);
    assert f.Some? && !(f.value < i) && !(i < f.value);
  }

  lemma {:induction false} NameInPrefix(id: string, geo: string)
    requires |id| > |geo| && id[..|geo|] == geo && id[|geo|] == '.' && EndsWithAnthropic(geo)
    ensures OccursAt(PROVIDER, id, |geo| - 9)
  {
    assert id[|geo| - 9..|geo| + 1] == geo[|geo| - 9..] + ".";
  }

  lemma {:induction false} DotInPrefix(id: string, geo: string, f: nat)
    requires |id| > |geo| && id[..|geo|] == geo && id[|geo|] == '.' && '.' !in geo
    requires OccursAt(PROVIDER, id, f) && f <= |geo|
    ensures EndsWithAnthropic(geo) && f == |geo| - 9
  {
    DotOfProvider(id, f);
    assert forall j | 0 <= j < |geo| :: id[j] == geo[j] && geo[j] in geo;
    assert f + 9 == |geo|;
    assert geo[f..] == id[f..f + 9] == id[f..f + 10][..9];
  }

  lemma {:induction false} OneDot(p: string)
    requires '.' !in p
    ensures Count('.', p + ".") == 1
  {
    CountZeroIff('.', p);
    assert (p + ".")[..|p|] == p;
  }

  lemma {:induction false} BodyParses(s: Spelling)
    requires s.Fits()
    ensures ParseVersion(s.Prefix(), StripDate(StripVersion(s.Dated() + s.tag, 0))) == Some(s.Meaning())
  {
    if s.tag == "" {
      EndsInDigits(s);
      var d := s.Dated();
      var k: nat :| k + 1 < |d| && d[k] == '-' && Digits(d[k + 1..]);
      StripNothing(d, k, 0);
      assert d + s.tag == d;
    } else {
      StripTag(s.Dated(), s.tag, 0);
    }
    DateStripped(s);
    ReleaseParses(s);
  }

  /** An id in the modern naming parses back to its prefix, family and version, whatever its date and
      version tag, exactly when its geo prefix does not itself end with the provider's name. */
  lemma {:induction false} ParseRoundTrip(s: Spelling)
    requires s.Fits()
    ensures Parse(s.Id()) == Some(s.Meaning()) <==> !(s.geo.Some? && EndsWithAnthropic(s.geo.value))
  {
    ProviderAt(s);
    if s.geo.Some? && EndsWithAnthropic(s.geo.value) {
      HiddenProviderFails(s);
    } else {
      PlainParses(s);
    }
  }

  lemma {:induction false} PlainParses(s: Spelling)
    requires s.Fits() && Find(s.Id(), PROVIDER) == Some(|s.Prefix()|)
    ensures Parse(s.Id()) == Some(s.Meaning())
  {
    BodyParses(s);
    PrefixFits(s);
    ParseAt(s.Id(), |s.Prefix()|, s.Prefix(), s.Dated() + s.tag);
  }

  lemma {:induction false} ThreeParts(a: string, b: string, c: string)
    ensures (a + b + c)[..|a|] == a && (a + b + c)[|a| + |b|..] == c
  {
  }

  lemma {:induction false} PrefixFits(s: Spelling)
    requires s.Fits()
    ensures s.Id()[..|s.Prefix()|] == s.Prefix() && s.Id()[|s.Prefix()| + 10..] == s.Dated() + s.tag
    ensures s.Prefix() == "" || (s.Prefix()[|s.Prefix()| - 1] == '.' && Count('.', s.Prefix()) == 1)
  {
    assert s.Id() == s.Prefix() + PROVIDER + (s.Dated() + s.tag);
    ThreeParts(s.Prefix(), PROVIDER, s.Dated() + s.tag);
    if s.geo.Some? {
      OneDot(s.geo.value);
    }
  }

  lemma {:induction false} ParseAt(id: string, i: nat, prefix: string, body: string)
    requires Find(id, PROVIDER) == Some(i) && id[..i] == prefix && id[i + 10..] == body
    requires i == 0 || (prefix[i - 1] == '.' && Count('.', prefix) == 1)
    ensures Parse(id) == ParseVersion(prefix, StripDate(StripVersion(body, 0)))
  {
  }

  lemma {:induction false} HiddenProviderFails(s: Spelling)
    requires s.Fits() && s.geo.Some? && EndsWithAnthropic(s.geo.value)
    ensures Parse(s.Id()) != Some(s.Meaning())
  {
    ProviderAt(s);
    ShapeOfId(s);
    HiddenIn(s.Id(), s.geo.value);
    assert s.Meaning().prefix == s.geo.value + ".";
  }

  lemma {:induction false} HiddenIn(id: string, geo: string)
    requires |id| > |geo| && id[..|geo|] == geo && EndsWithAnthropic(geo) && '.' !in geo
    requires Find(id, PROVIDER) == Some(|geo| - 9)
    ensures Parse(id).Some? ==> Parse(id).value.prefix == ""
  {
    var i := |geo| - 9;
    ParsedPrefix(id, i);
    if i > 0 {
      assert id[i - 1] == geo[i - 1] && geo[i - 1] in geo;
    }
  }

  lemma {:induction false} ParsedPrefix(id: string, i: nat)
    requires Find(id, PROVIDER) == Some(i)
    ensures Parse(id).Some? ==> Parse(id).value.prefix == id[..i] && (i == 0 || id[i - 1] == '.')
  {
  }

  // ---- comparing and choosing

  type Parser = string -> Option<Parsed>

  function ParseId(): Parser { (id: string) => Parse(id) }

  predicate SameBy(parse: Parser, a: string, b: string) {
    if parse(a).None? || parse(b).None? then a == b else parse(a) == parse(b)
  }

  predicate SameModel(a: string, b: string) { SameBy(ParseId(), a, b) }

  lemma {:induction false} SameModelIsEquivalence(a: string, b: string, c: string)
    ensures SameModel(a, a)
    ensures SameModel(a, b) ==> SameModel(b, a)
    ensures SameModel(a, b) && SameModel(b, c) ==> SameModel(a, c)
  {
  }

  /** Bare and dated spellings of one release are the same model. */
  lemma {:induction false} SpellingsOfOneRelease(a: Spelling, b: Spelling)
    requires a.Fits() && b.Fits() && a.Meaning() == b.Meaning()
    requires !(a.geo.Some? && EndsWithAnthropic(a.geo.value)) && !(b.geo.Some? && EndsWithAnthropic(b.geo.value))
    ensures SameModel(a.Id(), b.Id())
  {
    ParseRoundTrip(a);
    ParseRoundTrip(b);
  }

  predicate Eligible(parse: Parser, id: string, current: Parsed) {
    parse(id).Some? && parse(id).value.prefix == current.prefix && parse(id).value.family == current.family
  }

  predicate Upgrade(parse: Parser, id: string, current: Parsed) {
    Eligible(parse, id, current) && parse(id).value.NewerThan(current)
  }

  /** r is a greatest upgrade among ids, or None when there is none. */
  predicate LatestBy(parse: Parser, ids: seq<string>, current: Parsed, r: Option<string>) {
    match r
    case None => forall id | id in ids :: !Upgrade(parse, id, current)
    case Some(best) =>
      && best in ids && Upgrade(parse, best, current)
      && forall id | id in ids && Eligible(parse, id, current) :: !parse(id).value.NewerThan(parse(best).value)
  }

  method LatestFor(parse: Parser, ids: seq<string>, current: Parsed) returns (r: Option<string>)
    ensures LatestBy(parse, ids, current, r)
  {
    var best := current;
    r := None;
    for i := 0 to |ids|
      invariant LatestBy(parse, ids[..i], current, r)
      invariant best == if r.Some? then parse(r.value).value else current
    {
      var p := parse(ids[i]);
      assert ids[..i + 1] == ids[..i] + [ids[i]];
      if p.Some? && p.value.prefix == current.prefix && p.value.family == current.family && p.value.NewerThan(best) {
        r, best := Some(ids[i]), p.value;
      }
    }
    assert ids[..|ids|] == ids;
  }

  predicate Latest(ids: seq<string>, current: Parsed, r: Option<string>) {
    LatestBy(ParseId(), ids, current, r)
  }

  method LatestCandidate(ids: seq<string>, current: Parsed) returns (r: Option<string>)
    ensures Latest(ids, current, r)
  {
    r := LatestFor(ParseId(), ids, current);
  }

  lemma {:induction false} LatestByIgnoresOrder(parse: Parser, ids: seq<string>, ids': seq<string>, current: Parsed, r: Option<string>, r': Option<string>)
    requires LatestBy(parse, ids, current, r) && LatestBy(parse, ids', current, r')
    requires forall id :: id in ids <==> id in ids'
    ensures r.Some? <==> r'.Some?
    ensures r.Some? ==> parse(r.value).Some? && parse(r.value) == parse(r'.value)
  {
    if r.Some? && r'.Some? {
      assert Eligible(parse, r.value, current) && Eligible(parse, r'.value, current);
    }
  }

  /** Lists with the same members give the same release. */
  lemma {:induction false} LatestIgnoresOrder(ids: seq<string>, ids': seq<string>, current: Parsed, r: Option<string>, r': Option<string>)
    requires Latest(ids, current, r) && Latest(ids', current, r')
    requires forall id :: id in ids <==> id in ids'
    ensures r.Some? <==> r'.Some?
    ensures r.Some? ==> SameModel(r.value, r'.value)
  {
    LatestByIgnoresOrder(ParseId(), ids, ids', current, r, r');
  }
}
