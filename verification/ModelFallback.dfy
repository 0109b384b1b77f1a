/** The Bedrock node's two model fields (pkg/workflow/builtin/bedrock/factory.go), and what the updater
    may make of them (autoupdate.go). */
module ModelFallback {
  import opened Wrappers
  import opened ModelId

  // ---- the node's models

  /** lastKnownGood is "" when there is none. */
  datatype Models = Models(model: string, lastKnownGood: string)
  {
    predicate FallbackDiffers() { lastKnownGood != "" ==> lastKnownGood != model }

    /** The fallback is another spelling of the release in use. */
    predicate FallbackIsSameRelease(parse: Parser) { lastKnownGood != "" && SameBy(parse, lastKnownGood, model) }
  }

  function Swapped(s: Models, m: string): Models {
    Models(m, if s.model != m then s.model else s.lastKnownGood)
  }

  function Recovered(s: Models, m: string): Models {
    Models(m, if s.lastKnownGood == m then "" else s.lastKnownGood)
  }

  /** A call of one of the two setters. */
  datatype Change = Swap(to: string) | Recovery(to: string)

  function Changed(s: Models, c: Change): Models {
    if c.Swap? then Swapped(s, c.to) else Recovered(s, c.to)
  }

  /** After these calls, from a configured model and no fallback. */
  function After(configured: string, cs: seq<Change>): Models {
    if cs == [] then Models(configured, "") else Changed(After(configured, cs[..|cs| - 1]), cs[|cs| - 1])
  }

  class BedrockLLM {
    var model: string
    var lastKnownGood: string

    function State(): Models
      reads this
    {
      Models(model, lastKnownGood)
    }

    constructor (configured: string)
      ensures State() == After(configured, [])
    {
      model, lastKnownGood := configured, "";
    }

    method SwapModel(m: string)
      modifies this
      ensures State() == Changed(old(State()), Swap(m))
      ensures old(State().FallbackDiffers()) ==> State().FallbackDiffers()
    {
      if model != m {
        lastKnownGood := model;
      }
      model := m;
    }

    method RecoverModel(m: string)
      modifies this
      ensures State() == Changed(old(State()), Recovery(m))
      ensures State().FallbackDiffers()
      ensures old(State().FallbackDiffers()) && lastKnownGood != "" ==> lastKnownGood != old(model)
    {
      if lastKnownGood == m {
        lastKnownGood := "";
      }
      model := m;
    }
  }

  /** Call k is an upgrade away from the model in use. */
  predicate Displaces(configured: string, cs: seq<Change>, k: nat)
    requires k < |cs|
  {
    cs[k].Swap? && After(configured, cs[..k]).model != cs[k].to
  }

  /** The model in use before call k has been in use again since. */
  predicate Returned(configured: string, cs: seq<Change>, k: nat)
    requires k < |cs|
  {
    exists j | k < j <= |cs| :: After(configured, cs[..j]).model == After(configured, cs[..k]).model
  }

  predicate LastDisplacing(configured: string, cs: seq<Change>, k: nat)
    requires k < |cs|
  {
    Displaces(configured, cs, k) && forall j | k < j < |cs| :: !Displaces(configured, cs, j)
  }

  lemma {:induction false} NeverItself(configured: string, cs: seq<Change>)
    ensures After(configured, cs).FallbackDiffers()
  {
    if cs != [] {
      NeverItself(configured, cs[..|cs| - 1]);
    }
  }

  lemma {:induction false} NoUpgradeNoFallback(configured: string, cs: seq<Change>)
    requires forall k | 0 <= k < |cs| :: !Displaces(configured, cs, k)
    ensures After(configured, cs).lastKnownGood == ""
  {
    if cs != [] {
      var head := cs[..|cs| - 1];
      forall k | 0 <= k < |head| ensures !Displaces(configured, head, k) {
        assert !Displaces(configured, cs, k) && cs[..k] == head[..k];
      }
      NoUpgradeNoFallback(configured, head);
      assert !Displaces(configured, cs, |cs| - 1);
    }
  }

  lemma {:induction false} LastUpgradeDecides(configured: string, cs: seq<Change>, k: nat)
    requires k < |cs| && LastDisplacing(configured, cs, k)
    ensures After(configured, cs).lastKnownGood == if Returned(configured, cs, k) then "" else After(configured, cs[..k]).model
  {
    var n := |cs| - 1;
    var head := cs[..n];
    assert cs[..|cs|] == cs;
    if k < n {
      assert cs[..k] == head[..k];
      forall j | k < j < n ensures !Displaces(configured, head, j) {
        assert !Displaces(configured, cs, j) && cs[..j] == head[..j];
      }
      LastUpgradeDecides(configured, head, k);
      assert !Displaces(configured, cs, n);
      LaterReturn(configured, cs, k);
      UpToNow(configured, head, k);
    } else {
      assert !Returned(configured, cs, k);
    }
  }

  lemma {:induction false} UpToNow(configured: string, cs: seq<Change>, k: nat)
    requires k < |cs|
    ensures After(configured, cs).model == After(configured, cs[..k]).model ==> Returned(configured, cs, k)
  {
    assert cs[..|cs|] == cs;
  }

  lemma {:induction false} LaterReturn(configured: string, cs: seq<Change>, k: nat)
    requires k < |cs| - 1
    ensures var head, displaced := cs[..|cs| - 1], After(configured, cs[..k]).model;
            Returned(configured, cs, k) <==> Returned(configured, head, k) || After(configured, cs).model == displaced
  {
    var n := |cs| - 1;
    assert cs[..|cs|] == cs;
    assert forall j | 0 <= j <= n :: cs[..j] == cs[..n][..j];
    if Returned(configured, cs[..n], k) {
      var j :| k < j <= n && After(configured, cs[..n][..j]).model == After(configured, cs[..n][..k]).model;
      assert After(configured, cs[..j]).model == After(configured, cs[..k]).model;
    }
  }

  /** Over all sequences of calls the fallback is the model displaced by the last upgrade, unless that
      has been in use again since; without an upgrade there is none; and it is never the model in use. */
  lemma {:induction false} FallbackIsLastDisplaced(configured: string, cs: seq<Change>)
    ensures After(configured, cs).FallbackDiffers()
    ensures forall k | 0 <= k < |cs| && LastDisplacing(configured, cs, k) ::
              After(configured, cs).lastKnownGood == if Returned(configured, cs, k) then "" else After(configured, cs[..k]).model
    ensures (forall k | 0 <= k < |cs| :: !Displaces(configured, cs, k)) ==> After(configured, cs).lastKnownGood == ""
  {
    NeverItself(configured, cs);
    forall k | 0 <= k < |cs| && LastDisplacing(configured, cs, k)
      ensures After(configured, cs).lastKnownGood == if Returned(configured, cs, k) then "" else After(configured, cs[..k]).model
    {
      LastUpgradeDecides(configured, cs, k);
    }
    if forall k | 0 <= k < |cs| :: !Displaces(configured, cs, k) {
      NoUpgradeNoFallback(configured, cs);
    }
  }

  const DATED := Spelling(Some("us"), "opus", "4", Some("1"), Some("250805"), "")
  const BARE := Spelling(Some("us"), "opus", "4", Some("1"), None, "")
  const NEWER := Spelling(Some("us"), "opus", "4", Some("5"), None, "")

  lemma {:induction false} SpellingsFit()
    ensures DATED.Fits() && BARE.Fits() && NEWER.Fits()
    ensures DATED.Meaning() == BARE.Meaning() != NEWER.Meaning()
  {
    assert Digits("4") && Digits("1") && Digits("5") && Digits("250805");
    assert Value("1") == 1 && Value("5") == 5;
  }

  lemma {:induction false} DatedIsNotBare()
    ensures DATED.Id() != BARE.Id()
  {
    assert |DATED.Id()| == |BARE.Id()| + 9;
  }

  // ---- what the updater may do

  /** A probe of a model: passed, failed in a way that indicts the model, or failed otherwise. */
  datatype Probe = Passed | Indicted | Faulted

  predicate SameFamily(parse: Parser, a: string, b: string) {
    parse(a).Some? && parse(b).Some? && parse(a).value.family == parse(b).value.family
  }

  /** b is strictly newer than a, with a's prefix and family. */
  predicate Newer(parse: Parser, a: string, b: string) {
    && SameFamily(parse, a, b) && parse(a).value.prefix == parse(b).value.prefix
    && parse(b).value.NewerThan(parse(a).value)
  }

  /** What may replace a: another release of its family; without a gateway only a newer one. */
  predicate MayFollow(parse: Parser, gateway: bool, a: string, b: string) {
    SameFamily(parse, a, b) && !SameBy(parse, b, a) && (!gateway ==> Newer(parse, a, b))
  }

  /** Each call goes to a model that may follow the one in use. */
  predicate Legal(parse: Parser, gateway: bool, configured: string, cs: seq<Change>) {
    cs == [] ||
    var head := cs[..|cs| - 1];
    Legal(parse, gateway, configured, head) && MayFollow(parse, gateway, After(configured, head).model, cs[|cs| - 1].to)
  }

  lemma {:induction false} OneMore(parse: Parser, gateway: bool, configured: string, cs: seq<Change>, c: Change)
    requires Legal(parse, gateway, configured, cs) && MayFollow(parse, gateway, After(configured, cs).model, c.to)
    ensures Legal(parse, gateway, configured, cs + [c])
    ensures After(configured, cs + [c]) == Changed(After(configured, cs), c)
  {
    assert (cs + [c])[..|cs|] == cs;
  }

  /** The fallback is an older release than the model in use. */
  ghost predicate FallbackOlder(parse: Parser, s: Models) {
    s.lastKnownGood != "" ==> Newer(parse, s.lastKnownGood, s.model)
  }

  /** Without a gateway it always is, over every sequence of legal calls. */
  lemma {:induction false} FallbackStaysOlder(parse: Parser, configured: string, cs: seq<Change>)
    requires Legal(parse, false, configured, cs)
    ensures FallbackOlder(parse, After(configured, cs))
  {
    if cs != [] {
      FallbackStaysOlder(parse, configured, cs[..|cs| - 1]);
    }
  }

  /** An upgrade, then a recovery to the older release under its bare name. */
  const BACK_AGAIN: seq<Change> := [Swap(NEWER.Id()), Recovery(BARE.Id())]

  /** The fallback offered for a failing request is then the failing release itself. */
  lemma {:induction false} RecoveredToItsOwnFallback()
    ensures Legal(ParseId(), true, DATED.Id(), BACK_AGAIN)
    ensures After(DATED.Id(), BACK_AGAIN).FallbackIsSameRelease(ParseId())
  {
    SpellingsFit();
    ParseRoundTrip(DATED);
    ParseRoundTrip(BARE);
    ParseRoundTrip(NEWER);
    DatedIsNotBare();
    OwnFallback(ParseId(), DATED.Id(), BARE.Id(), NEWER.Id());
  }

  lemma {:induction false} OwnFallback(parse: Parser, dated: string, bare: string, newer: string)
    requires parse(dated).Some? && parse(dated) == parse(bare) && parse(newer).Some? && parse(newer) != parse(dated)
    requires parse(newer).value.family == parse(dated).value.family
    requires dated != bare && dated != ""
    ensures var cs := [Swap(newer), Recovery(bare)];
            && Legal(parse, true, dated, cs)
            && After(dated, cs) == Models(bare, dated) && SameBy(parse, dated, bare)
  {
    OneMore(parse, true, dated, [], Swap(newer));
    OneMore(parse, true, dated, [Swap(newer)], Recovery(bare));
    assert [] + [Swap(newer)] == [Swap(newer)];
    assert [Swap(newer)] + [Recovery(bare)] == [Swap(newer), Recovery(bare)];
  }

  /** Over all legal calls the fallback is never the release in use. */
  ghost predicate AlwaysAnotherRelease(parse: Parser, gateway: bool) {
    forall configured, cs | Legal(parse, gateway, configured, cs) :: !After(configured, cs).FallbackIsSameRelease(parse)
  }

  lemma {:induction false} OlderIsAnother(parse: Parser)
    ensures AlwaysAnotherRelease(parse, false)
  {
    forall configured, cs | Legal(parse, false, configured, cs)
      ensures !After(configured, cs).FallbackIsSameRelease(parse)
    {
      FallbackStaysOlder(parse, configured, cs);
    }
  }

  lemma {:induction false} OwnReleaseBreaks(parse: Parser, configured: string, cs: seq<Change>)
    requires Legal(parse, true, configured, cs) && After(configured, cs).FallbackIsSameRelease(parse)
    ensures !AlwaysAnotherRelease(parse, true)
  {
  }

  /** That holds exactly when no gateway may name an older release: with one, a recovery may return to
      the fallback's release under another spelling, which the comparison of spellings misses. */
  lemma {:induction false} FallbackReleaseIff(gateway: bool)
    ensures AlwaysAnotherRelease(ParseId(), gateway) <==> !gateway
  {
    RecoveredToItsOwnFallback();
    OwnReleaseBreaks(ParseId(), DATED.Id(), BACK_AGAIN);
    OlderIsAnother(ParseId());
  }

  // ---- probes and calls together

  datatype Happening = Probed(model: string, outcome: Probe) | Called(change: Change)

  function Calls(h: seq<Happening>): seq<Change> {
    if h == [] then [] else
    var last := h[|h| - 1];
    Calls(h[..|h| - 1]) + if last.Called? then [last.change] else []
  }

  function LastProbe(h: seq<Happening>, m: string): Option<Probe> {
    if h == [] then None else
    var last := h[|h| - 1];
    if last.Probed? && last.model == m then Some(last.outcome) else LastProbe(h[..|h| - 1], m)
  }

  /** What the updater may do next: probe the model in use or one that may follow it; promote a model
      that may follow and passed its last probe, by an upgrade only if the last probe of the model in
      use, if any, did not indict it. */
  predicate MayHappen(parse: Parser, gateway: bool, configured: string, h: seq<Happening>, next: Happening) {
    var s := After(configured, Calls(h));
    match next
    case Probed(m, _) => m == s.model || MayFollow(parse, gateway, s.model, m)
    case Called(c) =>
      && MayFollow(parse, gateway, s.model, c.to) && LastProbe(h, c.to) == Some(Passed)
      && (c.Swap? ==> LastProbe(h, s.model) != Some(Indicted))
  }

  predicate Possible(parse: Parser, gateway: bool, configured: string, h: seq<Happening>) {
    h == [] ||
    (Possible(parse, gateway, configured, h[..|h| - 1]) && MayHappen(parse, gateway, configured, h[..|h| - 1], h[|h| - 1]))
  }

  lemma {:induction false} OneMoreHappening(parse: Parser, gateway: bool, configured: string, h: seq<Happening>, next: Happening)
    requires Possible(parse, gateway, configured, h) && MayHappen(parse, gateway, configured, h, next)
    ensures Possible(parse, gateway, configured, h + [next])
    ensures Calls(h + [next]) == Calls(h) + if next.Called? then [next.change] else []
    ensures After(configured, Calls(h + [next])) ==
            if next.Called? then Changed(After(configured, Calls(h)), next.change) else After(configured, Calls(h))
    ensures forall m :: LastProbe(h + [next], m) == if next.Probed? && next.model == m then Some(next.outcome) else LastProbe(h, m)
  {
    assert (h + [next])[..|h|] == h;
    if next.Called? {
      assert (Calls(h) + [next.change])[..|Calls(h)|] == Calls(h);
    } else {
      assert Calls(h) + [] == Calls(h);
    }
  }

  lemma {:induction false} PossibleIsLegal(parse: Parser, gateway: bool, configured: string, h: seq<Happening>)
    requires Possible(parse, gateway, configured, h)
    ensures Legal(parse, gateway, configured, Calls(h))
  {
    if h != [] {
      var head, last := h[..|h| - 1], h[|h| - 1];
      PossibleIsLegal(parse, gateway, configured, head);
      if last.Called? {
        OneMore(parse, gateway, configured, Calls(head), last.change);
      } else {
        assert Calls(head) + [] == Calls(head);
      }
    }
  }

  /** The latest probe of the fallback, if any, did not indict it. */
  predicate FallbackTrusted(h: seq<Happening>, s: Models) {
    s.lastKnownGood != "" ==> LastProbe(h, s.lastKnownGood) != Some(Indicted)
  }

  lemma {:induction false} OlderStaysTrusted(parse: Parser, configured: string, h: seq<Happening>)
    requires Possible(parse, false, configured, h)
    ensures FallbackTrusted(h, After(configured, Calls(h)))
  {
    if h != [] {
      var head, last := h[..|h| - 1], h[|h| - 1];
      assert h == head + [last];
      OlderStaysTrusted(parse, configured, head);
      PossibleIsLegal(parse, false, configured, head);
      FallbackStaysOlder(parse, configured, Calls(head));
      OneMoreHappening(parse, false, configured, head, last);
      StaysTrusted(parse, head, After(configured, Calls(head)), last);
    }
  }

  lemma {:induction false} StaysTrusted(parse: Parser, h: seq<Happening>, s: Models, next: Happening)
    requires FallbackOlder(parse, s) && FallbackTrusted(h, s)
    requires match next
             case Probed(m, _) => m == s.model || MayFollow(parse, false, s.model, m)
             case Called(c) => c.Swap? ==> c.to != s.model && LastProbe(h, s.model) != Some(Indicted)
    ensures var s' := if next.Called? then Changed(s, next.change) else s;
            s'.lastKnownGood != "" ==> !(next.Probed? && next.model == s'.lastKnownGood) && LastProbe(h, s'.lastKnownGood) != Some(Indicted)
  {
  }

  /** Over everything that may happen the fallback's latest probe did not indict it. */
  ghost predicate AlwaysTrusted(parse: Parser, gateway: bool) {
    forall configured, h | Possible(parse, gateway, configured, h) :: FallbackTrusted(h, After(configured, Calls(h)))
  }

  lemma {:induction false} IndictedRollback(parse: Parser, older: string, newer: string)
    requires parse(older).Some? && parse(newer).Some? && parse(newer) != parse(older)
    requires parse(newer).value.family == parse(older).value.family && older != ""
    ensures !AlwaysTrusted(parse, true)
  {
    var h1 := [] + [Probed(newer, Passed)];
    var h2 := h1 + [Called(Swap(newer))];
    var h3 := h2 + [Probed(older, Indicted)];
    OneMoreHappening(parse, true, older, [], Probed(newer, Passed));
    assert LastProbe([], older) == None;
    OneMoreHappening(parse, true, older, h1, Called(Swap(newer)));
    OneMoreHappening(parse, true, older, h2, Probed(older, Indicted));
    assert After(older, Calls(h3)) == Models(newer, older);
    assert !FallbackTrusted(h3, After(older, Calls(h3)));
  }

  /** That holds exactly when no gateway may name the fallback itself: with one, three indicting probes
      decline it as a candidate and leave it in place as the fallback. */
  lemma {:induction false} FallbackTrustedIff(gateway: bool)
    ensures AlwaysTrusted(ParseId(), gateway) <==> !gateway
  {
    SpellingsFit();
    ParseRoundTrip(DATED);
    ParseRoundTrip(NEWER);
    IndictedRollback(ParseId(), DATED.Id(), NEWER.Id());
    forall configured, h | Possible(ParseId(), false, configured, h) ensures FallbackTrusted(h, After(configured, Calls(h))) {
      OlderStaysTrusted(ParseId(), configured, h);
    }
  }

  lemma {:induction false} MayFollowDiffers(parse: Parser, gateway: bool, a: string, b: string)
    requires MayFollow(parse, gateway, a, b)
    ensures b != a
  {
  }
}
