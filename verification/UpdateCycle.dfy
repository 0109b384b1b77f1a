/** What one cycle of the model auto-updater (pkg/workflow/builtin/bedrock/autoupdate.go) has asked and been
    told, and what it must have tried before it may keep the model in use. */
module UpdateCycle {
  import opened Wrappers
  import opened ModelFallback
  import opened ModelId

  const ATTEMPTS := 3

  datatype Try = Try(model: string, outcome: Probe)

  /** The gateway's answers, the catalog's lists and the probes of this cycle, each in order; None is a
      failed request. */
  datatype Cycle = Cycle(asked: seq<Option<string>>, listed: seq<Option<seq<string>>>, tried: seq<Try>)
  {
    predicate Before(c: Cycle) { asked <= c.asked && listed <= c.listed && tried <= c.tried }

    function Tries(m: string, p: Probe): Cycle { this.(tried := tried + [Try(m, p)]) }
  }

  const NOTHING := Cycle([], [], [])

  predicate FailsFrom(tried: seq<Try>, k: nat, m: string) {
    k + ATTEMPTS <= |tried| && forall j | k <= j < k + ATTEMPTS :: tried[j].model == m && !tried[j].outcome.Passed?
  }

  /** m was probed three times in a row and never passed. */
  ghost predicate Rejected(tried: seq<Try>, m: string) { exists k: nat :: FailsFrom(tried, k, m) }

  /** No model but m passed a probe. */
  predicate OnlyPassed(tried: seq<Try>, m: string) { forall t | t in tried && t.outcome.Passed? :: t.model == m }

  predicate NonePassed(tried: seq<Try>) { forall t | t in tried :: !t.outcome.Passed? }

  lemma {:induction false} StaysRejected(tried: seq<Try>, tried': seq<Try>, m: string)
    requires Rejected(tried, m) && tried <= tried'
    ensures Rejected(tried', m)
  {
    var k: nat :| FailsFrom(tried, k, m);
    assert FailsFrom(tried', k, m);
  }

  lemma {:induction false} RejectedNow(before: seq<Try>, tried: seq<Try>, m: string)
    requires before <= tried && |tried| == |before| + ATTEMPTS
    requires forall j | |before| <= j < |tried| :: tried[j].model == m && !tried[j].outcome.Passed?
    ensures Rejected(tried, m)
  {
    assert FailsFrom(tried, |before|, m);
  }

  // ---- the search for an upgrade

  /** The gateway names cur's own release. */
  predicate Confirmed(parse: Parser, gateway: bool, cur: string, c: Cycle) {
    gateway && |c.asked| > 0 && c.asked[0].Some? && SameBy(parse, c.asked[0].value, cur)
  }

  /** The gateway leaves the search to the catalog: there is none, it failed, or it named something that
      is no release of the family or was rejected. */
  ghost predicate LeftToCatalog(parse: Parser, gateway: bool, cur: string, c: Cycle) {
    gateway ==>
      && |c.asked| > 0
      && (c.asked[0].Some? ==>
            && !SameBy(parse, c.asked[0].value, cur)
            && (SameFamily(parse, cur, c.asked[0].value) ==> Rejected(c.tried, c.asked[0].value)))
  }

  ghost predicate ListingFailed(c: Cycle) { |c.listed| > 0 && c.listed[0].None? }

  /** The catalog lists nothing newer than cur, or its latest, or another spelling of it, was rejected. */
  ghost predicate NothingNewer(parse: Parser, cur: string, c: Cycle) {
    && parse(cur).Some? && |c.listed| > 0 && c.listed[0].Some?
    && (|| LatestBy(parse, c.listed[0].value, parse(cur).value, None)
        || exists best, d :: LatestBy(parse, c.listed[0].value, parse(cur).value, Some(best)) && SameBy(parse, best, d) && Rejected(c.tried, d))
  }

  /** Every source has been asked and has nothing to offer, or what it offers failed three probes. */
  ghost predicate SearchedInVain(parse: Parser, gateway: bool, cur: string, c: Cycle) {
    Confirmed(parse, gateway, cur, c) || (LeftToCatalog(parse, gateway, cur, c) && (ListingFailed(c) || NothingNewer(parse, cur, c)))
  }

  /** m is the gateway's release of the family or, left to it, the catalog's latest. */
  ghost predicate Chosen(parse: Parser, gateway: bool, cur: string, c: Cycle, m: string) {
    || (gateway && |c.asked| > 0 && c.asked[0] == Some(m) && MayFollow(parse, true, cur, m))
    || (&& LeftToCatalog(parse, gateway, cur, c)
        && parse(cur).Some? && |c.listed| > 0 && c.listed[0].Some?
        && LatestBy(parse, c.listed[0].value, parse(cur).value, Some(m)))
  }

  lemma {:induction false} StaysLeft(parse: Parser, gateway: bool, cur: string, c: Cycle, c': Cycle)
    requires LeftToCatalog(parse, gateway, cur, c) && c.Before(c')
    ensures LeftToCatalog(parse, gateway, cur, c')
  {
    if gateway && c.asked[0].Some? && SameFamily(parse, cur, c.asked[0].value) {
      StaysRejected(c.tried, c'.tried, c.asked[0].value);
    }
  }

  lemma {:induction false} LatestRejected(parse: Parser, cur: string, c: Cycle, best: string, d: string)
    requires parse(cur).Some? && |c.listed| > 0 && c.listed[0].Some?
    requires LatestBy(parse, c.listed[0].value, parse(cur).value, Some(best)) && SameBy(parse, best, d) && Rejected(c.tried, d)
    ensures NothingNewer(parse, cur, c)
  {
  }

  // ---- the search for a replacement of a broken model

  /** What the two sources have said since c0, and all probes. */
  function Since(c0: Cycle, c: Cycle): Cycle
    requires c0.Before(c)
  {
    Cycle(c.asked[|c0.asked|..], c.listed[|c0.listed|..], c.tried)
  }

  predicate GatewayNamesNone(parse: Parser, gateway: bool, broken: string, c: Cycle) {
    gateway ==> |c.asked| > 0 && (c.asked[0].Some? ==> !MayFollow(parse, true, broken, c.asked[0].value))
  }

  predicate Replaces(parse: Parser, gateway: bool, broken: string, c: Cycle, m: string) {
    || (gateway && |c.asked| > 0 && c.asked[0] == Some(m) && MayFollow(parse, true, broken, m))
    || (&& GatewayNamesNone(parse, gateway, broken, c)
        && parse(broken).Some? && |c.listed| > 0 && c.listed[0].Some?
        && LatestBy(parse, c.listed[0].value, parse(broken).value, Some(m)))
  }

  /** Neither source has a replacement, other than the candidate declined before. */
  ghost predicate NoReplacement(parse: Parser, gateway: bool, broken: string, c: Cycle, declined: string) {
    || parse(broken).None?
    || (&& GatewayNamesNone(parse, gateway, broken, c) && |c.listed| > 0
        && (|| c.listed[0].None?
            || LatestBy(parse, c.listed[0].value, parse(broken).value, None)
            || (declined != "" && exists best :: LatestBy(parse, c.listed[0].value, parse(broken).value, Some(best)) && SameBy(parse, best, declined))))
  }

  /** There is no replacement, or the one there is failed three probes. */
  ghost predicate RecoveryInVain(parse: Parser, gateway: bool, broken: string, c: Cycle, declined: string) {
    || NoReplacement(parse, gateway, broken, c, declined)
    || exists m :: Replaces(parse, gateway, broken, c, m) && Rejected(c.tried, m)
  }

  lemma {:induction false} TriedInVain(parse: Parser, gateway: bool, broken: string, c: Cycle, c': Cycle, declined: string, m: string)
    requires Replaces(parse, gateway, broken, c, m) && c'.asked == c.asked && c'.listed == c.listed
    requires Rejected(c'.tried, m)
    ensures RecoveryInVain(parse, gateway, broken, c', declined)
  {
  }
}
