/** The model auto-updater (pkg/workflow/builtin/bedrock/autoupdate.go). The gateway, the catalog, the
    probes and cancellation may answer anything. */
module AutoUpdate {
  import opened Wrappers
  import opened ModelFallback
  import opened ModelId
  import opened UpdateCycle

  datatype Outcome =
    | AlreadyLatest | Unparseable | Upgraded | Declined | Cancelled | ListFailed
    | Inconclusive | HealthCheckFailed | RecoveredModel

  lemma {:induction false} CatalogFollows(parse: Parser, gateway: bool, ids: seq<string>, cur: string, r: Option<string>)
    requires parse(cur).Some? && LatestBy(parse, ids, parse(cur).value, r) && r.Some?
    ensures MayFollow(parse, gateway, cur, r.value)
  {
    assert Upgrade(parse, r.value, parse(cur).value);
  }

  /** m conclusively failed its latest health check. */
  predicate Bad(evidence: map<string, bool>, m: string) { m in evidence && !evidence[m] }

  /** The updater's invariant: the models come from what may happen; curUnhealthy is exactly that of the
      model in use; the fallback differs from it and was not found broken. */
  ghost predicate Sound(parse: Parser, gateway: bool, configured: string, h: seq<Happening>, s: Models, unhealthy: bool, evidence: map<string, bool>) {
    && s == After(configured, Calls(h)) && Possible(parse, gateway, configured, h)
    && s.FallbackDiffers()
    && s.model != "" && parse("").None?
    && (unhealthy <==> Bad(evidence, s.model))
    && (s.lastKnownGood != "" ==> !Bad(evidence, s.lastKnownGood))
  }

  function Promotion(unhealthy: bool, m: string): Change { if unhealthy then Recovery(m) else Swap(m) }

  lemma {:induction false} PromotedSound(parse: Parser, gateway: bool, configured: string, h: seq<Happening>, s: Models, unhealthy: bool, evidence: map<string, bool>, m: string)
    requires Sound(parse, gateway, configured, h, s, unhealthy, evidence) && MayFollow(parse, gateway, s.model, m)
    requires LastProbe(h, m) == Some(Passed) && (!unhealthy ==> LastProbe(h, s.model) != Some(Indicted))
    ensures var c := Promotion(unhealthy, m);
            Sound(parse, gateway, configured, h + [Called(c)], Changed(s, c), false, evidence[m := true])
    ensures var next := h + [Called(Promotion(unhealthy, m))];
            LastProbe(next, m) == Some(Passed) && LastProbe(next, s.model) == LastProbe(h, s.model)
  {
    OneMoreHappening(parse, gateway, configured, h, Called(Promotion(unhealthy, m)));
  }

  /** The evidence after a probe. */
  function Seen(evidence: map<string, bool>, m: string, p: Probe): map<string, bool> {
    if p.Passed? then evidence[m := true] else evidence
  }

  lemma {:induction false} ProbedSound(parse: Parser, gateway: bool, configured: string, h: seq<Happening>, s: Models, unhealthy: bool, evidence: map<string, bool>, m: string, p: Probe)
    requires Sound(parse, gateway, configured, h, s, unhealthy, evidence) && (m == s.model || MayFollow(parse, gateway, s.model, m))
    ensures Sound(parse, gateway, configured, h + [Probed(m, p)], s, unhealthy && !(m == s.model && p.Passed?), Seen(evidence, m, p))
    ensures LastProbe(h + [Probed(m, p)], m) == Some(p)
    ensures m != s.model ==> LastProbe(h + [Probed(m, p)], s.model) == LastProbe(h, s.model)
  {
    OneMoreHappening(parse, gateway, configured, h, Probed(m, p));
  }

  class AutoUpdater {
    const llm: BedrockLLM
    const gateway: bool
    const parse: Parser
    var curUnhealthy: bool
    var done: bool

    /** Latest evidence per model: false after a conclusive health-check failure, true after a pass. */
    ghost var evidence: map<string, bool>
    ghost var promotions: seq<string>
    ghost var cycle: Cycle
    ghost var cycles: nat
    ghost const configured: string
    ghost var history: seq<Happening>

    ghost predicate Valid()
      reads this, llm
    {
      Sound(parse, gateway, configured, history, llm.State(), curUnhealthy, evidence)
    }

    /** Between cycles: a model whose last probe indicted it is marked, or the updater is done. */
    ghost predicate Steady()
      reads this, llm
    {
      Valid() && (done || curUnhealthy || LastProbe(history, llm.model) != Some(Indicted))
    }

    constructor (llm: BedrockLLM, gateway: bool, parse: Parser)
      requires llm.State().lastKnownGood == "" && llm.model != "" && parse("").None?
      ensures Steady() && history == [] && this.llm == llm && this.gateway == gateway && this.parse == parse
      ensures promotions == []
    {
      this.llm, this.gateway, this.parse := llm, gateway, parse;
      curUnhealthy, done := false, false;
      evidence, promotions, cycle, cycles := map[], [], NOTHING, 0;
      configured, history := llm.model, [];
    }

    /** ctx.Err(): once cancelled, always cancelled. */
    method Cancelled() returns (b: bool)
      modifies this`done
      ensures b == done && (old(done) ==> done)
    {
      var now: bool := *;
      done := done || now;
      b := done;
    }

    /** One probe of the model in use or of a candidate for it. */
    method Validate(m: string) returns (p: Probe)
      requires Valid() && MayFollow(parse, gateway, llm.model, m)
      modifies this`evidence, this`cycle, this`history
      ensures Valid() && cycle == old(cycle).Tries(m, p)
      ensures evidence == Seen(old(evidence), m, p)
      ensures LastProbe(history, m) == Some(p) && LastProbe(history, llm.model) == old(LastProbe(history, llm.model))
    {
      p := *;
      MayFollowDiffers(parse, gateway, llm.model, m);
      ProbedSound(parse, gateway, configured, history, llm.State(), curUnhealthy, evidence, m, p);
      Record(m, p);
    }

    method Record(m: string, p: Probe)
      modifies this`evidence, this`cycle, this`history
      ensures evidence == Seen(old(evidence), m, p)
      ensures cycle == old(cycle).Tries(m, p)
      ensures history == old(history) + [Probed(m, p)]
    {
      cycle := cycle.Tries(m, p);
      evidence := Seen(evidence, m, p);
      history := history + [Probed(m, p)];
    }

    /** Nothing but probes, cancellation and perhaps evidence changed. */
    twostate predicate Untouched()
      reads this, llm
    {
      && llm.State() == old(llm.State()) && curUnhealthy == old(curUnhealthy)
      && promotions == old(promotions)
    }

    /** m was promoted after a probe that passed in this cycle. */
    twostate predicate PromotedTo(m: string)
      reads this, llm
    {
      && llm.model == m && promotions == old(promotions) + [m] && !curUnhealthy
      && Try(m, Passed) in cycle.tried
    }

    method SwapOrRecover(cand: string)
      modifies llm
      ensures llm.State() == Changed(old(llm.State()), Promotion(curUnhealthy, cand))
    {
      if curUnhealthy {
        llm.RecoverModel(cand);
      } else {
        llm.SwapModel(cand);
      }
    }

    /** Puts a candidate in use that has just passed its probe. A model found broken does not become the
        fallback; during a recovery that is the model in use. */
    method Promote(cand: string)
      requires Valid() && MayFollow(parse, gateway, llm.model, cand)
      requires LastProbe(history, cand) == Some(Passed) && (curUnhealthy || LastProbe(history, llm.model) != Some(Indicted))
      modifies llm, this`curUnhealthy, this`promotions, this`history, this`evidence
      ensures Valid() && !curUnhealthy && promotions == old(promotions) + [cand]
      ensures llm.State() == Changed(old(llm.State()), Promotion(old(curUnhealthy), cand))
      ensures LastProbe(history, cand) == Some(Passed) && LastProbe(history, old(llm.model)) == old(LastProbe(history, llm.model))
    {
      ghost var c := Promotion(curUnhealthy, cand);
      ghost var next, seen := history + [Called(c)], evidence[cand := true];
      PromotedSound(parse, gateway, configured, history, llm.State(), curUnhealthy, evidence, cand);
      SwapOrRecover(cand);
      curUnhealthy, history, evidence, promotions := false, next, seen, promotions + [cand];
    }

    /** Only probes were added, at most three of them. */
    twostate predicate OnlyTried()
      reads this
    {
      && cycle.asked == old(cycle).asked && cycle.listed == old(cycle).listed
      && old(cycle).tried <= cycle.tried && |cycle.tried| <= |old(cycle).tried| + ATTEMPTS
    }

    /** Probes a candidate until it passes, up to three times. */
    method ProbeCandidate(cand: string) returns (passed: bool)
      requires Valid() && MayFollow(parse, gateway, llm.model, cand) && NonePassed(cycle.tried)
      modifies this`evidence, this`cycle, this`history, this`done
      ensures Valid() && OnlyTried() && (old(done) ==> done)
      ensures LastProbe(history, llm.model) == old(LastProbe(history, llm.model))
      ensures if passed then OnlyPassed(cycle.tried, cand) && Try(cand, Passed) in cycle.tried else NonePassed(cycle.tried)
      ensures if passed then !done && LastProbe(history, cand) == Some(Passed) else done || Rejected(cycle.tried, cand)
    {
      for attempt := 0 to ATTEMPTS
        invariant Valid() && OnlyTried() && |cycle.tried| == |old(cycle).tried| + attempt
        invariant forall j | |old(cycle).tried| <= j < |cycle.tried| :: cycle.tried[j].model == cand && !cycle.tried[j].outcome.Passed?
        invariant NonePassed(cycle.tried) && (old(done) ==> done)
        invariant LastProbe(history, llm.model) == old(LastProbe(history, llm.model))
      {
        var stop := Cancelled();
        if stop {
          return false;
        }
        var p := Validate(cand);
        if p.Passed? {
          return true;
        }
      }
      RejectedNow(old(cycle).tried, cycle.tried, cand);
      passed := false;
    }

    /** Three failures decline a candidate; one that passes its probe is put in use. */
    method TryUpgrade(cand: string) returns (ok: bool, outcome: Outcome)
      requires Steady() && MayFollow(parse, gateway, llm.model, cand) && NonePassed(cycle.tried)
      modifies this`curUnhealthy, this`done, this`evidence, this`promotions, this`cycle, this`history, llm
      ensures Steady() && OnlyTried()
      ensures ok ==> outcome.Upgraded? && PromotedTo(cand) && OnlyPassed(cycle.tried, cand)
      ensures ok ==> llm.State() == if old(curUnhealthy) then Recovered(old(llm.State()), cand) else Swapped(old(llm.State()), cand)
      ensures !ok ==> Untouched() && NonePassed(cycle.tried)
      ensures !ok ==> (outcome.Declined? && Rejected(cycle.tried, cand)) || (outcome.Cancelled? && done)
    {
      var passed := ProbeCandidate(cand);
      if passed {
        Promote(cand);
        return true, Upgraded;
      }
      var stop := Cancelled();
      return false, if stop then Outcome.Cancelled else Declined;
    }

    /** Asks the gateway, whose answer may be anything. */
    method Resolve() returns (id: Option<string>)
      modifies this`cycle
      ensures cycle == old(cycle).(asked := old(cycle).asked + [id])
    {
      id := *;
      cycle := cycle.(asked := cycle.asked + [id]);
    }

    /** Asks the catalog, whose answer may be anything. */
    method List() returns (ids: Option<seq<string>>)
      modifies this`cycle
      ensures cycle == old(cycle).(listed := old(cycle).listed + [ids])
    {
      ids := *;
      cycle := cycle.(listed := cycle.listed + [ids]);
    }

    /** Stage 1: what the gateway names, followed wherever it points within the family. settled: the
        cycle's upgrade stages are over. */
    method FollowGateway() returns (settled: bool, declined: string, outcome: Outcome)
      requires Steady() && parse(llm.model).Some? && cycle == NOTHING
      modifies this`curUnhealthy, this`done, this`evidence, this`promotions, this`cycle, this`history, llm
      ensures Steady() && cycle.listed == [] && |cycle.tried| <= ATTEMPTS
      ensures outcome.Upgraded? ==> settled && PromotedTo(llm.model) && Chosen(parse, gateway, old(llm.model), cycle, llm.model)
      ensures OnlyPassed(cycle.tried, llm.model)
      ensures !outcome.Upgraded? ==> Untouched() && NonePassed(cycle.tried)
      ensures settled ==> outcome.Upgraded? || (outcome.Cancelled? && done) || (outcome.AlreadyLatest? && cycle.tried == [])
      ensures settled && outcome.AlreadyLatest? ==> Confirmed(parse, gateway, llm.model, cycle)
      ensures settled ==> declined == ""
      ensures !settled ==> LeftToCatalog(parse, gateway, llm.model, cycle)
      ensures !settled ==> if declined == "" then outcome.AlreadyLatest? && cycle.tried == [] else outcome.Declined? && Rejected(cycle.tried, declined)
    {
      settled, declined, outcome := false, "", AlreadyLatest;
      if gateway {
        var id := Resolve();
        if id.None? {
          return;
        }
        if SameBy(parse, id.value, llm.model) {
          return true, "", AlreadyLatest;
        }
        if SameFamily(parse, llm.model, id.value) {
          var ok;
          ok, outcome := TryUpgrade(id.value);
          if ok || outcome.Cancelled? {
            return true, "", outcome;
          }
          declined := id.value;
        }
      }
    }

    /** Stage 2: the catalog's latest, unless stage 1 has just declined it. */
    method ScanCatalog(rejected: string, before: Outcome) returns (declined: string, outcome: Outcome)
      requires Steady() && parse(llm.model).Some? && cycle.listed == [] && |cycle.tried| <= ATTEMPTS && NonePassed(cycle.tried)
      requires LeftToCatalog(parse, gateway, llm.model, cycle)
      requires if rejected == "" then before.AlreadyLatest? && cycle.tried == [] else before.Declined? && Rejected(cycle.tried, rejected)
      modifies this`curUnhealthy, this`done, this`evidence, this`promotions, this`cycle, this`history, llm
      ensures Steady() && |cycle.tried| <= 2 * ATTEMPTS
      ensures OnlyPassed(cycle.tried, llm.model)
      ensures outcome.Upgraded? ==> PromotedTo(llm.model) && Chosen(parse, gateway, old(llm.model), cycle, llm.model)
      ensures !outcome.Upgraded? ==> Untouched() && NonePassed(cycle.tried)
      ensures outcome.Cancelled? ==> done
      ensures outcome.AlreadyLatest? || outcome.Declined? ==> LeftToCatalog(parse, gateway, llm.model, cycle) && NothingNewer(parse, llm.model, cycle)
      ensures outcome.ListFailed? ==> LeftToCatalog(parse, gateway, llm.model, cycle) && ListingFailed(cycle)
      ensures outcome.Upgraded? || outcome.Cancelled? || outcome.ListFailed? || if declined == "" then outcome.AlreadyLatest? else outcome.Declined?
      ensures if declined == "" then outcome.Upgraded? || outcome.Cancelled? || cycle.tried == [] else Rejected(cycle.tried, declined)
    {
      declined, outcome := rejected, before;
      ghost var c := cycle;
      var ids := List();
      if ids.None? {
        return declined, ListFailed;
      }
      var cand := LatestFor(parse, ids.value, parse(llm.model).value);
      if cand.None? || (declined != "" && SameBy(parse, cand.value, declined)) {
        return;
      }
      CatalogFollows(parse, gateway, ids.value, llm.model, cand);
      StaysLeft(parse, gateway, llm.model, c, cycle);
      declined, outcome := TryLatest(cand.value, rejected);
    }

    method TryLatest(cand: string, rejected: string) returns (declined: string, outcome: Outcome)
      requires Steady() && MayFollow(parse, gateway, llm.model, cand) && NonePassed(cycle.tried)
      requires LeftToCatalog(parse, gateway, llm.model, cycle) && parse(llm.model).Some? && |cycle.listed| > 0 && cycle.listed[0].Some?
      requires LatestBy(parse, cycle.listed[0].value, parse(llm.model).value, Some(cand))
      requires rejected == "" || Rejected(cycle.tried, rejected)
      modifies this`curUnhealthy, this`done, this`evidence, this`promotions, this`cycle, this`history, llm
      ensures Steady() && OnlyTried()
      ensures outcome.Upgraded? ==> PromotedTo(cand) && OnlyPassed(cycle.tried, cand)
      ensures !outcome.Upgraded? ==> Untouched() && NonePassed(cycle.tried)
      ensures LeftToCatalog(parse, gateway, old(llm.model), cycle)
      ensures outcome.Upgraded? || (outcome.Cancelled? && done) || (outcome.Declined? && NothingNewer(parse, llm.model, cycle) && declined == cand)
      ensures declined == "" || Rejected(cycle.tried, declined)
    {
      ghost var c := cycle;
      var ok;
      ok, outcome := TryUpgrade(cand);
      StaysLeft(parse, gateway, old(llm.model), c, cycle);
      declined := rejected;
      if !ok && outcome.Declined? {
        declined := cand;
        LatestRejected(parse, llm.model, cycle, cand, cand);
      } else if declined != "" {
        StaysRejected(c.tried, cycle.tried, declined);
      }
    }

    /** The gateway, then the catalog. declined is the candidate rejected this cycle, or "". */
    method ResolveAndUpgrade() returns (declined: string, outcome: Outcome)
      requires Steady() && cycle == NOTHING
      modifies this`curUnhealthy, this`done, this`evidence, this`promotions, this`cycle, this`history, llm
      ensures Steady() && |cycle.tried| <= 2 * ATTEMPTS
      ensures OnlyPassed(cycle.tried, llm.model)
      ensures outcome.Upgraded? ==> PromotedTo(llm.model) && Chosen(parse, gateway, old(llm.model), cycle, llm.model)
      ensures !outcome.Upgraded? ==> Untouched() && NonePassed(cycle.tried)
      ensures outcome.Unparseable? <==> parse(old(llm.model)).None?
      ensures outcome.Cancelled? ==> done
      ensures outcome.ListFailed? ==> ListingFailed(cycle)
      ensures !outcome.Upgraded? && !outcome.Cancelled? && !outcome.Unparseable? ==> SearchedInVain(parse, gateway, llm.model, cycle)
      ensures outcome.AlreadyLatest? || outcome.Declined? ==> Confirmed(parse, gateway, llm.model, cycle) || NothingNewer(parse, llm.model, cycle)
      ensures if declined == "" then outcome.Upgraded? || outcome.Cancelled? || cycle.tried == [] else Rejected(cycle.tried, declined)
      ensures outcome.AlreadyLatest? ==> declined == ""
      ensures outcome.Declined? ==> declined != ""
      ensures !outcome.RecoveredModel? && !outcome.HealthCheckFailed? && !outcome.Inconclusive?
    {
      if parse(llm.model).None? {
        return "", Unparseable;
      }
      var settled;
      settled, declined, outcome := FollowGateway();
      if settled {
        return;
      }
      var stop := Cancelled();
      if stop {
        return declined, Outcome.Cancelled;
      }
      declined, outcome := ScanCatalog(declined, outcome);
    }

    /** A replacement for a broken model, or "". */
    method RecoveryCandidate(broken: string, declined: string) returns (cand: string)
      requires parse("").None?
      modifies this`done, this`cycle
      ensures old(cycle).Before(cycle) && cycle.tried == old(cycle).tried
      ensures cand != "" ==> Replaces(parse, gateway, broken, Since(old(cycle), cycle), cand) && MayFollow(parse, gateway, broken, cand)
      ensures cand == "" ==> done || NoReplacement(parse, gateway, broken, Since(old(cycle), cycle), declined)
      ensures old(done) ==> done
    {
      var stop := Cancelled();
      var parsed := parse(broken);
      if stop || parsed.None? {
        return "";
      }
      if gateway {
        var id := Resolve();
        if id.Some? && SameFamily(parse, broken, id.value) && !SameBy(parse, id.value, broken) {
          return id.value;
        }
      }
      var ids := List();
      if ids.None? {
        return "";
      }
      var best := LatestFor(parse, ids.value, parsed.value);
      if best.None? {
        return "";
      }
      CatalogFollows(parse, gateway, ids.value, broken, best);
      if declined != "" && SameBy(parse, best.value, declined) {
        return "";
      }
      return best.value;
    }

    /** The replacement of a model that failed its health check. */
    method Recover(broken: string, declined: string) returns (outcome: Outcome)
      requires Valid() && broken == llm.model && curUnhealthy && NonePassed(cycle.tried)
      modifies this`curUnhealthy, this`done, this`evidence, this`promotions, this`cycle, this`history, llm
      ensures Steady() && LastProbe(history, broken) == old(LastProbe(history, broken))
      ensures old(cycle).Before(cycle) && |cycle.tried| <= |old(cycle).tried| + ATTEMPTS && OnlyPassed(cycle.tried, llm.model)
      ensures outcome.RecoveredModel? ==> PromotedTo(llm.model) && MayFollow(parse, gateway, broken, llm.model)
      ensures outcome.RecoveredModel? ==> Replaces(parse, gateway, broken, Since(old(cycle), cycle), llm.model)
      ensures outcome.RecoveredModel? ==> llm.State() == Recovered(old(llm.State()), llm.model) && !curUnhealthy
      ensures outcome.RecoveredModel? || (outcome.Cancelled? && done) || outcome.HealthCheckFailed?
      ensures outcome.HealthCheckFailed? ==> RecoveryInVain(parse, gateway, broken, Since(old(cycle), cycle), declined)
      ensures !outcome.RecoveredModel? ==> Untouched() && NonePassed(cycle.tried)
    {
      var cand := RecoveryCandidate(broken, declined);
      var stop: bool;
      if cand == "" {
        stop := Cancelled();
        return if stop then Outcome.Cancelled else HealthCheckFailed;
      }
      ghost var c := cycle;
      var passed := ProbeCandidate(cand);
      if passed {
        Promote(cand);
        return RecoveredModel;
      }
      stop := Cancelled();
      if stop {
        return Outcome.Cancelled;
      }
      TriedInVain(parse, gateway, broken, Since(old(cycle), c), Since(old(cycle), cycle), declined, cand);
      return HealthCheckFailed;
    }

    /** One probe of the model in use. */
    method ValidateCurrent() returns (p: Probe)
      requires Valid()
      modifies this`evidence, this`cycle, this`history, this`curUnhealthy
      ensures Valid() && cycle == old(cycle).Tries(llm.model, p)
      ensures curUnhealthy == (old(curUnhealthy) && !p.Passed?) && LastProbe(history, llm.model) == Some(p)
    {
      p := *;
      ProbedSound(parse, gateway, configured, history, llm.State(), curUnhealthy, evidence, llm.model, p);
      Record(llm.model, p);
      curUnhealthy := curUnhealthy && !p.Passed?;
    }

    /** Probes the model in use until it passes, up to three times; None when cancelled. */
    method ProbeCurrent() returns (p: Option<Probe>)
      requires Valid() && NonePassed(cycle.tried)
      modifies this`curUnhealthy, this`done, this`evidence, this`promotions, this`cycle, this`history, llm
      ensures Valid() && OnlyTried() && OnlyPassed(cycle.tried, llm.model)
      ensures llm.State() == old(llm.State()) && promotions == old(promotions)
      ensures p == Some(Passed) ==> !curUnhealthy
      ensures p != Some(Passed) ==> Untouched() && NonePassed(cycle.tried)
      ensures if p.Some? then LastProbe(history, llm.model) == p else done
      ensures p.Some? && !p.value.Passed? ==> Rejected(cycle.tried, llm.model)
      ensures old(done) ==> done
    {
      var last := Faulted;
      for attempt := 0 to ATTEMPTS
        invariant Valid() && Untouched() && OnlyTried() && |cycle.tried| == |old(cycle).tried| + attempt
        invariant forall j | |old(cycle).tried| <= j < |cycle.tried| :: cycle.tried[j].model == llm.model && !cycle.tried[j].outcome.Passed?
        invariant NonePassed(cycle.tried) && !last.Passed?
        invariant attempt > 0 ==> LastProbe(history, llm.model) == Some(last)
        invariant old(done) ==> done
      {
        var stop := Cancelled();
        if stop {
          return None;
        }
        last := ValidateCurrent();
        if last.Passed? {
          return Some(Passed);
        }
      }
      RejectedNow(old(cycle).tried, cycle.tried, llm.model);
      var stop := Cancelled();
      p := if stop then None else Some(last);
    }

    /** The model in use conclusively failed: it is marked, and when no candidate was declined in this
        cycle, a recovery follows. */
    method Condemn(declined: string) returns (outcome: Outcome)
      requires Valid() && NonePassed(cycle.tried) && Rejected(cycle.tried, llm.model)
      modifies this`curUnhealthy, this`done, this`evidence, this`promotions, this`cycle, this`history, llm
      ensures Steady() && LastProbe(history, old(llm.model)) == old(LastProbe(history, llm.model))
      ensures old(cycle).Before(cycle) && OnlyPassed(cycle.tried, llm.model)
      ensures |cycle.tried| <= |old(cycle).tried| + (if declined == "" then ATTEMPTS else 0)
      ensures outcome.RecoveredModel? || (curUnhealthy && (outcome.HealthCheckFailed? || (outcome.Cancelled? && done)))
      ensures outcome.RecoveredModel? ==> declined == "" && PromotedTo(llm.model) && MayFollow(parse, gateway, old(llm.model), llm.model)
      ensures outcome.RecoveredModel? ==> Replaces(parse, gateway, old(llm.model), Since(old(cycle), cycle), llm.model)
      ensures outcome.HealthCheckFailed? && declined == "" ==> Unrecoverable(old(cycle), old(llm.model))
      ensures !outcome.RecoveredModel? ==> promotions == old(promotions) && llm.State() == old(llm.State())
    {
      curUnhealthy := true;
      evidence := evidence[llm.model := false];
      if declined != "" {
        return HealthCheckFailed;
      }
      outcome := Recover(llm.model, declined);
      StaysRejected(old(cycle).tried, cycle.tried, old(llm.model));
    }

    /** Checks the model in use. Only a conclusive failure, its last probe indicting it, marks it. */
    method HealthCheck(declined: string, before: Outcome) returns (outcome: Outcome, ghost verdict: Option<Probe>)
      requires Valid() && NonePassed(cycle.tried)
      modifies this`curUnhealthy, this`done, this`evidence, this`promotions, this`cycle, this`history, llm
      ensures Steady() && old(cycle).Before(cycle) && OnlyPassed(cycle.tried, llm.model)
      ensures |cycle.tried| <= |old(cycle).tried| + ATTEMPTS + (if declined == "" then ATTEMPTS else 0)
      ensures verdict == None || verdict == Some(Passed) || verdict == Some(Faulted) || verdict == Some(Indicted)
      ensures if verdict.Some? then LastProbe(history, old(llm.model)) == verdict else outcome.Cancelled? && done && Untouched()
      ensures verdict == Some(Passed) ==> !curUnhealthy && outcome == before && promotions == old(promotions) && llm.State() == old(llm.State())
      ensures verdict == Some(Faulted) ==> outcome.Inconclusive? && Untouched()
      ensures verdict == Some(Indicted) ==> outcome.RecoveredModel? || (curUnhealthy && (outcome.HealthCheckFailed? || (outcome.Cancelled? && done)))
      ensures verdict == Some(Indicted) && outcome.RecoveredModel? ==> declined == "" && PromotedTo(llm.model) && MayFollow(parse, gateway, old(llm.model), llm.model)
      ensures verdict == Some(Indicted) && outcome.RecoveredModel? ==> Replaces(parse, gateway, old(llm.model), Since(old(cycle), cycle), llm.model)
      ensures verdict == Some(Indicted) && outcome.HealthCheckFailed? && declined == "" ==> Unrecoverable(old(cycle), old(llm.model))
      ensures verdict == Some(Indicted) && !outcome.RecoveredModel? ==> promotions == old(promotions) && llm.State() == old(llm.State())
    {
      var p := ProbeCurrent();
      verdict := p;
      if p.None? {
        outcome := Outcome.Cancelled;
      } else {
        match p.value {
          case Passed => outcome := before;
          case Faulted => outcome := Inconclusive;
          case Indicted => outcome := Condemn(declined);
        }
      }
    }

    method CheckUnlessStopped(declined: string, before: Outcome) returns (outcome: Outcome, ghost verdict: Option<Probe>)
      requires Steady() && NonePassed(cycle.tried)
      requires !before.RecoveredModel? && !before.HealthCheckFailed? && !before.Inconclusive?
      modifies this`curUnhealthy, this`done, this`evidence, this`promotions, this`cycle, this`history, llm
      ensures Steady() && old(cycle).Before(cycle) && OnlyPassed(cycle.tried, llm.model)
      ensures |cycle.tried| <= |old(cycle).tried| + ATTEMPTS + (if declined == "" then ATTEMPTS else 0)
      ensures if verdict.Some? then LastProbe(history, old(llm.model)) == verdict else done
      ensures outcome == before || outcome.Inconclusive? || outcome.HealthCheckFailed? || outcome.RecoveredModel? || (outcome.Cancelled? && done)
      ensures curUnhealthy && !old(curUnhealthy) ==> verdict == Some(Indicted)
      ensures outcome.HealthCheckFailed? ==> curUnhealthy
      ensures verdict == Some(Indicted) && !outcome.RecoveredModel? && declined == "" ==> done || Unrecoverable(old(cycle), llm.model)
      ensures outcome.RecoveredModel? ==> verdict == Some(Indicted) && PromotedTo(llm.model) && MayFollow(parse, gateway, old(llm.model), llm.model)
      ensures outcome.RecoveredModel? ==> Replaces(parse, gateway, old(llm.model), Since(old(cycle), cycle), llm.model)
      ensures (outcome.RecoveredModel?) || (promotions == old(promotions) && llm.State() == old(llm.State()))
    {
      outcome, verdict := before, None;
      var stop := Cancelled();
      if !stop {
        outcome, verdict := HealthCheck(declined, before);
      }
    }

    /** Since c0 the broken model failed three probes, and there was no replacement for it. */
    ghost predicate Unrecoverable(c0: Cycle, broken: string)
      reads this
    {
      && c0.Before(cycle)
      && Rejected(cycle.tried, broken)
      && RecoveryInVain(parse, gateway, broken, Since(c0, cycle), "")
    }

    /** What happened so far may happen, so without a gateway the fallback is an older release and its
        latest probe did not indict it. */
    lemma {:induction false} KeepsOlder()
      requires Valid()
      ensures !gateway ==> FallbackOlder(parse, llm.State()) && FallbackTrusted(history, llm.State())
    {
      if !gateway {
        PossibleIsLegal(parse, gateway, configured, history);
        FallbackStaysOlder(parse, configured, Calls(history));
        OlderStaysTrusted(parse, configured, history);
      }
    }

    /** One cycle: at most one promotion, of a model that passed a probe in this cycle, within the
        family, and at most nine probes; every model that passed one is the model in use afterwards. A
        cycle that is not cancelled keeps the model only if the search for another was in vain, and then
        checks it; found broken, it is kept only if a candidate was rejected before or the search for a
        replacement was in vain too. mid is what was known when the check began, verdict its last probe. */
    method RunOnce() returns (outcome: Outcome, ghost verdict: Option<Probe>, ghost mid: Cycle)
      requires Steady()
      modifies this, llm
      ensures Steady() && cycles == old(cycles) + 1
      ensures !gateway ==> FallbackOlder(parse, llm.State()) && FallbackTrusted(history, llm.State())
      ensures |cycle.tried| <= 9 && mid.Before(cycle) && OnlyPassed(cycle.tried, llm.model)
      ensures promotions == old(promotions) && !done ==> parse(llm.model).None? || SearchedInVain(parse, gateway, llm.model, mid)
      ensures promotions == old(promotions) && !done ==> verdict.Some? && LastProbe(history, llm.model) == verdict
      ensures promotions == old(promotions) && !done && verdict == Some(Indicted) ==>
                (exists d :: Rejected(mid.tried, d)) || RecoveryInVain(parse, gateway, llm.model, Since(mid, cycle), "")
      ensures outcome.Upgraded? ==> PromotedTo(llm.model) && Chosen(parse, gateway, old(llm.model), mid, llm.model)
      ensures outcome.RecoveredModel? ==> PromotedTo(llm.model) && Replaces(parse, gateway, old(llm.model), Since(mid, cycle), llm.model)
      ensures outcome.RecoveredModel? ==> verdict == Some(Indicted) && LastProbe(history, old(llm.model)) == verdict
      ensures outcome.Cancelled? ==> done
      ensures outcome.Unparseable? ==> parse(llm.model).None?
      ensures outcome.ListFailed? ==> ListingFailed(mid)
      ensures curUnhealthy && !old(curUnhealthy) ==> verdict == Some(Indicted) && LastProbe(history, llm.model) == verdict
      ensures outcome.HealthCheckFailed? ==> curUnhealthy
      ensures (promotions == old(promotions) && llm.State() == old(llm.State()))
              || (PromotedTo(llm.model) && MayFollow(parse, gateway, old(llm.model), llm.model))
    {
      verdict, cycle, cycles := None, NOTHING, cycles + 1;
      var declined;
      declined, outcome := ResolveAndUpgrade();
      mid := cycle;
      if !outcome.Upgraded? && !outcome.Cancelled? {
        outcome, verdict := CheckUnlessStopped(declined, outcome);
      }
      KeepsOlder();
    }
  }

  // ---- whole runs

  /** Cycles one after another: the invariants hold throughout, the family never changes, and without
      a gateway neither does the prefix, the version strictly grows with every promotion, and so at
      most 9,999 promotions ever happen. A model that does not parse is never replaced. */
  method Run(u: AutoUpdater, cycles: nat)
    requires u.Steady() && u.parse == ParseId() && u.promotions == []
    modifies u, u.llm
    ensures u.Steady() && u.cycles == old(u.cycles) + cycles
    ensures Parse(old(u.llm.model)).None? ==> u.promotions == [] && u.llm.State() == old(u.llm.State())
    ensures Parse(old(u.llm.model)).Some? ==> SameFamily(u.parse, old(u.llm.model), u.llm.model)
    ensures Parse(old(u.llm.model)).Some? && !u.gateway ==> Advanced(u.parse, old(u.llm.model), u.llm.model, |u.promotions|)
    ensures Parse(old(u.llm.model)).Some? && !u.gateway ==> |u.promotions| <= 9999
    ensures !u.gateway ==> FallbackOlder(u.parse, u.llm.State()) && !u.llm.State().FallbackIsSameRelease(u.parse)
    ensures !u.gateway ==> FallbackTrusted(u.history, u.llm.State())
  {
    ghost var start := u.llm.model;
    for i := 0 to cycles
      invariant u.Steady() && u.cycles == old(u.cycles) + i
      invariant u.parse(start).None? ==> u.promotions == [] && u.llm.State() == old(u.llm.State())
      invariant u.parse(start).Some? ==> SameFamily(u.parse, start, u.llm.model)
      invariant u.parse(start).Some? && !u.gateway ==> Advanced(u.parse, start, u.llm.model, |u.promotions|)
    {
      ghost var before := u.llm.model;
      var _, _, _ := u.RunOnce();
      RankBounds(u.parse, before);
      RankBounds(u.parse, u.llm.model);
      if u.parse(start).Some? && !u.gateway && u.llm.model != before {
        OneStepOn(u.parse, start, before, u.llm.model, |u.promotions| - 1);
      }
    }
    RankBounds(u.parse, start);
    RankBounds(u.parse, u.llm.model);
    if !u.gateway {
      u.KeepsOlder();
      OlderIsAnother(u.parse);
    }
  }

  /** b's version is at least n steps above a's, prefix and family the same. */
  predicate Advanced(parse: Parser, a: string, b: string, n: nat) {
    && SameFamily(parse, a, b) && parse(a).value.prefix == parse(b).value.prefix
    && parse(b).value.Rank() >= parse(a).value.Rank() + n
  }

  lemma {:induction false} OneStepOn(parse: Parser, a: string, b: string, c: string, n: nat)
    requires Advanced(parse, a, b, n) && Newer(parse, b, c) && parse(b).value.minor <= 99 && parse(c).value.minor <= 99
    ensures Advanced(parse, a, c, n + 1)
  {
  }

  lemma {:induction false} RankBounds(parse: Parser, m: string)
    requires parse == ParseId()
    ensures parse(m) == Parse(m)
    ensures parse(m).Some? ==> parse(m).value.minor <= 99 && parse(m).value.Rank() <= 9999
  {
    ParseBounds(m);
  }
}
