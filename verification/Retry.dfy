/** The retry engine (pkg/workflow/engine/retry): classes, policies, and the attempt loop. Times are
    whole milliseconds; a jittered delay is any value from half the delay to the delay. */
module Retry {
  import opened Wrappers

  // ---- classes

  datatype Class = Transient | Timeout | Upstream | Validation | Permission | StreamEmitted

  function ClassName(c: Class): string {
    match c
    case Transient => "transient"
    case Timeout => "timeout"
    case Upstream => "upstream"
    case Validation => "validation"
    case Permission => "permission"
    case StreamEmitted => "stream-already-emitted"
  }

  function ParseClass(s: string): (r: Option<Class>)
    ensures r.Some? ==> ClassName(r.value) == s
    ensures r.None? ==> forall c: Class :: ClassName(c) != s
  {
    if s == "transient" then Some(Transient)
    else if s == "timeout" then Some(Timeout)
    else if s == "upstream" then Some(Upstream)
    else if s == "validation" then Some(Validation)
    else if s == "permission" then Some(Permission)
    else if s == "stream-already-emitted" then Some(StreamEmitted)
    else None
  }

  datatype ToolError = ToolError(code: string, retryable: bool)

  /** What the classifier can find in an error's chain: the first ToolError, whether it is a
      deadline, a cancellation or a policy denial, and whether its text looks transient. */
  datatype Error = Error(tool: Option<ToolError>, deadline: bool, canceled: bool, denied: bool, transientText: bool)

  const DEADLINE := Error(None, true, false, false, false)

  function Classify(e: Error): Class {
    match e.tool
    case Some(t) =>
      if !t.retryable then Validation
      else (match ParseClass(t.code) case Some(c) => c case None => Upstream)
    case None =>
      if e.deadline then Timeout
      else if e.canceled then Validation
      else if e.denied then Permission
      else if e.transientText then Transient
      else Validation
  }

  /** An error that asserts it is not retryable still lands in a class a policy may retry on. */
  lemma {:induction false} NonRetryableIsValidation(e: Error)
    requires e.tool.Some? && !e.tool.value.retryable
    ensures Classify(e) == Validation
  {
  }

  // ---- policies

  datatype Backoff = Fixed | Exponential

  datatype Policy = Policy(
    maxAttempts: int, backoff: Backoff, initialDelay: int, maxDelay: int, jitter: bool,
    retryOn: seq<Class>, perAttemptTimeout: int, totalBudget: int)
  {
    predicate InRange() {
      1 <= maxAttempts <= 10 && initialDelay >= 0 && maxDelay >= 0 && perAttemptTimeout >= 0 && totalBudget >= 0
    }
  }

  /** The JSON block; backoff is empty when absent, retryOn None when absent. */
  datatype RawPolicy = RawPolicy(
    maxAttempts: Option<int>, backoff: string, initialDelayMs: Option<int>, maxDelayMs: Option<int>,
    jitter: Option<bool>, retryOn: Option<seq<string>>, perAttemptTimeoutSeconds: Option<int>, totalBudgetSeconds: Option<int>)

  function Or<T>(o: Option<T>, default: T): T {
    match o case Some(v) => v case None => default
  }

  const ALL_CLASSES: seq<Class> := [Transient, Timeout, Upstream, Validation, Permission]

  predicate ClassesKnown(names: seq<string>) {
    "all" in names || forall s | s in names :: ParseClass(s).Some?
  }

  /** The class list: everything literal for "all", otherwise the named classes in order. */
  method ParseClasses(names: seq<string>) returns (r: Option<seq<Class>>)
    ensures r.Some? <==> ClassesKnown(names)
    ensures "all" in names ==> r == Some(ALL_CLASSES)
    ensures r.Some? && "all" !in names ==>
              |r.value| == |names| && forall i | 0 <= i < |names| :: ClassName(r.value[i]) == names[i]
  {
    for i := 0 to |names|
      invariant "all" !in names[..i]
    {
      if names[i] == "all" {
        return Some(ALL_CLASSES);
      }
    }
    var out: seq<Class> := [];
    for i := 0 to |names|
      invariant |out| == i && forall j | 0 <= j < i :: ParseClass(names[j]) == Some(out[j])
    {
      var c := ParseClass(names[i]);
      if c.None? {
        return None;
      }
      out := out + [c.value];
    }
    r := Some(out);
  }

  predicate RawInRange(raw: RawPolicy) {
    && 1 <= Or(raw.maxAttempts, 3) <= 10
    && raw.backoff in {"", "fixed", "exponential"}
    && Or(raw.initialDelayMs, 500) >= 0 && Or(raw.maxDelayMs, 5000) >= 0
    && (raw.retryOn.Some? ==> ClassesKnown(raw.retryOn.value))
    && Or(raw.perAttemptTimeoutSeconds, 0) >= 0 && Or(raw.totalBudgetSeconds, 0) >= 0
  }

  /** The policy a block describes, but for its class list. */
  function Filled(raw: RawPolicy, retryOn: seq<Class>): Policy {
    Policy(Or(raw.maxAttempts, 3), if raw.backoff == "fixed" then Fixed else Exponential,
           Or(raw.initialDelayMs, 500), Or(raw.maxDelayMs, 5000), Or(raw.jitter, true), retryOn,
           1000 * Or(raw.perAttemptTimeoutSeconds, 0), 1000 * Or(raw.totalBudgetSeconds, 0))
  }

  predicate ClassesMean(names: Option<seq<string>>, classes: seq<Class>) {
    match names
    case None => classes == [Transient, Timeout]
    case Some(ns) =>
      if "all" in ns then classes == ALL_CLASSES
      else forall c :: c in classes <==> ClassName(c) in ns
  }

  /** The number given, or the default; None when it is given below lo. */
  method Field(o: Option<int>, default: int, lo: int) returns (r: Option<int>)
    requires default >= lo
    ensures r == if Or(o, default) >= lo then Some(Or(o, default)) else None
  {
    if o.Some? {
      if o.value < lo {
        return None;
      }
      return o;
    }
    r := Some(default);
  }

  method ParsePolicy(raw: RawPolicy) returns (r: Option<Policy>)
    ensures r.Some? <==> RawInRange(raw)
    ensures r.Some? ==> r.value.InRange() && r.value == Filled(raw, r.value.retryOn)
    ensures r.Some? ==> ClassesMean(raw.retryOn, r.value.retryOn)
  {
    var maxAttempts := Field(raw.maxAttempts, 3, 1);
    if maxAttempts.None? || maxAttempts.value > 10 {
      return None;
    }
    if raw.backoff != "" && raw.backoff != "fixed" && raw.backoff != "exponential" {
      return None;
    }
    var initialDelay := Field(raw.initialDelayMs, 500, 0);
    var maxDelay := Field(raw.maxDelayMs, 5000, 0);
    if initialDelay.None? || maxDelay.None? {
      return None;
    }
    var classes := Some([Transient, Timeout]);
    if raw.retryOn.Some? {
      classes := ParseClasses(raw.retryOn.value);
      if classes.None? {
        return None;
      }
      if "all" !in raw.retryOn.value {
        NamesGiveClasses(raw.retryOn.value, classes.value);
      }
    }
    var timeout := Field(raw.perAttemptTimeoutSeconds, 0, 0);
    var budget := Field(raw.totalBudgetSeconds, 0, 0);
    if timeout.None? || budget.None? {
      return None;
    }
    r := Some(Policy(maxAttempts.value, if raw.backoff == "fixed" then Fixed else Exponential,
                     initialDelay.value, maxDelay.value, Or(raw.jitter, true), classes.value,
                     1000 * timeout.value, 1000 * budget.value));
  }

  lemma {:induction false} NamesGiveClasses(names: seq<string>, classes: seq<Class>)
    requires |names| == |classes| && forall i | 0 <= i < |names| :: ClassName(classes[i]) == names[i]
    ensures forall c :: c in classes <==> ClassName(c) in names
  {
    forall c ensures c in classes <==> ClassName(c) in names {
      if ClassName(c) in names {
        var i :| 0 <= i < |names| && names[i] == ClassName(c);
        assert classes[i] == c;
      }
    }
  }

  // ---- which errors a policy retries, by the names of its classes

  predicate Lists(p: Policy, name: string) { exists c | c in p.retryOn :: ClassName(c) == name }

  predicate KnownName(code: string) {
    code in {"transient", "timeout", "upstream", "validation", "permission", "stream-already-emitted"}
  }

  /** The policy retries on e: a tool's error if it says so itself, under its code, or as an upstream failure
      when the code is no class; and otherwise a deadline, a denial or transient text, in this order, under
      its own name. Whatever else there is counts as validation: a tool's error that says no, a cancellation,
      and any error with none of these marks. */
  predicate RetriesOn(p: Policy, e: Error) {
    match e.tool
    case Some(t) =>
      || (t.retryable && KnownName(t.code) && Lists(p, t.code))
      || (t.retryable && !KnownName(t.code) && Lists(p, "upstream"))
      || (!t.retryable && Lists(p, "validation"))
    case None =>
      || (e.deadline && Lists(p, "timeout"))
      || (!e.deadline && !e.canceled && e.denied && Lists(p, "permission"))
      || (!e.deadline && !e.canceled && !e.denied && e.transientText && Lists(p, "transient"))
      || (!e.deadline && (e.canceled || (!e.denied && !e.transientText)) && Lists(p, "validation"))
  }

  lemma {:induction false} NamesAreDistinct(c: Class, d: Class)
    ensures KnownName(ClassName(c))
    ensures ClassName(c) == ClassName(d) ==> c == d
  {
    assert ParseClass(ClassName(c)).Some? && ParseClass(ClassName(d)).Some?;
    assert "transient"[0] != "upstream"[0] && |"transient"| != |"timeout"|;
  }

  lemma {:induction false} InListIff(p: Policy, c: Class)
    ensures c in p.retryOn <==> Lists(p, ClassName(c))
  {
    if Lists(p, ClassName(c)) {
      var d :| d in p.retryOn && ClassName(d) == ClassName(c);
      NamesAreDistinct(c, d);
    }
  }

  /** The class decides just that. */
  lemma {:induction false} ClassDecides(p: Policy, e: Error)
    ensures Classify(e) in p.retryOn <==> RetriesOn(p, e)
  {
    InListIff(p, Classify(e));
    NamesAreDistinct(Classify(e), Classify(e));
  }

  // ---- delays

  function Pow2(k: nat): nat { if k == 0 then 1 else 2 * Pow2(k - 1) }

  /** nextDelay before jitter. */
  function BaseDelay(p: Policy, attempt: nat): int
    requires attempt >= 1
  {
    var d := if p.backoff.Fixed? then p.initialDelay else p.initialDelay * Pow2(attempt - 1);
    if p.maxDelay > 0 && d > p.maxDelay then p.maxDelay else d
  }

  predicate PossibleDelay(p: Policy, attempt: nat, d: int)
    requires attempt >= 1
  {
    var base := BaseDelay(p, attempt);
    if p.jitter && base > 0 then base / 2 <= d <= base else d == base
  }

  function LeastDelay(p: Policy, attempt: nat): int
    requires attempt >= 1
  {
    if p.jitter && BaseDelay(p, attempt) > 0 then BaseDelay(p, attempt) / 2 else BaseDelay(p, attempt)
  }

  function Capped(p: Policy, d: int): int { if p.maxDelay > 0 && d > p.maxDelay then p.maxDelay else d }

  /** Before jitter a fixed delay stays, and an exponential one doubles until it meets the cap. */
  lemma {:induction false} DelaysDouble(p: Policy, attempt: nat)
    requires p.InRange() && attempt >= 1
    ensures BaseDelay(p, 1) == Capped(p, p.initialDelay)
    ensures BaseDelay(p, attempt + 1) == if p.backoff.Fixed? then BaseDelay(p, attempt) else Capped(p, 2 * BaseDelay(p, attempt))
  {
    assert Pow2(0) == 1;
    assert Pow2(attempt) == 2 * Pow2(attempt - 1);
    var x := Pow2(attempt - 1);
    assert p.initialDelay * (2 * x) == 2 * (p.initialDelay * x);
  }

  /** Before jitter no delay is shorter than an earlier one, nor is the least that jitter may leave of
      it; and none passes maxDelay. */
  lemma {:induction false} DelaysGrow(p: Policy, a: nat, b: nat)
    requires p.InRange() && 1 <= a <= b
    ensures 0 <= BaseDelay(p, a) <= BaseDelay(p, b)
    ensures 0 <= LeastDelay(p, a) <= LeastDelay(p, b)
    ensures p.maxDelay > 0 ==> BaseDelay(p, b) <= p.maxDelay
  {
    PowGrows(a - 1, b - 1);
    ScaleGrows(p.initialDelay, Pow2(a - 1), Pow2(b - 1));
  }

  lemma {:induction false} PowGrows(i: nat, j: nat)
    requires i <= j
    ensures 1 <= Pow2(i) <= Pow2(j)
  {
    if i < j {
      PowGrows(i, j - 1);
    } else if i > 0 {
      PowGrows(i - 1, i - 1);
    }
  }

  lemma {:induction false} ScaleGrows(d: nat, x: nat, y: nat)
    requires x <= y
    ensures 0 <= d * x <= d * y
  {
  }

  // ---- the attempt loop

  /** The surroundings of one Do: each attempt's error, the time elapsed when its retry is decided,
      the delay drawn, and whether the caller's context ends that wait. */
  datatype World = World(err: nat -> Option<Error>, elapsed: nat -> int, delay: nat -> int, cancelled: nat -> bool)

  predicate PossibleWorld(p: Policy, w: World) {
    forall k: nat | 1 <= k <= p.maxAttempts :: PossibleDelay(p, k, w.delay(k)) && w.elapsed(k) >= 0
  }

  predicate OverBudget(p: Policy, w: World, k: nat) {
    p.totalBudget > 0 && w.elapsed(k) + w.delay(k) > p.totalBudget
  }

  /** Attempt k failed and another one follows. */
  predicate Retries(p: Policy, w: World, k: nat) {
    && k < p.maxAttempts
    && w.err(k).Some? && RetriesOn(p, w.err(k).value)
    && !OverBudget(p, w, k) && !w.cancelled(k)
  }

  /** The number of the last attempt, counting from k. */
  function LastAttempt(p: Policy, w: World, k: nat): nat
    decreases p.maxAttempts - k
  {
    if Retries(p, w, k) then LastAttempt(p, w, k + 1) else k
  }

  datatype Decision = Succeeded | ExhaustedRetries | NotRetryable | BudgetExpired | Cancelled

  /** err is the last attempt's, except that a cancelled wait reports the context's own error. */
  datatype Outcome = Outcome(attempts: nat, err: Option<Error>, lastClass: Option<Class>, decision: Decision)

  /** Why the loop stops at attempt k. */
  function Verdict(p: Policy, w: World, k: nat): Decision {
    if w.err(k).None? then Succeeded
    else if !RetriesOn(p, w.err(k).value) then NotRetryable
    else if k >= p.maxAttempts then ExhaustedRetries
    else if OverBudget(p, w, k) then BudgetExpired
    else Cancelled
  }

  method Do(policy: Option<Policy>, w: World, ctxErr: Error) returns (r: Outcome)
    requires policy.Some? ==> PossibleWorld(policy.value, w)
    ensures policy.None? || policy.value.maxAttempts <= 1 ==> r.attempts == 1 && r.err == w.err(1)
    ensures policy.Some? && policy.value.maxAttempts > 1 ==>
              && r.attempts == LastAttempt(policy.value, w, 1) && 1 <= r.attempts <= policy.value.maxAttempts
              && r.decision == Verdict(policy.value, w, r.attempts)
              && r.err == (if r.decision.Cancelled? then Some(ctxErr) else w.err(r.attempts))
    ensures policy.Some? && policy.value.maxAttempts > 1 ==>
              forall k: nat | 1 <= k <= r.attempts :: Retries(policy.value, w, k) <==> k < r.attempts
    ensures r.decision.Succeeded? <==> w.err(r.attempts).None?
    ensures r.lastClass == if w.err(r.attempts).Some? then Some(Classify(w.err(r.attempts).value)) else None
  {
    if policy.None? || policy.value.maxAttempts <= 1 {
      var e := w.err(1);
      return Outcome(1, e, if e.Some? then Some(Classify(e.value)) else None, if e.None? then Succeeded else NotRetryable);
    }
    var p := policy.value;
    var attempt := 1;
    while true
      invariant 1 <= attempt <= p.maxAttempts
      invariant LastAttempt(p, w, 1) == LastAttempt(p, w, attempt)
      invariant forall k: nat | 1 <= k < attempt :: Retries(p, w, k)
      decreases p.maxAttempts - attempt
    {
      var e := w.err(attempt);
      if e.None? {
        return Outcome(attempt, None, None, Succeeded);
      }
      var kind := Classify(e.value);
      ClassDecides(p, e.value);
      if kind !in p.retryOn {
        return Outcome(attempt, e, Some(kind), NotRetryable);
      }
      if attempt == p.maxAttempts {
        return Outcome(attempt, e, Some(kind), ExhaustedRetries);
      }
      if p.totalBudget > 0 && w.elapsed(attempt) + w.delay(attempt) > p.totalBudget {
        return Outcome(attempt, e, Some(kind), BudgetExpired);
      }
      if w.cancelled(attempt) {
        return Outcome(attempt, Some(ctxErr), Some(kind), Cancelled);
      }
      attempt := attempt + 1;
    }
  }

  /** Every attempt before the last failed in a retryable class, within budget. */
  lemma {:induction false} EarlierAttemptsRetried(p: Policy, w: World, from: nat, k: nat)
    requires from <= k < LastAttempt(p, w, from)
    ensures Retries(p, w, k)
    decreases k - from
  {
    if from < k {
      EarlierAttemptsRetried(p, w, from + 1, k);
    }
  }

  // ---- one streaming attempt of the agent loop (builtin/agent/loop.go), and what the retries make of it

  datatype LLMEvent = Content(data: string) | LLMError(e: Error)

  /** What a provider does in one attempt: the events it sends and the error it returns; cutAt, when
      given, is the number of events handled when the attempt's own deadline wins the select. */
  datatype Behaviour = Behaviour(events: seq<LLMEvent>, ret: Option<Error>, cutAt: Option<nat>)

  function Handled(b: Behaviour): seq<LLMEvent> {
    if b.cutAt.Some? && b.cutAt.value <= |b.events| then b.events[..b.cutAt.value] else b.events
  }

  /** The non-error events, in order. */
  function Contents(events: seq<LLMEvent>): seq<string> {
    if events == [] then [] else
    var e := events[|events| - 1];
    Contents(events[..|events| - 1]) + if e.Content? then [e.data] else []
  }

  function LastError(events: seq<LLMEvent>): Option<Error> {
    if events == [] then None else
    var e := events[|events| - 1];
    if e.LLMError? then Some(e.e) else LastError(events[..|events| - 1])
  }

  /** A mid-stream failure, wrapped so that it should not be retried. */
  function MidStream(cause: Error): Error {
    cause.(tool := Some(ToolError(ClassName(StreamEmitted), false)))
  }

  function Cut(b: Behaviour): bool { b.cutAt.Some? && b.cutAt.value <= |b.events| }

  function AttemptError(b: Behaviour): Option<Error> {
    if Cut(b) then Some(DEADLINE) else
    var cause := if b.ret.Some? then b.ret else LastError(b.events);
    if cause.None? then None
    else if Contents(b.events) != [] then Some(MidStream(cause.value)) else cause
  }

  /** The error of an attempt: the deadline when it was cut short; otherwise the error returned or, failing
      that, of the last error event; none without either. After an event has been forwarded it carries a
      tool's error that says not to retry. */
  lemma {:induction false} AttemptFails(b: Behaviour)
    ensures Cut(b) ==> AttemptError(b) == Some(DEADLINE)
    ensures !Cut(b) ==> (AttemptError(b).None? <==> b.ret.None? && forall i | 0 <= i < |b.events| :: b.events[i].Content?)
    ensures !Cut(b) && (exists i :: 0 <= i < |b.events| && b.events[i].Content?) && AttemptError(b).Some? ==>
              AttemptError(b).value.tool == Some(ToolError("stream-already-emitted", false))
    ensures !Cut(b) && AttemptError(b).Some? ==>
              exists cause: Error ::
                && (b.ret == Some(cause) || (b.ret.None? && LastIs(b.events, cause)))
                && AttemptError(b).value == cause.(tool := if Contents(b.events) == [] then cause.tool else Some(ToolError("stream-already-emitted", false)))
  {
    ContentsIff(b.events);
    LastErrorIs(b.events);
    if !Cut(b) && AttemptError(b).Some? {
      var cause := if b.ret.Some? then b.ret.value else LastError(b.events).value;
      assert b.ret == Some(cause) || (b.ret.None? && LastIs(b.events, cause));
    }
  }

  /** The last error event carries e. */
  predicate LastIs(events: seq<LLMEvent>, e: Error) {
    exists i | 0 <= i < |events| :: events[i] == LLMError(e) && forall j | i < j < |events| :: events[j].Content?
  }

  lemma {:induction false} LastErrorAt(events: seq<LLMEvent>) returns (i: nat)
    ensures LastError(events).None? ==> forall j | 0 <= j < |events| :: events[j].Content?
    ensures LastError(events).Some? ==> i < |events| && events[i] == LLMError(LastError(events).value)
    ensures LastError(events).Some? ==> forall j | i < j < |events| :: events[j].Content?
  {
    i := 0;
    if events != [] {
      var n := |events| - 1;
      if events[n].Content? {
        i := LastErrorAt(events[..n]);
      } else {
        i := n;
      }
    }
  }

  lemma {:induction false} LastErrorIs(events: seq<LLMEvent>)
    ensures LastError(events).None? <==> forall i | 0 <= i < |events| :: events[i].Content?
    ensures LastError(events).Some? ==> LastIs(events, LastError(events).value)
  {
    var i := LastErrorAt(events);
  }

  lemma {:induction false} ContentAt(events: seq<LLMEvent>) returns (i: nat)
    ensures Contents(events) == [] ==> forall j | 0 <= j < |events| :: !events[j].Content?
    ensures Contents(events) != [] ==> i < |events| && events[i].Content?
  {
    i := 0;
    if events != [] {
      var n := |events| - 1;
      if events[n].Content? {
        i := n;
      } else {
        i := ContentAt(events[..n]);
      }
    }
  }

  lemma {:induction false} ContentsIff(events: seq<LLMEvent>)
    ensures Contents(events) != [] <==> exists i :: 0 <= i < |events| && events[i].Content?
  {
    var i := ContentAt(events);
  }

  /** The op of the agent loop: forwards every non-error event as it comes, defers errors. */
  method StreamAttempt(b: Behaviour) returns (forwarded: seq<string>, err: Option<Error>)
    ensures forwarded == Contents(Handled(b))
    ensures err == AttemptError(b)
  {
    forwarded := [];
    var emitted, lastErr: Option<Error> := false, None;
    var i := 0;
    while true
      invariant 0 <= i <= |b.events|
      invariant Cut(b) ==> i <= b.cutAt.value
      invariant forwarded == Contents(b.events[..i]) && lastErr == LastError(b.events[..i])
      invariant emitted == (forwarded != [])
      decreases |b.events| - i
    {
      if b.cutAt == Some(i) {
        return forwarded, Some(DEADLINE);
      }
      if i == |b.events| {
        assert b.events[..i] == b.events;
        var cause := if b.ret.Some? then b.ret else lastErr;
        if cause.Some? && emitted {
          return forwarded, Some(MidStream(cause.value));
        }
        return forwarded, cause;
      }
      assert b.events[..i + 1][..i] == b.events[..i];
      match b.events[i] {
        case LLMError(e) => lastErr := Some(e);
        case Content(d) =>
          emitted := true;
          forwarded := forwarded + [d];
      }
      i := i + 1;
    }
  }

  /** A provider's behaviour in each attempt, and the surroundings of the retries. */
  datatype StreamWorld = StreamWorld(provider: nat -> Behaviour, elapsed: nat -> int, delay: nat -> int)

  /** The caller's context stays live: no wait is cancelled, and an attempt is cut short only by a
      per-attempt timeout of the policy. */
  function AsWorld(w: StreamWorld): World {
    World((k: nat) => AttemptError(w.provider(k)), w.elapsed, w.delay, (k: nat) => false)
  }

  predicate LiveWorld(p: Policy, w: StreamWorld) {
    && PossibleWorld(p, AsWorld(w))
    && (p.perAttemptTimeout == 0 ==> forall k: nat | 1 <= k <= p.maxAttempts :: !Cut(w.provider(k)))
  }

  function Forwarded(w: StreamWorld, k: nat): seq<string> { Contents(Handled(w.provider(k))) }

  function Last(p: Policy, w: StreamWorld): nat {
    if p.maxAttempts <= 1 then 1 else LastAttempt(p, AsWorld(w), 1)
  }

  /** No attempt starts after one that has forwarded an event. */
  predicate NeverRestarts(p: Policy, w: StreamWorld) {
    forall k: nat | 1 <= k < Last(p, w) :: Forwarded(w, k) == []
  }

  /** Everything the consumer of the event channel receives before a final error. */
  function Seen(w: StreamWorld, n: nat): seq<string> {
    if n == 0 then [] else Seen(w, n - 1) + Forwarded(w, n)
  }

  /** What a policy must not do: retry on validation, or on timeout when it sets a per-attempt
      timeout, with a budget that leaves room for a first retry. */
  predicate SafeToStream(p: Policy) {
    || p.maxAttempts <= 1
    || (Validation !in p.retryOn && (p.perAttemptTimeout == 0 || Timeout !in p.retryOn))
    || (p.totalBudget > 0 && LeastDelay(p, 1) > p.totalBudget)
  }

  lemma {:induction false} SafeNeverRestarts(p: Policy, w: StreamWorld)
    requires p.InRange() && SafeToStream(p) && LiveWorld(p, w)
    ensures NeverRestarts(p, w)
  {
    forall k: nat | 1 <= k < Last(p, w) ensures Forwarded(w, k) == [] {
      EarlierAttemptsRetried(p, AsWorld(w), 1, k);
      DelaysGrow(p, 1, k);
      var b := w.provider(k);
      if Forwarded(w, k) != [] && !Cut(b) {
        assert Handled(b) == b.events;
        NonRetryableIsValidation(AttemptError(b).value);
        ClassDecides(p, AttemptError(b).value);
      } else if Forwarded(w, k) != [] {
        ClassDecides(p, DEADLINE);
      }
    }
  }

  /** A provider that forwards one event in its first attempt and then fails. */
  function FailsMidStream(cut: bool): Behaviour {
    if cut then Behaviour([Content("x")], None, Some(1))
    else Behaviour([Content("x")], Some(DEADLINE), None)
  }

  lemma {:induction false} UnsafeRestarts(p: Policy) returns (w: StreamWorld)
    requires p.InRange() && !SafeToStream(p)
    ensures LiveWorld(p, w) && !NeverRestarts(p, w)
  {
    var cut := Validation !in p.retryOn;
    w := StreamWorld((k: nat) => FailsMidStream(cut), (k: nat) => 0, (k: nat) => if k >= 1 then LeastDelay(p, k) else 0);
    var b := FailsMidStream(cut);
    assert b.events[..0] == [] && b.events[..1] == b.events && Contents([]) == [];
    assert Contents(b.events) == ["x"] && Handled(b) == b.events;
    assert AsWorld(w).err(1) == AttemptError(b);
    if cut {
      assert Cut(b) && Classify(DEADLINE) == Timeout;
    } else {
      assert !Cut(b) && AttemptError(b) == Some(MidStream(DEADLINE));
      NonRetryableIsValidation(MidStream(DEADLINE));
    }
    ClassDecides(p, AttemptError(b).value);
    assert AsWorld(w).delay(1) == LeastDelay(p, 1) && AsWorld(w).elapsed(1) == 0;
    assert !OverBudget(p, AsWorld(w), 1);
    assert Retries(p, AsWorld(w), 1);
    AttemptsFromAreLater(p, AsWorld(w), 2);
    assert Forwarded(w, 1) == ["x"];
  }

  lemma {:induction false} AttemptsFromAreLater(p: Policy, w: World, k: nat)
    ensures LastAttempt(p, w, k) >= k && !Retries(p, w, LastAttempt(p, w, k))
    decreases p.maxAttempts - k
  {
    if Retries(p, w, k) {
      AttemptsFromAreLater(p, w, k + 1);
    }
  }

  /** Exactly the safe policies keep the loop's promise never to retry mid-stream. */
  lemma {:induction false} NeverRestartsIff(p: Policy)
    requires p.InRange()
    ensures (forall w | LiveWorld(p, w) :: NeverRestarts(p, w)) <==> SafeToStream(p)
  {
    if SafeToStream(p) {
      forall w | LiveWorld(p, w) ensures NeverRestarts(p, w) {
        SafeNeverRestarts(p, w);
      }
    } else {
      var w := UnsafeRestarts(p);
    }
  }

  lemma {:induction false} SeenIsLast(w: StreamWorld, n: nat)
    requires n >= 1 && forall k: nat | 1 <= k < n :: Forwarded(w, k) == []
    ensures Seen(w, n) == Forwarded(w, n)
  {
    if n == 1 {
      assert Seen(w, 0) + Forwarded(w, 1) == Forwarded(w, 1);
    } else {
      SeenIsLast(w, n - 1);
    }
  }

  /** Under a safe policy, for every provider behaviour, the consumer sees exactly the non-error
      events of the last attempt, in order. */
  lemma {:induction false} ConsumerSeesLastAttempt(p: Policy, w: StreamWorld)
    requires p.InRange() && SafeToStream(p) && LiveWorld(p, w)
    ensures Seen(w, Last(p, w)) == Forwarded(w, Last(p, w))
  {
    SafeNeverRestarts(p, w);
    AttemptsFromAreLater(p, AsWorld(w), 1);
    SeenIsLast(w, Last(p, w));
  }

  /** The goroutine around the attempts: what all of them forward, then the error event, if any. It
      comes exactly when the last attempt failed, and is that attempt's error. */
  method ForwardAll(p: Policy, w: StreamWorld) returns (out: seq<string>, failure: Option<Error>)
    requires p.InRange() && LiveWorld(p, w)
    ensures out == Seen(w, Last(p, w))
    ensures SafeToStream(p) ==> out == Forwarded(w, Last(p, w))
    ensures failure == AttemptError(w.provider(Last(p, w)))
  {
    var r := Do(Some(p), AsWorld(w), DEADLINE);
    out := [];
    for k := 0 to r.attempts
      invariant out == Seen(w, k)
    {
      var events, _ := StreamAttempt(w.provider(k + 1));
      out := out + events;
    }
    AttemptsFromAreLater(p, AsWorld(w), 1);
    failure := r.err;
    if SafeToStream(p) {
      ConsumerSeesLastAttempt(p, w);
    }
  }

  /** The defaults are safe; adding a per-attempt timeout, or retryOn "all", makes them unsafe. */
  lemma {:induction false} DefaultPolicies(p: Policy)
    requires p.InRange() && p.maxAttempts > 1 && p.totalBudget == 0
    ensures p.retryOn == [Transient, Timeout] ==> (SafeToStream(p) <==> p.perAttemptTimeout == 0)
    ensures p.retryOn == ALL_CLASSES ==> !SafeToStream(p)
  {
    assert Validation !in [Transient, Timeout] && [Transient, Timeout][1] == Timeout;
    assert ALL_CLASSES[3] == Validation;
  }
}
