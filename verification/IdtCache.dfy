/** The token validator and its cache (pkg/idt/validator.go). Identity may answer anything at any
    time; other goroutines may validate in between; the clock never goes back. */
module IdtCache {
  import opened Wrappers

  const MAX_ENTRIES := 10_000

  /** Identity's reply to one request. */
  datatype Answer =
    | NoReply(err: string)
    | Undecodable(err: string)
    | Result(valid: bool, user: string, account: string, granted: bool, reason: string)
  {
    predicate Allows() { Result? && valid && granted }
  }

  datatype Decision = Decision(allow: bool, reason: string, user: string, account: string)

  const ALLOW_UNNAMED := Decision(true, "", "", "")

  function Deny(reason: string): Decision { Decision(false, reason, "", "") }

  /** The decision on an answer: Identity's allow or, when fail-open, a missing or undecodable reply lets the
      call pass, with Identity's names in the one case and none in the other; a denial says why. */
  predicate Judged(failOpen: bool, a: Answer, d: Decision) {
    && (d.allow <==> a.Allows() || (failOpen && !a.Result?))
    && (d.allow ==> d.reason == "")
    && (d.user, d.account) == (if a.Allows() then (a.user, a.account) else ("", ""))
    && (!d.allow && a.NoReply? ==> d.reason == "VALIDATE_ERROR:" + a.err)
    && (!d.allow && a.Undecodable? ==> d.reason == "DECODE_ERROR:" + a.err)
    && (!d.allow && a.Result? ==> d.reason == if a.valid then "DENIED_FN" else a.reason)
  }

  lemma {:induction false} JudgeMeans(failOpen: bool, a: Answer)
    ensures Judged(failOpen, a, Judge(failOpen, a))
  {
  }

  /** What a validator without a cache decides from an answer. */
  function Judge(failOpen: bool, a: Answer): Decision {
    match a
    case NoReply(err) => if failOpen then ALLOW_UNNAMED else Deny("VALIDATE_ERROR:" + err)
    case Undecodable(err) => if failOpen then ALLOW_UNNAMED else Deny("DECODE_ERROR:" + err)
    case Result(valid, user, account, granted, reason) =>
      if !valid then Deny(reason)
      else if !granted then Deny("DENIED_FN")
      else Decision(true, "", user, account)
  }

  /** What Identity would answer for a token and a function at a time. */
  type Identity = (string, string, nat) -> Answer

  type Hash = string -> string

  function CacheKey(hash: Hash, token: string, fn: string): string { hash(token) + "|" + fn }

  /** Digests of one length, without collisions. */
  ghost predicate GoodHash(hash: Hash) {
    (forall t :: |hash(t)| == 64) && forall t, u {:trigger hash(t), hash(u)} :: hash(t) == hash(u) ==> t == u
  }

  type Key = (string, string) -> string

  /** The cache's keys: the digest of the whole token, and the function asked. */
  function HashedKey(hash: Hash): Key { (token: string, fn: string) => CacheKey(hash, token, fn) }

  /** A key names one token and one function. */
  ghost predicate TellsPairsApart(key: Key) {
    forall t, f, t', f' {:trigger key(t, f), key(t', f')} :: key(t, f) == key(t', f') ==> t == t' && f == f'
  }

  lemma {:induction false} HashedKeyTellsPairsApart(hash: Hash)
    requires GoodHash(hash)
    ensures TellsPairsApart(HashedKey(hash))
  {
    forall t, f, t', f' | CacheKey(hash, t, f) == CacheKey(hash, t', f') ensures t == t' && f == f' {
      KeysTellPairsApart(hash, t, f, t', f');
    }
  }

  /** So does the digest, even when function names hold a "|". */
  lemma {:induction false} KeysTellPairsApart(hash: Hash, token: string, fn: string, token': string, fn': string)
    requires GoodHash(hash) && CacheKey(hash, token, fn) == CacheKey(hash, token', fn')
    ensures token == token' && fn == fn'
  {
    var k, k' := CacheKey(hash, token, fn), CacheKey(hash, token', fn');
    assert k[..64] == hash(token) && k'[..64] == hash(token');
    assert k[65..] == fn && k'[65..] == fn';
  }

  lemma {:induction false} SamePair(key: Key, t: string, f: string, t': string, f': string)
    requires TellsPairsApart(key) && key(t, f) == key(t', f')
    ensures t == t' && f == f'
  {
  }

  datatype Entry = Entry(user: string, account: string, expires: nat)

  /** An allow Identity gave: when it answered, and when it was remembered. */
  datatype Grant = Grant(token: string, fn: string, user: string, account: string, answered: nat, remembered: nat)

  /** Identity did allow it, at most delay before it was remembered. */
  ghost predicate Real(identity: Identity, delay: nat, g: Grant) {
    var a := identity(g.token, g.fn, g.answered);
    a.Allows() && a.user == g.user && a.account == g.account && g.answered <= g.remembered <= g.answered + delay
  }

  /** Every cached entry is a real grant for its key, and expires ttl after it was remembered. */
  ghost predicate Backed(key: Key, identity: Identity, ttl: nat, delay: nat, now: nat, cache: map<string, Entry>, grants: map<string, Grant>) {
    && cache.Keys == grants.Keys
    && forall k | k in cache ::
         var g := grants[k];
         && k == key(g.token, g.fn) && Real(identity, delay, g) && g.remembered <= now
         && cache[k] == Entry(g.user, g.account, g.remembered + ttl)
  }

  /** The entry made for the grant has not expired at the time at. */
  predicate Live(g: Grant, ttl: nat, at: nat) { g.remembered <= at < g.remembered + ttl }

  /** No allow given less than span before at has changed by then. */
  ghost predicate Unrevoked(identity: Identity, token: string, fn: string, at: nat, span: nat) {
    forall t: nat | t <= at < t + span && identity(token, fn, t).Allows() :: identity(token, fn, at) == identity(token, fn, t)
  }

  /** No allow changes within a span: for a span of two moments or more, none ever changes. */
  ghost predicate StableFor(identity: Identity, span: nat) {
    forall token, fn, t: nat, u: nat {:trigger identity(token, fn, t), identity(token, fn, u)} |
      identity(token, fn, t).Allows() && t <= u < t + span :: identity(token, fn, u) == identity(token, fn, t)
  }

  /** Deletes every entry that has expired at now, and no other. */
  method PurgeExpired(now: nat, cache: map<string, Entry>) returns (kept: map<string, Entry>)
    ensures Sub(kept, cache) && |kept| <= |cache|
    ensures forall k | k in cache :: k in kept <==> now < cache[k].expires
  {
    kept := cache;
    var rest := cache.Keys;
    while rest != {}
      invariant rest <= kept.Keys && Sub(kept, cache) && |kept| <= |cache|
      invariant forall k | k in cache && k !in rest :: k in kept <==> now < cache[k].expires
      decreases rest
    {
      var k :| k in rest;
      rest := rest - {k};
      if now >= kept[k].expires {
        SmallerCache(kept, k);
        kept := kept - {k};
      }
    }
  }

  lemma {:induction false} SmallerCache(cache: map<string, Entry>, k: string)
    requires k in cache
    ensures |cache - {k}| < |cache|
  {
    assert (cache - {k}).Keys == cache.Keys - {k};
    assert |(cache - {k}).Keys| == |cache.Keys| - 1;
  }

  function Restricted(grants: map<string, Grant>, keys: set<string>): map<string, Grant> {
    map k | k in grants && k in keys :: grants[k]
  }

  lemma {:induction false} SubKeepsBacked(key: Key, identity: Identity, ttl: nat, delay: nat, now: nat, cache: map<string, Entry>, grants: map<string, Grant>, kept: map<string, Entry>)
    requires Backed(key, identity, ttl, delay, now, cache, grants) && Sub(kept, cache)
    ensures Backed(key, identity, ttl, delay, now, kept, Restricted(grants, kept.Keys))
  {
    assert Restricted(grants, kept.Keys).Keys == kept.Keys;
  }

  predicate Sub(a: map<string, Entry>, b: map<string, Entry>) {
    forall k | k in a :: k in b && a[k] == b[k]
  }

  class Validator {
    const enabled: bool
    const failOpen: bool
    const observeOnly: bool
    const functionId: string
    const ttl: nat
    const delay: nat // how long remembering an allow may lag behind Identity's answer
    const key: Key
    const identity: Identity
    var now: nat
    var cache: map<string, Entry>
    ghost var grants: map<string, Grant>

    /** Allows are remembered at all. */
    predicate Caching() { ttl > 0 && !observeOnly }

    ghost predicate Valid()
      reads this
    {
      |cache| <= MAX_ENTRIES && (!Caching() ==> cache == map[]) && Backed(key, identity, ttl, delay, now, cache, grants)
    }

    constructor (enabled: bool, failOpen: bool, observeOnly: bool, functionId: string, ttl: nat, delay: nat, key: Key, identity: Identity)
      ensures Valid() && cache == map[]
      ensures this.enabled == enabled && this.failOpen == failOpen && this.observeOnly == observeOnly && this.functionId == functionId
      ensures this.ttl == ttl && this.delay == delay && this.key == key && this.identity == identity
    {
      this.enabled, this.failOpen, this.observeOnly, this.functionId := enabled, failOpen, observeOnly, functionId;
      this.ttl, this.delay, this.key, this.identity := ttl, delay, key, identity;
      now, cache, grants := 0, map[], map[];
    }

    method ReadClock() returns (t: nat)
      requires Valid()
      modifies this`now
      ensures Valid() && t == now >= old(now)
    {
      var later: nat := *;
      t := if later > now then later else now;
      LaterKeepsBacked(key, identity, ttl, delay, now, t, cache, grants);
      now := t;
    }

    /** A reading no later than limit. */
    method ReadClockBy(limit: nat) returns (t: nat)
      requires Valid() && now <= limit
      modifies this`now
      ensures Valid() && t == now && old(now) <= now <= limit
    {
      var later: nat := *;
      t := if now <= later <= limit then later else now;
      LaterKeepsBacked(key, identity, ttl, delay, now, t, cache, grants);
      now := t;
    }

    /** A hit is a real allow for exactly this token and function, not yet expired. */
    method Cached(token: string, fn: string) returns (hit: Option<Decision>)
      requires Valid() && TellsPairsApart(key)
      modifies this`now
      ensures Valid() && now >= old(now)
      ensures hit.Some? <==> key(token, fn) in cache && now < cache[key(token, fn)].expires
      ensures hit.Some? ==> Hit(identity, ttl, delay, token, fn, hit.value, now)
    {
      var k := key(token, fn);
      var t := ReadClock();
      if k !in cache || t >= cache[k].expires {
        return None;
      }
      LiveEntryIsHit(key, identity, ttl, delay, now, cache, grants, token, fn);
      return Some(Decision(true, "", cache[k].user, cache[k].account));
    }

    /** Drops expired entries; everything when that leaves no room. */
    method MakeRoom(limit: nat)
      requires Valid() && now <= limit
      modifies this
      ensures Valid() && |cache| < MAX_ENTRIES && old(now) <= now <= limit
      ensures Sub(cache, old(cache)) && (|old(cache)| < MAX_ENTRIES ==> cache == old(cache))
      ensures cache == map[] || forall k | k in old(cache) && now < old(cache)[k].expires :: k in cache
    {
      if |cache| < MAX_ENTRIES {
        return;
      }
      var t := ReadClockBy(limit);
      var kept := PurgeExpired(t, cache);
      Keep(kept);
      if |cache| >= MAX_ENTRIES {
        Keep(map[]);
      }
    }

    method Keep(kept: map<string, Entry>)
      requires Valid() && Sub(kept, cache) && |kept| <= |cache|
      modifies this`cache, this`grants
      ensures Valid() && cache == kept
    {
      ghost var rest := Restricted(grants, kept.Keys);
      SubKeepsBacked(key, identity, ttl, delay, now, cache, grants, kept);
      cache, grants := kept, rest;
    }

    /** Remembers, by limit, an allow Identity gave at time answered. */
    method Remember(token: string, fn: string, a: Answer, answered: nat, limit: nat)
      requires Valid() && answered <= now <= limit <= answered + delay
      requires a == identity(token, fn, answered) && a.Allows() && Caching()
      modifies this
      ensures Valid() && old(now) <= now <= limit
      ensures var k := key(token, fn);
              k in cache && cache[k] == Entry(a.user, a.account, now + ttl) && Sub(cache - {k}, old(cache))
    {
      MakeRoom(limit);
      var t := ReadClockBy(limit);
      Store(key(token, fn), Entry(a.user, a.account, t + ttl), Grant(token, fn, a.user, a.account, answered, t));
    }

    method Store(k: string, e: Entry, ghost g: Grant)
      requires Valid() && |cache| < MAX_ENTRIES && Real(identity, delay, g) && g.remembered <= now
      requires k == key(g.token, g.fn) && e == Entry(g.user, g.account, g.remembered + ttl) && Caching()
      modifies this`cache, this`grants
      ensures Valid() && cache == old(cache)[k := e]
    {
      AddedKeepsBacked(key, identity, ttl, delay, now, cache, grants, g);
      cache, grants := cache[k := e], grants[k := g];
    }

    /** One request to Identity; its answer is back within the delay. Meanwhile other goroutines look
        up, ask and remember as they like, each its own answer and in time. */
    method Ask(token: string, fn: string) returns (a: Answer, answered: nat)
      requires Valid()
      modifies this
      ensures Valid() && old(now) <= answered <= now <= answered + delay && a == identity(token, fn, answered)
    {
      answered := ReadClock();
      a := identity(token, fn, answered);
      var others: int := *;
      for i := 0 to if others > 0 then others else 0
        invariant Valid() && answered <= now <= answered + delay
      {
        var _ := ReadClockBy(answered + delay);
        Other(answered + delay);
      }
    }

    /** Another goroutine's answer, remembered by limit. */
    method Other(limit: nat)
      requires Valid() && now <= limit
      modifies this
      ensures Valid() && old(now) <= now <= limit
    {
      var token, fn := *, *;
      var s: nat := *;
      if s <= now <= s + delay && identity(token, fn, s).Allows() && Caching() {
        Remember(token, fn, identity(token, fn, s), s, if limit <= s + delay then limit else s + delay);
      }
    }

    /** The decision is what Identity's answer at some time within the call means, or a hit; at says when
        the decision's answer, or the lookup, happened. Either way it is what Identity would say at that
        moment, unless it has changed an allow it gave less than ttl + delay before. */
    method Validate(token: string, fn: string) returns (d: Decision, ghost at: nat, ghost hit: bool)
      requires Valid() && TellsPairsApart(key)
      modifies this
      ensures Valid() && old(now) <= at <= now
      ensures token == "" ==> !hit && d == if failOpen then ALLOW_UNNAMED else Deny("MISSING_IDT")
      ensures token != "" && !hit ==> Judged(failOpen, identity(token, fn, at), d)
      ensures token != "" && Unrevoked(identity, token, fn, at, ttl + delay) ==> Judged(failOpen, identity(token, fn, at), d)
      ensures token != "" && StableFor(identity, ttl + delay) ==> Judged(failOpen, identity(token, fn, at), d)
      ensures token != "" && ttl > 0 && !observeOnly && key(token, fn) in old(cache) && now < old(cache)[key(token, fn)].expires ==> hit
      ensures hit ==> token != "" && ttl > 0 && !observeOnly && Hit(identity, ttl, delay, token, fn, d, at)
      ensures token != "" && !hit && ttl > 0 && !observeOnly && identity(token, fn, at).Allows() ==>
                key(token, fn) in cache && cache[key(token, fn)] == Entry(d.user, d.account, now + ttl)
    {
      if token == "" {
        return if failOpen then ALLOW_UNNAMED else Deny("MISSING_IDT"), now, false;
      }
      if ttl > 0 && !observeOnly {
        var found := Cached(token, fn);
        if found.Some? {
          HitAgrees(identity, failOpen, ttl, delay, token, fn, found.value, now);
          return found.value, now, true;
        }
      }
      hit := false;
      d, at := AskAndRemember(token, fn);
    }

    method AskAndRemember(token: string, fn: string) returns (d: Decision, at: nat)
      requires Valid()
      modifies this
      ensures Valid() && old(now) <= at <= now && Judged(failOpen, identity(token, fn, at), d)
      ensures ttl > 0 && !observeOnly && identity(token, fn, at).Allows() ==>
                key(token, fn) in cache && cache[key(token, fn)] == Entry(d.user, d.account, now + ttl)
    {
      var a;
      a, at := Ask(token, fn);
      d := Judge(failOpen, a);
      JudgeMeans(failOpen, a);
      if a.Allows() && ttl > 0 && !observeOnly {
        Remember(token, fn, a, at, at + delay);
      }
    }

    /** The configured function wins over the caller's. Validation that is off lets everything pass. */
    method ValidateIfEnabled(token: string, fallback: string) returns (d: Decision, ghost at: nat, ghost hit: bool)
      requires Valid() && TellsPairsApart(key)
      modifies this
      ensures Valid()
      ensures !enabled ==> d == ALLOW_UNNAMED
      ensures enabled && token == "" ==> d == if failOpen then ALLOW_UNNAMED else Deny("MISSING_IDT")
      ensures enabled && hit ==> Hit(identity, ttl, delay, token, if functionId != "" then functionId else fallback, d, at)
      ensures enabled && token != "" && !hit ==> Judged(failOpen, identity(token, if functionId != "" then functionId else fallback, at), d)
      ensures var fn := if functionId != "" then functionId else fallback;
              enabled && d.allow && !failOpen ==> AllowedBy(identity, ttl, delay, token, fn, d, at)
    {
      if !enabled {
        return ALLOW_UNNAMED, now, false;
      }
      d, at, hit := ValidateForFunction(token, if functionId != "" then functionId else fallback);
    }

    /** The function exactly as given. */
    method ValidateForFunction(token: string, fn: string) returns (d: Decision, ghost at: nat, ghost hit: bool)
      requires Valid() && TellsPairsApart(key)
      modifies this
      ensures Valid()
      ensures !enabled ==> d == ALLOW_UNNAMED
      ensures enabled && token == "" ==> d == if failOpen then ALLOW_UNNAMED else Deny("MISSING_IDT")
      ensures enabled && hit ==> Hit(identity, ttl, delay, token, fn, d, at)
      ensures enabled && token != "" && !hit ==> Judged(failOpen, identity(token, fn, at), d)
      ensures enabled && d.allow && !failOpen ==> AllowedBy(identity, ttl, delay, token, fn, d, at)
    {
      if !enabled {
        return ALLOW_UNNAMED, now, false;
      }
      d, at, hit := Validate(token, fn);
      if !failOpen && d.allow {
        AllowIsBacked(identity, ttl, delay, token, fn, d, at, hit);
      }
    }
  }

  /** d repeats a real allow for this very token and function, remembered less than ttl before at. */
  ghost predicate Hit(identity: Identity, ttl: nat, delay: nat, token: string, fn: string, d: Decision, at: nat) {
    exists g: Grant ::
      && Real(identity, delay, g) && g.token == token && g.fn == fn && Live(g, ttl, at)
      && d == Decision(true, "", g.user, g.account)
  }

  lemma {:induction false} LiveEntryIsHit(key: Key, identity: Identity, ttl: nat, delay: nat, now: nat, cache: map<string, Entry>, grants: map<string, Grant>, token: string, fn: string)
    requires TellsPairsApart(key) && Backed(key, identity, ttl, delay, now, cache, grants)
    requires key(token, fn) in cache && now < cache[key(token, fn)].expires
    ensures var e := cache[key(token, fn)];
            Hit(identity, ttl, delay, token, fn, Decision(true, "", e.user, e.account), now)
  {
    var g := grants[key(token, fn)];
    SamePair(key, token, fn, g.token, g.fn);
    assert Live(g, ttl, now);
  }

  /** Identity allowed this pair, for the user and account of d: at the time at, or as a hit. */
  ghost predicate AllowedBy(identity: Identity, ttl: nat, delay: nat, token: string, fn: string, d: Decision, at: nat) {
    var a := identity(token, fn, at);
    (a.Allows() && a.user == d.user && a.account == d.account) || Hit(identity, ttl, delay, token, fn, d, at)
  }

  lemma {:induction false} AllowIsBacked(identity: Identity, ttl: nat, delay: nat, token: string, fn: string, d: Decision, at: nat, hit: bool)
    requires d.allow && if hit then Hit(identity, ttl, delay, token, fn, d, at) else token != "" && Judged(false, identity(token, fn, at), d)
    ensures AllowedBy(identity, ttl, delay, token, fn, d, at)
  {
  }

  lemma {:induction false} AddedKeepsBacked(key: Key, identity: Identity, ttl: nat, delay: nat, now: nat, cache: map<string, Entry>, grants: map<string, Grant>, g: Grant)
    requires Backed(key, identity, ttl, delay, now, cache, grants) && Real(identity, delay, g) && g.remembered <= now
    ensures var k, e := key(g.token, g.fn), Entry(g.user, g.account, g.remembered + ttl);
            Backed(key, identity, ttl, delay, now, cache[k := e], grants[k := g]) && |cache[k := e]| <= |cache| + 1
  {
    var k, e := key(g.token, g.fn), Entry(g.user, g.account, g.remembered + ttl);
    assert cache[k := e].Keys == cache.Keys + {k};
  }

  lemma {:induction false} LaterKeepsBacked(key: Key, identity: Identity, ttl: nat, delay: nat, now: nat, later: nat, cache: map<string, Entry>, grants: map<string, Grant>)
    requires Backed(key, identity, ttl, delay, now, cache, grants) && now <= later
    ensures Backed(key, identity, ttl, delay, later, cache, grants)
  {
  }

  /** A hit decides as Identity would at that moment, if it has not changed the allow since. */
  lemma {:induction false} HitAgrees(identity: Identity, failOpen: bool, ttl: nat, delay: nat, token: string, fn: string, d: Decision, at: nat)
    requires Hit(identity, ttl, delay, token, fn, d, at)
    ensures Unrevoked(identity, token, fn, at, ttl + delay) ==> Judged(failOpen, identity(token, fn, at), d)
    ensures StableFor(identity, ttl + delay) ==> Judged(failOpen, identity(token, fn, at), d)
  {
    var g: Grant :| && Real(identity, delay, g) && g.token == token && g.fn == fn && Live(g, ttl, at)
                    && d == Decision(true, "", g.user, g.account);
    assert identity(token, fn, g.answered).Allows();
    if StableFor(identity, ttl + delay) {
      assert identity(token, fn, at) == identity(token, fn, g.answered);
    }
  }

  // ---- how old a hit may be

  /** Identity allows at time 0 and has revoked everything at time 1. */
  function Fleeting(): Identity {
    (token: string, fn: string, t: nat) => if t == 0 then Result(true, "u", "a", true, "") else Result(false, "", "", false, "REVOKED")
  }

  /** Answered at 0, remembered as late as may be. */
  function Late(delay: nat): Grant { Grant("t", "f", "u", "a", 0, delay) }

  /** A revoked allow older than the ttl is still a hit: with ttl 10 and an answer remembered 5 later,
      14 after it was given. */
  lemma {:induction false} StaleHit(key: Key)
    ensures var k := key("t", "f");
            && Backed(key, Fleeting(), 10, 5, 14, map[k := Entry("u", "a", 15)], map[k := Late(5)])
            && Hit(Fleeting(), 10, 5, "t", "f", Decision(true, "", "u", "a"), 14)
    ensures forall failOpen, t: nat | t > 0 :: Judge(failOpen, Fleeting()("t", "f", t)) == Deny("REVOKED")
  {
    assert Real(Fleeting(), 5, Late(5)) && Live(Late(5), 10, 14);
  }

  /** The answer behind a hit is always less than span old exactly when span covers the ttl and the delay. */
  lemma {:induction false} HitAgeIff(ttl: nat, delay: nat, span: nat)
    ensures (forall identity: Identity, g: Grant, at: nat | Real(identity, delay, g) && Live(g, ttl, at) ::
               at < g.answered + span) <==> ttl == 0 || ttl + delay <= span
  {
    if ttl > 0 && span < ttl + delay {
      assert Real(Fleeting(), delay, Late(delay));
      var at: nat := ttl + delay - 1;
      assert Live(Late(delay), ttl, at);
    }
  }

  /** For every Identity that has not changed an allow within the last span, hits decide as it would:
      exactly when span covers the ttl and the delay, or no hit can be older than its answer. */
  lemma {:induction false} HitsAgreeIff(failOpen: bool, ttl: nat, delay: nat, span: nat)
    ensures (forall identity: Identity, token, fn, d, at: nat |
               Unrevoked(identity, token, fn, at, span) && Hit(identity, ttl, delay, token, fn, d, at) ::
               Judged(failOpen, identity(token, fn, at), d)) <==> ttl == 0 || ttl + delay <= span || ttl + delay == 1
  {
    if ttl == 0 || ttl + delay <= span || ttl + delay == 1 {
      forall identity: Identity, token, fn, d, at: nat |
        Unrevoked(identity, token, fn, at, span) && Hit(identity, ttl, delay, token, fn, d, at)
        ensures Judged(failOpen, identity(token, fn, at), d)
      {
        HitAgrees(identity, failOpen, ttl, delay, token, fn, d, at);
      }
    } else {
      var at: nat := ttl + delay - 1;
      var d := Decision(true, "", "u", "a");
      assert Real(Fleeting(), delay, Late(delay));
      assert Live(Late(delay), ttl, at);
      assert Hit(Fleeting(), ttl, delay, "t", "f", d, at);
      assert Unrevoked(Fleeting(), "t", "f", at, span);
      assert d != Judge(failOpen, Fleeting()("t", "f", at));
    }
  }
}
