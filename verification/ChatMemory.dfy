/** Chat memory in DynamoDB (pkg/workflow/builtin/dynamomemory/memory.go): a table of items under
    textual keys, refining a list of turns per session. */
module ChatMemory {
  import opened Wrappers
  import opened JoinedKeys
  import opened Messages

  // ---- order of texts

  /** The order of sort keys: first difference decides, a proper prefix comes first. */
  predicate Less(a: string, b: string) {
    b != "" && (a == "" || a[0] < b[0] || (a[0] == b[0] && Less(a[1..], b[1..])))
  }

  lemma {:induction false} LessIsStrict(a: string, b: string)
    ensures Less(a, b) ==> a != b && !Less(b, a)
  {
    if a != "" && b != "" {
      LessIsStrict(a[1..], b[1..]);
    }
  }

  lemma {:induction false} LessEarly(a: string, b: string, x: string, y: string)
    requires |a| == |b| && Less(a, b)
    ensures Less(a + x, b + y)
  {
    if a != "" {
      assert (a + x)[1..] == a[1..] + x && (b + y)[1..] == b[1..] + y;
      if a[0] == b[0] && Less(a[1..], b[1..]) {
        LessEarly(a[1..], b[1..], x, y);
      }
    }
  }

  lemma {:induction false} LessLate(a: string, x: string, y: string)
    requires Less(x, y)
    ensures Less(a + x, a + y)
  {
    if a == "" {
      assert a + x == x && a + y == y;
    } else {
      assert (a + x)[1..] == a[1..] + x && (a + y)[1..] == a[1..] + y;
      LessLate(a[1..], x, y);
    }
  }

  function Pow10(w: nat): nat { if w == 0 then 1 else 10 * Pow10(w - 1) }

  const DIGITS := "0123456789"

  /** n in decimal, zero-padded to w digits. */
  function Padded(n: nat, w: nat): (s: string)
    ensures |s| == w
  {
    if w == 0 then "" else Padded(n / 10, w - 1) + [DIGITS[n % 10]]
  }

  /** Zero-padded decimal order is numeric order. */
  lemma {:induction false} PaddedOrder(a: nat, b: nat, w: nat)
    requires a < b < Pow10(w)
    ensures Less(Padded(a, w), Padded(b, w))
  {
    if a / 10 < b / 10 {
      PaddedOrder(a / 10, b / 10, w - 1);
      LessEarly(Padded(a / 10, w - 1), Padded(b / 10, w - 1), [DIGITS[a % 10]], [DIGITS[b % 10]]);
    } else {
      DigitsOrder(a % 10, b % 10);
      LessLate(Padded(a / 10, w - 1), [DIGITS[a % 10]], [DIGITS[b % 10]]);
    }
  }

  lemma {:induction false} DigitsOrder(i: nat, j: nat)
    requires i < j < 10
    ensures Less([DIGITS[i]], [DIGITS[j]])
  {
    assert DIGITS[i] as int == '0' as int + i && DIGITS[j] as int == '0' as int + j;
  }

  // ---- keys

  datatype MemoryKey = MemoryKey(workflow: string, account: string, user: string, session: string)

  function BuildPK(k: MemoryKey): string {
    k.workflow + "#" + k.account + "#" + k.user + "#" + k.session
  }

  function PartsOf(k: MemoryKey): Parts { Parts(k.workflow, k.account, k.user, k.session) }

  /** A session shares its partition with no other key exactly when no part of its key holds a "#". */
  lemma {:induction false} PartitionIsPrivateIff(k: MemoryKey)
    ensures (forall l :: BuildPK(l) == BuildPK(k) ==> l == k)
            <==> '#' !in k.workflow && '#' !in k.account && '#' !in k.user && '#' !in k.session
  {
    var p := PartsOf(k);
    PrivateIff('#', p);
    if p.Free('#') {
      forall l | BuildPK(l) == BuildPK(k) ensures l == k {
        assert Joined('#', PartsOf(l)) == Joined('#', p);
      }
    } else {
      var q := Collides('#', p);
      assert BuildPK(MemoryKey(q.a, q.b, q.c, q.d)) == BuildPK(k);
    }
  }

  // ---- the table

  datatype Item = Item(role: string, content: string)

  datatype Turn = Turn(user: Message, assistant: Message)

  /** A turn and the millisecond it was written in. */
  datatype Stamped = Stamped(ms: nat, turn: Turn)

  const WIDTH := 13

  function SortKey(ms: nat, second: bool): string {
    Padded(ms, WIDTH) + "#" + if second then "1" else "0"
  }

  function RoleName(r: Role): string { if r.User? then "user" else "assistant" }

  function RoleOf(name: string): Role { if name == "user" then User else Assistant }

  /** Trigger-wise, a pair is looked at only when both comparisons come up. */
  ghost predicate Strict(less: (string, string) -> bool) {
    forall a, b {:trigger less(a, b), less(b, a)} :: less(a, b) ==> a != b && !less(b, a)
  }

  /** How the table stores things: the JSON form of a message's blocks, the sort key of a turn's first
      or second message, the order of sort keys, and the first millisecond that is too late. */
  datatype Codec = Codec(
    encode: seq<Block> -> string, decode: string -> Option<seq<Block>>,
    key: (nat, bool) -> string, less: (string, string) -> bool, end: nat)
  {
    /** Decoding undoes encoding; keys follow time, and the user's before the assistant's. */
    ghost predicate Sound() {
      && (forall c :: decode(encode(c)) == Some(c))
      && Strict(less)
      && forall a: nat, second, b: nat, second' {:trigger less(key(a, second), key(b, second'))} | a < b < end || (a == b && !second && second') :: less(key(a, second), key(b, second'))
    }
  }

  /** What the table uses: sort keys of thirteen digits, compared as texts. */
  function DynamoCodec(encode: seq<Block> -> string, decode: string -> Option<seq<Block>>): Codec {
    Codec(encode, decode, (ms: nat, second: bool) => SortKey(ms, second), (a: string, b: string) => Less(a, b), Pow10(WIDTH))
  }

  lemma {:induction false} DynamoCodecIsSound(encode: seq<Block> -> string, decode: string -> Option<seq<Block>>)
    requires forall c :: decode(encode(c)) == Some(c)
    ensures DynamoCodec(encode, decode).Sound()
  {
    forall a: string, b: string | Less(a, b) ensures a != b && !Less(b, a) {
      LessIsStrict(a, b);
    }
    forall a: nat, second, b: nat, second' | a < b < Pow10(WIDTH) || (a == b && !second && second')
      ensures Less(SortKey(a, second), SortKey(b, second'))
    {
      SortKeysAscend(a, second, b, second');
    }
  }

  function ItemOf(codec: Codec, m: Message): Item { Item(RoleName(m.role), codec.encode(m.content)) }

  /** The k-th message of the session, counting every turn's user message before its answer. */
  function MessageAt(turns: seq<Stamped>, k: nat): Message
    requires k < 2 * |turns|
  {
    if k % 2 == 0 then turns[k / 2].turn.user else turns[k / 2].turn.assistant
  }

  function KeyAt(codec: Codec, turns: seq<Stamped>, k: nat): string
    requires k < 2 * |turns|
  {
    codec.key(turns[k / 2].ms, k % 2 == 1)
  }

  type Partition = map<string, Item>

  predicate Ascending(end: nat, turns: seq<Stamped>) {
    && (forall i | 0 <= i < |turns| :: turns[i].ms < end)
    && forall i, j | 0 <= i < j < |turns| :: turns[i].ms < turns[j].ms
  }

  function KeysOf(codec: Codec, turns: seq<Stamped>): seq<string> {
    seq(2 * |turns|, k requires 0 <= k < 2 * |turns| => KeyAt(codec, turns, k))
  }

  function ItemsOf(codec: Codec, turns: seq<Stamped>): seq<Item> {
    seq(2 * |turns|, k requires 0 <= k < 2 * |turns| => ItemOf(codec, MessageAt(turns, k)))
  }

  predicate Sorted(less: (string, string) -> bool, keys: seq<string>) {
    forall i, j | 0 <= i < j < |keys| :: less(keys[i], keys[j])
  }

  /** p has exactly these keys, in this order, with these items. */
  predicate Lists(less: (string, string) -> bool, p: Partition, keys: seq<string>, items: seq<Item>) {
    && |keys| == |items| == |p| && Sorted(less, keys)
    && (forall i | 0 <= i < |keys| :: keys[i] in p && p[keys[i]] == items[i])
    && forall sk | sk in p :: sk in keys
  }

  /** The partition holds exactly the messages of these turns, in order of their keys. */
  predicate Holds(codec: Codec, p: Partition, turns: seq<Stamped>) {
    Ascending(codec.end, turns) && Lists(codec.less, p, KeysOf(codec, turns), ItemsOf(codec, turns))
  }

  lemma {:induction false} SortKeysAscend(a: nat, second: bool, b: nat, second': bool)
    requires a < b < Pow10(WIDTH) || (a == b && !second && second')
    ensures Less(SortKey(a, second), SortKey(b, second'))
  {
    var x, y := if second then "1" else "0", if second' then "1" else "0";
    if a < b {
      PaddedOrder(a, b, WIDTH);
      LessEarly(Padded(a, WIDTH), Padded(b, WIDTH), "#" + x, "#" + y);
      assert Padded(a, WIDTH) + "#" + x == Padded(a, WIDTH) + ("#" + x);
      assert Padded(b, WIDTH) + "#" + y == Padded(b, WIDTH) + ("#" + y);
    } else {
      assert Less("0", "1");
      LessLate(Padded(a, WIDTH) + "#", "0", "1");
    }
  }

  // ---- queries

  /** What a descending query of one partition may answer: the greatest keys, at most limit of them. */
  predicate Answers(less: (string, string) -> bool, p: Partition, limit: nat, out: seq<string>) {
    && |out| == (if |p| <= limit then |p| else limit)
    && (forall i | 0 <= i < |out| :: out[i] in p)
    && (forall i, j | 0 <= i < j < |out| :: less(out[j], out[i]))
    && forall sk, i | sk in p && sk !in out && 0 <= i < |out| :: less(sk, out[i])
  }

  /** The i greatest keys, greatest first. */
  predicate Tail(keys: seq<string>, out: seq<string>, i: nat)
    requires i <= |out| && i <= |keys|
  {
    forall j | 0 <= j < i :: out[j] == keys[|keys| - 1 - j]
  }

  /** The answer is the partition's last keys, greatest first. */
  lemma {:induction false} AnswerIsTail(less: (string, string) -> bool, p: Partition, keys: seq<string>, items: seq<Item>, limit: nat, out: seq<string>, i: nat)
    requires Strict(less) && Lists(less, p, keys, items) && Answers(less, p, limit, out) && i <= |out|
    ensures i <= |keys| && Tail(keys, out, i)
  {
    if i > 0 {
      AnswerIsTail(less, p, keys, items, limit, out, i - 1);
      NextOfTail(less, p, keys, items, limit, out, i - 1);
    }
  }

  lemma {:induction false} NextOfTail(less: (string, string) -> bool, p: Partition, keys: seq<string>, items: seq<Item>, limit: nat, out: seq<string>, i: nat)
    requires Strict(less) && Lists(less, p, keys, items) && Answers(less, p, limit, out)
    requires i < |out| && i < |keys| && Tail(keys, out, i)
    ensures out[i] == keys[|keys| - 1 - i]
  {
    var n := |keys|;
    IsGreatest(less, p, keys, items, limit, out, i);
    assert out[i] in p;
    var e: nat :| e < n && keys[e] == out[i];
    PlaceOf(less, keys, n - 1 - i, e);
    NotSeen(less, keys, out, i);
  }

  lemma {:induction false} NotSeen(less: (string, string) -> bool, keys: seq<string>, out: seq<string>, i: nat)
    requires Strict(less) && i < |out| && i < |keys| && Tail(keys, out, i)
    requires forall j | 0 <= j < i :: less(out[i], out[j])
    ensures forall f | |keys| - 1 - i < f < |keys| :: keys[f] != out[i]
  {
    forall f | |keys| - 1 - i < f < |keys| ensures keys[f] != out[i] {
      assert out[|keys| - 1 - f] == keys[f] && less(out[i], out[|keys| - 1 - f]);
    }
  }

  /** The query always has an answer: the last keys, reversed. */
  lemma {:induction false} AnswerExists(less: (string, string) -> bool, p: Partition, keys: seq<string>, items: seq<Item>, limit: nat) returns (out: seq<string>)
    requires Strict(less) && Lists(less, p, keys, items)
    ensures Answers(less, p, limit, out)
  {
    var n, m := |keys|, if |keys| <= limit then |keys| else limit;
    out := seq(m, i requires 0 <= i < m => keys[n - 1 - i]);
    TailDescends(less, keys, out);
    TailIsIn(p, keys, out);
    forall sk, i | sk in p && sk !in out && 0 <= i < |out| ensures less(sk, out[i]) {
      OthersAreLess(less, p, keys, items, out, sk, i);
    }
  }

  lemma {:induction false} TailIsIn(p: Partition, keys: seq<string>, out: seq<string>)
    requires |out| <= |keys| && Tail(keys, out, |out|) && forall i | 0 <= i < |keys| :: keys[i] in p
    ensures forall i | 0 <= i < |out| :: out[i] in p
  {
  }

  lemma {:induction false} TailDescends(less: (string, string) -> bool, keys: seq<string>, out: seq<string>)
    requires Sorted(less, keys) && |out| <= |keys| && Tail(keys, out, |out|)
    ensures forall i, j | 0 <= i < j < |out| :: less(out[j], out[i])
  {
    forall i, j | 0 <= i < j < |out| ensures less(out[j], out[i]) {
      assert less(keys[|keys| - 1 - j], keys[|keys| - 1 - i]);
    }
  }

  lemma {:induction false} OthersAreLess(less: (string, string) -> bool, p: Partition, keys: seq<string>, items: seq<Item>, out: seq<string>, sk: string, i: nat)
    requires Lists(less, p, keys, items) && |out| <= |keys| && Tail(keys, out, |out|)
    requires sk in p && sk !in out && i < |out|
    ensures less(sk, out[i])
  {
    var e: nat :| e < |keys| && keys[e] == sk;
    NotInTail(keys, out, e);
    assert out[i] == keys[|keys| - 1 - i];
  }

  lemma {:induction false} NotInTail(keys: seq<string>, out: seq<string>, e: nat)
    requires e < |keys| && |out| <= |keys| && forall i | 0 <= i < |out| :: out[i] == keys[|keys| - 1 - i]
    requires keys[e] !in out
    ensures e < |keys| - |out|
  {
    forall f | |keys| - |out| <= f < |keys| ensures keys[f] in out {
      assert out[|keys| - 1 - f] == keys[f];
    }
  }

  /** After the i greatest keys comes the next one, or something greater. */
  lemma {:induction false} IsGreatest(less: (string, string) -> bool, p: Partition, keys: seq<string>, items: seq<Item>, limit: nat, out: seq<string>, i: nat)
    requires Strict(less) && Lists(less, p, keys, items) && Answers(less, p, limit, out)
    requires i < |out| && i < |keys| && Tail(keys, out, i)
    ensures out[i] == keys[|keys| - 1 - i] || less(keys[|keys| - 1 - i], out[i])
  {
    var x := keys[|keys| - 1 - i];
    forall m | 0 <= m < i ensures out[m] != x {
      assert out[m] == keys[|keys| - 1 - m] && less(x, keys[|keys| - 1 - m]);
    }
    assert x in p;
  }

  lemma {:induction false} PlaceOf(less: (string, string) -> bool, keys: seq<string>, a: nat, e: nat)
    requires Strict(less) && Sorted(less, keys) && a < |keys| && e < |keys|
    ensures keys[a] == keys[e] || less(keys[a], keys[e]) ==> a <= e
  {
    assert e < a ==> less(keys[e], keys[a]);
  }

  // ---- the memory

  const MAX_APPEND_RETRIES := 5

  function LastTurns(turns: seq<Stamped>, n: nat): seq<Stamped> {
    if |turns| <= n then turns else turns[|turns| - n..]
  }

  /** A conversation as Load returns it: user before assistant, oldest turn first. */
  function Conversation(turns: seq<Stamped>): seq<Message> {
    seq(2 * |turns|, k requires 0 <= k < 2 * |turns| => MessageAt(turns, k))
  }

  /** The table holds exactly these turns, none written after now. */
  ghost predicate Represents(codec: Codec, table: map<string, Partition>, sessions: map<string, seq<Stamped>>, now: nat) {
    && table.Keys == sessions.Keys
    && (forall pk | pk in table :: Holds(codec, table[pk], sessions[pk]))
    && forall pk | pk in sessions :: WrittenBy(sessions[pk], now)
  }

  predicate WrittenBy(turns: seq<Stamped>, now: nat) {
    forall i | 0 <= i < |turns| :: turns[i].ms <= now
  }

  function PartitionOf(table: map<string, Partition>, pk: string): Partition {
    if pk in table then table[pk] else map[]
  }

  function TurnsOf(sessions: map<string, seq<Stamped>>, pk: string): seq<Stamped> {
    if pk in sessions then sessions[pk] else []
  }

  /** Between one and five replies: only the last may be anything but taken, and fewer than five only if
      it is. */
  predicate RetriedWhileTaken(tries: seq<Attempt>) {
    && 1 <= |tries| <= MAX_APPEND_RETRIES
    && (forall i | 0 <= i < |tries| - 1 :: tries[i].Taken?)
    && (tries[|tries| - 1].Taken? ==> |tries| == MAX_APPEND_RETRIES)
  }

  lemma {:induction false} OneMoreReply(before: seq<Attempt>, replies: seq<Attempt>, tries: seq<Attempt>, r: Attempt)
    requires replies == before + tries + [r] && |tries| < MAX_APPEND_RETRIES && forall i | 0 <= i < |tries| :: tries[i].Taken?
    ensures replies == before + (tries + [r])
    ensures !r.Taken? || |tries| + 1 == MAX_APPEND_RETRIES ==> RetriedWhileTaken(tries + [r])
    ensures r.Taken? ==> forall i | 0 <= i < |tries + [r]| :: (tries + [r])[i].Taken?
  {
    assert before + tries + [r] == before + (tries + [r]);
  }

  /** One of the two keys of this millisecond is in the partition. */
  predicate KeyTaken(codec: Codec, table: map<string, Partition>, pk: string, ms: nat) {
    codec.key(ms, false) in PartitionOf(table, pk) || codec.key(ms, true) in PartitionOf(table, pk)
  }

  class DynamoMemory {
    const codec: Codec
    const maxTurns: nat
    var table: map<string, Partition>
    var now: nat
    ghost var sessions: map<string, seq<Stamped>>
    ghost var replies: seq<Attempt>

    ghost predicate Valid()
      reads this
    {
      codec.Sound() && now < codec.end && Represents(codec, table, sessions, now)
    }

    ghost function Turns(k: MemoryKey): seq<Stamped>
      reads this
    {
      TurnsOf(sessions, BuildPK(k))
    }

    constructor (codec: Codec, maxTurns: nat)
      requires codec.Sound() && codec.end > 0
      ensures Valid() && sessions == map[] && this.codec == codec && this.maxTurns == maxTurns
    {
      this.codec, this.maxTurns := codec, maxTurns;
      table, now, sessions, replies := map[], 0, map[], [];
    }

    /** Any later time; the clock never goes back, and its milliseconds keep thirteen digits. */
    method ReadClock() returns (ms: nat)
      requires Valid()
      modifies this`now
      ensures Valid() && ms == now >= old(now)
    {
      var later: nat := *;
      LaterStillRepresents(codec, table, sessions, now, if now < later < codec.end then later else now);
      now := if now < later < codec.end then later else now;
      ms := now;
    }

    /** What the table makes of the two puts of one transaction: both, or neither when a key is taken. The
        call may fail on the way there, or on the way back, when only the reply is lost. */
    method Transact(pk: string, s: Stamped) returns (r: Attempt)
      requires Valid() && s.ms == now
      modifies this`table, this`sessions, this`replies
      ensures Valid() && replies == old(replies) + [r]
      ensures r.Written? ==> !KeyTaken(codec, old(table), pk, s.ms) && sessions == old(sessions)[pk := TurnsOf(old(sessions), pk) + [s]]
      ensures r.Taken? ==> KeyTaken(codec, table, pk, s.ms) && sessions == old(sessions) && table == old(table)
      ensures r.Failed? ==> (sessions == old(sessions) && table == old(table)) || sessions == old(sessions)[pk := TurnsOf(old(sessions), pk) + [s]]
    {
      var unreached, lost: bool := *, *;
      if unreached {
        r := Attempt.Failed;
      } else if KeyTaken(codec, table, pk, s.ms) {
        r := if lost then Attempt.Failed else Taken;
      } else {
        WrittenStillRepresents(codec, table, sessions, now, pk, s);
        table := table[pk := WithTurn(codec, PartitionOf(table, pk), s)];
        sessions := sessions[pk := TurnsOf(sessions, pk) + [s]];
        r := if lost then Attempt.Failed else Written;
      }
      replies := replies + [r];
    }

    /** One transaction, stamped with the time of the call; the result is its reply. */
    method AppendOnce(k: MemoryKey, t: Turn) returns (r: Attempt)
      requires Valid()
      modifies this`table, this`sessions, this`replies, this`now
      ensures Valid() && now >= old(now) && replies == old(replies) + [r]
      ensures r.Written? ==> sessions == old(sessions)[BuildPK(k) := old(Turns(k)) + [Stamped(now, t)]]
      ensures r.Taken? ==> sessions == old(sessions) && table == old(table) && KeyTaken(codec, table, BuildPK(k), now)
      ensures r.Failed? ==> (sessions == old(sessions) && table == old(table))
                            || sessions == old(sessions)[BuildPK(k) := old(Turns(k)) + [Stamped(now, t)]]
    {
      var ms := ReadClock();
      r := Transact(BuildPK(k), Stamped(ms, t));
    }

    /** Tries again as long as the reply is that a key is taken, five times at most, and succeeds exactly
        when a transaction is reported written; so a turn is never written twice: a failure leaves the
        sessions as they were or with this turn once. tries are the replies, in order. */
    method Append(k: MemoryKey, t: Turn) returns (ok: bool, ghost tries: seq<Attempt>)
      requires Valid()
      modifies this`table, this`sessions, this`replies, this`now
      ensures Valid()
      ensures replies == old(replies) + tries && RetriedWhileTaken(tries)
      ensures ok <==> tries[|tries| - 1].Written?
      ensures ok ==> sessions == old(sessions)[BuildPK(k) := old(Turns(k)) + [Stamped(now, t)]]
      ensures !ok ==> (sessions == old(sessions) && table == old(table))
                      || sessions == old(sessions)[BuildPK(k) := old(Turns(k)) + [Stamped(now, t)]]
    {
      tries := [];
      for attempt := 0 to MAX_APPEND_RETRIES
        invariant Valid() && sessions == old(sessions) && table == old(table)
        invariant replies == old(replies) + tries && |tries| == attempt
        invariant forall i | 0 <= i < attempt :: tries[i].Taken?
      {
        var r := AppendOnce(k, t);
        OneMoreReply(old(replies), replies, tries, r);
        tries := tries + [r];
        if r.Written? {
          return true, tries;
        }
        if r.Failed? {
          return false, tries;
        }
      }
      return false, tries;
    }

    /** out is whatever answer the query gives. The result is the last maxTurns turns, oldest first,
        the user before the assistant. */
    method Load(k: MemoryKey, out: seq<string>) returns (msgs: seq<Message>)
      requires Valid()
      requires Answers(codec.less, PartitionOf(table, BuildPK(k)), 2 * maxTurns, out)
      ensures msgs == Conversation(LastTurns(Turns(k), maxTurns))
    {
      SessionHolds(codec, table, sessions, now, BuildPK(k));
      msgs := LoadPartition(codec, PartitionOf(table, BuildPK(k)), TurnsOf(sessions, BuildPK(k)), maxTurns, out);
    }
  }

  method LoadPartition(codec: Codec, p: Partition, ghost turns: seq<Stamped>, max: nat, out: seq<string>) returns (msgs: seq<Message>)
    requires codec.Sound() && Holds(codec, p, turns) && Answers(codec.less, p, 2 * max, out)
    ensures msgs == Conversation(LastTurns(turns, max))
  {
    AnswerReads(codec, p, turns, max, out);
    msgs := ReadBack(codec, p, out, turns, max);
  }

  /** Every answer decodes: the i-th is the i-th newest message. */
  ghost predicate AllRead(codec: Codec, p: Partition, out: seq<string>, turns: seq<Stamped>) {
    && |out| <= 2 * |turns|
    && forall i | 0 <= i < |out| :: out[i] in p && Reads(codec, p[out[i]], MessageAt(turns, 2 * |turns| - 1 - i))
  }

  /** The item decodes to this message. */
  predicate Reads(codec: Codec, item: Item, m: Message) {
    RoleOf(item.role) == m.role && codec.decode(item.content) == Some(m.content)
  }

  /** Fills the result from its end, so that the newest message comes last. */
  method ReadBack(codec: Codec, p: Partition, out: seq<string>, ghost turns: seq<Stamped>, ghost max: nat) returns (msgs: seq<Message>)
    requires AllRead(codec, p, out, turns) && |out| == 2 * |LastTurns(turns, max)|
    ensures msgs == Conversation(LastTurns(turns, max))
  {
    var n := |out|;
    var slots := new Message[n](_ => Says(User, ""));
    for i := 0 to n
      invariant forall j | n - i <= j < n :: slots[j] == MessageAt(turns, 2 * |turns| - n + j)
    {
      var item := p[out[i]];
      var blocks := codec.decode(item.content);
      assert Reads(codec, item, MessageAt(turns, 2 * |turns| - 1 - i));
      if blocks.None? {
        assert false;
      } else {
        slots[n - 1 - i] := Message(RoleOf(item.role), blocks.value);
      }
    }
    msgs := slots[..];
    TailOfConversation(turns, max, msgs);
  }

  lemma {:induction false} SessionHolds(codec: Codec, table: map<string, Partition>, sessions: map<string, seq<Stamped>>, now: nat, pk: string)
    requires Represents(codec, table, sessions, now)
    ensures Holds(codec, PartitionOf(table, pk), TurnsOf(sessions, pk)) && WrittenBy(TurnsOf(sessions, pk), now)
  {
    EmptyHolds(codec);
  }

  lemma {:induction false} LaterStillRepresents(codec: Codec, table: map<string, Partition>, sessions: map<string, seq<Stamped>>, now: nat, later: nat)
    requires Represents(codec, table, sessions, now) && now <= later
    ensures Represents(codec, table, sessions, later)
  {
  }

  lemma {:induction false} WrittenStillRepresents(codec: Codec, table: map<string, Partition>, sessions: map<string, seq<Stamped>>, now: nat, pk: string, s: Stamped)
    requires codec.Sound() && Represents(codec, table, sessions, now) && s.ms == now < codec.end
    requires codec.key(s.ms, false) !in PartitionOf(table, pk)
    ensures Represents(codec, table[pk := WithTurn(codec, PartitionOf(table, pk), s)], sessions[pk := TurnsOf(sessions, pk) + [s]], now)
  {
    SessionHolds(codec, table, sessions, now, pk);
    AddTurn(codec, PartitionOf(table, pk), TurnsOf(sessions, pk), s);
    WrittenByMore(TurnsOf(sessions, pk), s, now);
    ReplacedStillRepresents(codec, table, sessions, now, pk, WithTurn(codec, PartitionOf(table, pk), s), TurnsOf(sessions, pk) + [s]);
  }

  lemma {:induction false} WrittenByMore(turns: seq<Stamped>, s: Stamped, now: nat)
    requires WrittenBy(turns, now) && s.ms <= now
    ensures WrittenBy(turns + [s], now)
  {
  }

  lemma {:induction false} ReplacedStillRepresents(codec: Codec, table: map<string, Partition>, sessions: map<string, seq<Stamped>>, now: nat, pk: string, p: Partition, turns: seq<Stamped>)
    requires Represents(codec, table, sessions, now) && Holds(codec, p, turns) && WrittenBy(turns, now)
    ensures Represents(codec, table[pk := p], sessions[pk := turns], now)
  {
  }

  datatype Attempt = Written | Taken | Failed

  lemma {:induction false} TailOfConversation(turns: seq<Stamped>, max: nat, msgs: seq<Message>)
    requires |msgs| == 2 * |LastTurns(turns, max)|
    requires forall j | 0 <= j < |msgs| :: msgs[j] == MessageAt(turns, 2 * |turns| - |msgs| + j)
    ensures msgs == Conversation(LastTurns(turns, max))
  {
  }

  /** Reading back the i-th answer gives the i-th newest message. */
  lemma {:induction false} ItemRead(codec: Codec, p: Partition, keys: seq<string>, items: seq<Item>, turns: seq<Stamped>, limit: nat, out: seq<string>, i: nat)
    requires codec.Sound() && Lists(codec.less, p, keys, items) && Answers(codec.less, p, limit, out) && i < |out|
    requires |items| == 2 * |turns| && forall k | 0 <= k < |items| :: items[k] == ItemOf(codec, MessageAt(turns, k))
    ensures out[i] in p && i < 2 * |turns| && Reads(codec, p[out[i]], MessageAt(turns, 2 * |turns| - 1 - i))
  {
    ItemAt(codec.less, p, keys, items, limit, out, i);
    var k := 2 * |turns| - 1 - i;
    assert p[out[i]] == items[k] == ItemOf(codec, MessageAt(turns, k));
    ItemReads(codec, MessageAt(turns, k));
  }

  lemma {:induction false} ItemAt(less: (string, string) -> bool, p: Partition, keys: seq<string>, items: seq<Item>, limit: nat, out: seq<string>, i: nat)
    requires Strict(less) && Lists(less, p, keys, items) && Answers(less, p, limit, out) && i < |out|
    ensures out[i] in p && i < |items| && p[out[i]] == items[|items| - 1 - i]
  {
    AnswerIsTail(less, p, keys, items, limit, out, i + 1);
  }

  lemma {:induction false} ItemReads(codec: Codec, m: Message)
    requires codec.Sound()
    ensures Reads(codec, ItemOf(codec, m), m)
  {
  }

  lemma {:induction false} AnswerReads(codec: Codec, p: Partition, turns: seq<Stamped>, max: nat, out: seq<string>)
    requires codec.Sound() && Holds(codec, p, turns) && Answers(codec.less, p, 2 * max, out)
    ensures AllRead(codec, p, out, turns) && |out| == 2 * |LastTurns(turns, max)|
  {
    assert |p| == |KeysOf(codec, turns)|;
    forall i | 0 <= i < |out|
      ensures out[i] in p && Reads(codec, p[out[i]], MessageAt(turns, 2 * |turns| - 1 - i))
    {
      ItemRead(codec, p, KeysOf(codec, turns), ItemsOf(codec, turns), turns, 2 * max, out, i);
    }
  }

  function WithTurn(codec: Codec, p: Partition, s: Stamped): Partition {
    p[codec.key(s.ms, false) := ItemOf(codec, s.turn.user)][codec.key(s.ms, true) := ItemOf(codec, s.turn.assistant)]
  }

  lemma {:induction false} OneTurnMore(codec: Codec, turns: seq<Stamped>, s: Stamped)
    ensures KeysOf(codec, turns + [s]) == KeysOf(codec, turns) + [codec.key(s.ms, false)] + [codec.key(s.ms, true)]
    ensures ItemsOf(codec, turns + [s]) == ItemsOf(codec, turns) + [ItemOf(codec, s.turn.user)] + [ItemOf(codec, s.turn.assistant)]
  {
    var more, n := turns + [s], 2 * |turns|;
    forall k: nat | k < n ensures KeyAt(codec, more, k) == KeyAt(codec, turns, k) && MessageAt(more, k) == MessageAt(turns, k) {
    }
    assert n / 2 == |turns| == (n + 1) / 2;
  }

  lemma {:induction false} StampedLater(codec: Codec, p: Partition, turns: seq<Stamped>, s: Stamped)
    requires codec.Sound() && Holds(codec, p, turns)
    requires s.ms < codec.end && forall i | 0 <= i < |turns| :: turns[i].ms <= s.ms
    requires codec.key(s.ms, false) !in p
    ensures Ascending(codec.end, turns + [s])
    ensures forall k: nat | k < 2 * |turns| :: codec.less(KeysOf(codec, turns)[k], codec.key(s.ms, false)) && codec.less(KeysOf(codec, turns)[k], codec.key(s.ms, true))
  {
    EarlierMs(codec, p, KeysOf(codec, turns), turns, s.ms);
    KeysBefore(codec, turns, s.ms);
  }

  lemma {:induction false} EarlierMs(codec: Codec, p: Partition, keys: seq<string>, turns: seq<Stamped>, ms: nat)
    requires |keys| == 2 * |turns| && forall k | 0 <= k < |keys| :: keys[k] == KeyAt(codec, turns, k) && keys[k] in p
    requires codec.key(ms, false) !in p && forall i | 0 <= i < |turns| :: turns[i].ms <= ms
    ensures forall i | 0 <= i < |turns| :: turns[i].ms < ms
  {
    forall i | 0 <= i < |turns| ensures turns[i].ms < ms {
      assert keys[2 * i] == codec.key(turns[i].ms, false);
    }
  }

  lemma {:induction false} KeysBefore(codec: Codec, turns: seq<Stamped>, ms: nat)
    requires codec.Sound() && ms < codec.end && forall i | 0 <= i < |turns| :: turns[i].ms < ms
    ensures forall k: nat | k < 2 * |turns| :: codec.less(KeysOf(codec, turns)[k], codec.key(ms, false)) && codec.less(KeysOf(codec, turns)[k], codec.key(ms, true))
  {
    forall k: nat | k < 2 * |turns|
      ensures codec.less(KeysOf(codec, turns)[k], codec.key(ms, false)) && codec.less(KeysOf(codec, turns)[k], codec.key(ms, true))
    {
      assert KeysOf(codec, turns)[k] == codec.key(turns[k / 2].ms, k % 2 == 1);
    }
  }

  lemma {:induction false} EmptyHolds(codec: Codec)
    ensures Holds(codec, map[], [])
  {
  }

  lemma {:induction false} AddKey(less: (string, string) -> bool, p: Partition, keys: seq<string>, items: seq<Item>, k: string, item: Item)
    requires Strict(less) && Lists(less, p, keys, items) && forall i | 0 <= i < |keys| :: less(keys[i], k)
    ensures Lists(less, p[k := item], keys + [k], items + [item])
  {
    assert k !in p;
    assert p[k := item].Keys == p.Keys + {k};
    SortedMore(less, keys, k);
    var more := keys + [k];
    forall sk | sk in p[k := item] ensures sk in more {
      assert more[|keys|] == k;
    }
    forall i | 0 <= i < |more| ensures more[i] in p[k := item] && p[k := item][more[i]] == (items + [item])[i] {
      if i < |keys| {
        assert keys[i] in p && keys[i] != k;
      }
    }
  }

  lemma {:induction false} SortedMore(less: (string, string) -> bool, keys: seq<string>, k: string)
    requires Sorted(less, keys) && forall i | 0 <= i < |keys| :: less(keys[i], k)
    ensures Sorted(less, keys + [k])
  {
  }

  /** A turn written later than all others extends the list. */
  lemma {:induction false} AddTurn(codec: Codec, p: Partition, turns: seq<Stamped>, s: Stamped)
    requires codec.Sound() && Holds(codec, p, turns)
    requires s.ms < codec.end && forall i | 0 <= i < |turns| :: turns[i].ms <= s.ms
    requires codec.key(s.ms, false) !in p
    ensures Holds(codec, WithTurn(codec, p, s), turns + [s])
  {
    StampedLater(codec, p, turns, s);
    OneTurnMore(codec, turns, s);
    TwoKeysMore(codec.less, p, KeysOf(codec, turns), ItemsOf(codec, turns), codec.key(s.ms, false), codec.key(s.ms, true), ItemOf(codec, s.turn.user), ItemOf(codec, s.turn.assistant));
  }

  lemma {:induction false} TwoKeysMore(less: (string, string) -> bool, p: Partition, keys: seq<string>, items: seq<Item>, k0: string, k1: string, a: Item, b: Item)
    requires Strict(less) && Lists(less, p, keys, items) && less(k0, k1)
    requires forall i | 0 <= i < |keys| :: less(keys[i], k0) && less(keys[i], k1)
    ensures Lists(less, p[k0 := a][k1 := b], keys + [k0] + [k1], items + [a] + [b])
  {
    AddKey(less, p, keys, items, k0, a);
    AddKey(less, p[k0 := a], keys + [k0], items + [a], k1, b);
  }
}
