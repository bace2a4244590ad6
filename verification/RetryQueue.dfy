/**
 The `relay:retries` sorted set of relay/delivery/retry_queue.py, its member encoding, the script that moves due
 members back onto their streams, and the polling loop of relay/delivery/retry_scheduler.py that repeats it.

 The sorted set is kept the way ZRANGEBYSCORE reads it: a list in (score, member) order. Ids are strings, because the
 encoding is about their characters; crc32 is an arbitrary fixed function.
 */
module RetryQueue {

  // ---- Members ----

  const SEPARATOR := '|'

  predicate IsId(s: string) {
    s != "" && SEPARATOR !in s
  }

  function Digit(n: nat): char
    requires n < 10
  {
    "0123456789"[n]
  }

  // str(n)
  function Decimal(n: nat): (s: string)
    ensures IsId(s)
  {
    if n < 10 then [Digit(n)] else Decimal(n / 10) + [Digit(n % 10)]
  }

  function ShardFor(crc32: string -> nat, shards: nat, endpoint: string): nat
    requires shards > 0
  {
    crc32(endpoint) % shards
  }

  function StreamKey(shard: nat): string {
    "relay:deliveries:" + Decimal(shard)
  }

  // ---- The stream of an endpoint, without arithmetic on strings ----

  // What the digits of s say, read from the left.
  function Reading(s: string): nat {
    if s == "" || !('0' <= s[|s| - 1] <= '9') then 0
    else 10 * Reading(s[..|s| - 1]) + (s[|s| - 1] - '0') as nat
  }

  /** s is the decimal numeral of n. */
  predicate IsNumeral(s: string, n: nat) {
    && s != "" && (forall i | 0 <= i < |s| :: '0' <= s[i] <= '9')
    && (s[0] == '0' ==> |s| == 1)
    && Reading(s) == n
  }

  /** Reading the digits of str(n) gives n back. */
  lemma {:induction false} DecimalIsNumeral(n: nat)
    ensures IsNumeral(Decimal(n), n)
    ensures n > 0 ==> Decimal(n)[0] != '0'
  {
    if n >= 10 {
      DecimalIsNumeral(n / 10);
      assert Decimal(n)[..|Decimal(n)| - 1] == Decimal(n / 10);
    }
  }

  lemma DigitOf(c: char)
    requires '0' <= c <= '9'
    ensures Digit((c - '0') as nat) == c
  {
    var digits := "0123456789";
    var d := (c - '0') as nat;
    assert d == 0 || d == 1 || d == 2 || d == 3 || d == 4 || d == 5 || d == 6 || d == 7 || d == 8 || d == 9;
  }

  lemma OneDigitMore(front: nat, d: nat)
    requires d < 10 && front > 0
    ensures Decimal(10 * front + d) == Decimal(front) + [Digit(d)]
  {}

  // Its front is a numeral, and not 0.
  lemma FrontOfNumeral(s: string, n: nat)
    requires IsNumeral(s, n) && |s| > 1
    ensures IsNumeral(s[..|s| - 1], Reading(s[..|s| - 1])) && s[..|s| - 1][0] != '0'
    ensures n == 10 * Reading(s[..|s| - 1]) + (s[|s| - 1] - '0') as nat
  {
    assert s[..|s| - 1][0] == s[0];
  }

  lemma {:induction false} NumeralIsDecimal(s: string, n: nat)
    requires IsNumeral(s, n)
    ensures s == Decimal(n) && (s[0] != '0' ==> n > 0)
    decreases |s|
  {
    var front, last := s[..|s| - 1], s[|s| - 1];
    DigitOf(last);
    assert s == front + [last];
    if |s| > 1 {
      FrontOfNumeral(s, n);
      NumeralIsDecimal(front, Reading(front));
      OneDigitMore(Reading(front), (last - '0') as nat);
    } else {
      assert Reading(front) == 0;
    }
  }

  /** The stream of shard k: the prefix and the numeral. */
  predicate NamesShard(key: string, k: nat) {
    |key| > 17 && key[..17] == "relay:deliveries:" && IsNumeral(key[17..], k)
  }

  predicate IsRemainder(k: nat, n: nat, q: nat, m: nat) {
    k < m && n == q * m + k
  }

  /** The stream an endpoint's deliveries go to: that of the remainder of its crc32 by the number of shards. The workers
      consume the streams of exactly the shards below that number. */
  ghost predicate IsHome(crc32: string -> nat, shards: nat, endpoint: string, key: string) {
    exists k: nat, q: nat :: IsRemainder(k, crc32(endpoint), q, shards) && NamesShard(key, k)
  }

  lemma Division(n: nat, m: nat)
    requires m > 0
    ensures n % m < m && n == (n / m) * m + n % m
  {}

  lemma ShardIsRemainder(crc32: string -> nat, shards: nat, endpoint: string) returns (q: nat)
    requires shards > 0
    ensures IsRemainder(ShardFor(crc32, shards, endpoint), crc32(endpoint), q, shards)
  {
    Division(crc32(endpoint), shards);
    q := crc32(endpoint) / shards;
  }

  lemma StreamKeyNamesShard(k: nat)
    ensures NamesShard(StreamKey(k), k)
  {
    DecimalIsNumeral(k);
    assert StreamKey(k)[17..] == Decimal(k);
  }

  lemma ShardIsHome(crc32: string -> nat, shards: nat, endpoint: string, key: string, k: nat, q: nat)
    requires IsRemainder(k, crc32(endpoint), q, shards) && NamesShard(key, k)
    ensures IsHome(crc32, shards, endpoint, key)
  {}

  lemma StreamKeyIsHome(crc32: string -> nat, shards: nat, endpoint: string)
    requires shards > 0
    ensures IsHome(crc32, shards, endpoint, StreamKey(ShardFor(crc32, shards, endpoint)))
  {
    var k := ShardFor(crc32, shards, endpoint);
    var q := ShardIsRemainder(crc32, shards, endpoint);
    StreamKeyNamesShard(k);
    ShardIsHome(crc32, shards, endpoint, StreamKey(k), k, q);
  }

  lemma MoreIsLarger(q: nat, p: nat, m: nat)
    requires q < p
    ensures q * m + m <= p * m
  {
    assert p * m == q * m + m + (p - q - 1) * m;
  }

  lemma OneRemainder(n: nat, m: nat, k: nat, q: nat, j: nat, p: nat)
    requires IsRemainder(k, n, q, m) && IsRemainder(j, n, p, m)
    ensures k == j
  {
    if q < p {
      MoreIsLarger(q, p, m);
    } else if p < q {
      MoreIsLarger(p, q, m);
    }
  }

  /** An endpoint has one home, so all its deliveries go through one stream; and different shards have different
      streams. */
  lemma HomeIsUnique(crc32: string -> nat, shards: nat, endpoint: string, a: string, b: string)
    requires IsHome(crc32, shards, endpoint, a) && IsHome(crc32, shards, endpoint, b)
    ensures a == b
  {
    var k: nat, q: nat :| IsRemainder(k, crc32(endpoint), q, shards) && NamesShard(a, k);
    var j: nat, p: nat :| IsRemainder(j, crc32(endpoint), p, shards) && NamesShard(b, j);
    OneRemainder(crc32(endpoint), shards, k, q, j, p);
    NumeralIsDecimal(a[17..], k);
    NumeralIsDecimal(b[17..], k);
    assert a == a[..17] + a[17..] && b == b[..17] + b[17..];
  }

  // ---- Encoding ----

  // Parts joined by the separator.
  function Join(parts: seq<string>): string
    requires parts != []
  {
    if |parts| == 1 then parts[0] else parts[0] + [SEPARATOR] + Join(parts[1..])
  }

  function EncodeMember(crc32: string -> nat, shards: nat, delivery: string, event: string, endpoint: string): string
    requires shards > 0
  {
    Join([delivery, event, endpoint, Decimal(ShardFor(crc32, shards, endpoint))])
  }

  // The characters before the first separator.
  function Word(s: string): (w: string)
    ensures |w| <= |s| && w == s[..|w|] && SEPARATOR !in w
    ensures s != "" && s[0] != SEPARATOR ==> w != ""
  {
    if s == "" || s[0] == SEPARATOR then "" else [s[0]] + Word(s[1..])
  }

  // string.gmatch(s, '[^|]+')
  function Split(s: string): seq<string>
    decreases |s|
  {
    if s == "" then []
    else if s[0] == SEPARATOR then Split(s[1..])
    else [Word(s)] + Split(s[|Word(s)|..])
  }

  lemma {:induction false} WordOf(w: string, rest: string)
    requires SEPARATOR !in w && (rest == "" || rest[0] == SEPARATOR)
    ensures Word(w + rest) == w
  {
    if w != "" {
      assert (w + rest)[1..] == w[1..] + rest;
      WordOf(w[1..], rest);
    } else {
      assert w + rest == rest;
    }
  }

  lemma SplitFirst(w: string, rest: string)
    requires IsId(w)
    ensures Split(w + [SEPARATOR] + rest) == [w] + Split(rest)
    ensures Split(w) == [w]
  {
    var tail := [SEPARATOR] + rest;
    assert w + [SEPARATOR] + rest == w + tail;
    WordOf(w, tail);
    assert (w + tail)[|w|..] == tail && tail[1..] == rest;
    WordOf(w, "");
    assert w + "" == w;
  }

  lemma {:induction false} SplitUndoesJoin(parts: seq<string>)
    requires parts != [] && forall i | 0 <= i < |parts| :: IsId(parts[i])
    ensures Split(Join(parts)) == parts
  {
    if |parts| == 1 {
      SplitFirst(parts[0], "");
    } else {
      SplitUndoesJoin(parts[1..]);
      SplitFirst(parts[0], Join(parts[1..]));
    }
  }

  /** The Lua split takes an encoded member apart into the four parts it was made of. */
  lemma SplitUndoesEncode(crc32: string -> nat, shards: nat, delivery: string, event: string, endpoint: string)
    requires shards > 0 && IsId(delivery) && IsId(event) && IsId(endpoint)
    ensures Split(EncodeMember(crc32, shards, delivery, event, endpoint))
         == [delivery, event, endpoint, Decimal(ShardFor(crc32, shards, endpoint))]
  {
    SplitUndoesJoin([delivery, event, endpoint, Decimal(ShardFor(crc32, shards, endpoint))]);
  }

  /** So two deliveries never share a member. */
  lemma EncodeIsInjective(crc32: string -> nat, shards: nat, d: string, e: string, p: string,
                          d': string, e': string, p': string)
    requires shards > 0 && IsId(d) && IsId(e) && IsId(p) && IsId(d') && IsId(e') && IsId(p')
    requires EncodeMember(crc32, shards, d, e, p) == EncodeMember(crc32, shards, d', e', p')
    ensures d == d' && e == e' && p == p'
  {
    SplitUndoesEncode(crc32, shards, d, e, p);
    SplitUndoesEncode(crc32, shards, d', e', p');
    var parts := Split(EncodeMember(crc32, shards, d, e, p));
    assert parts[0] == d == d' && parts[1] == e == e' && parts[2] == p == p';
  }

  // ---- Streams ----

  datatype Entry = Entry(delivery: string, event: string, endpoint: string)

  type Streams = map<string, seq<Entry>>

  function Stream(streams: Streams, key: string): seq<Entry> {
    if key in streams then streams[key] else []
  }

  function Xadd(streams: Streams, key: string, entry: Entry): Streams {
    streams[key := Stream(streams, key) + [entry]]
  }

  function Part(member: string, i: nat): string {
    if i < |Split(member)| then Split(member)[i] else ""
  }

  // Where the mover puts a member, and what it puts there. Members have four parts; see MoverAgreesWithEnqueue.
  function Destination(member: string): string {
    "relay:deliveries:" + Part(member, 3)
  }

  function Rebuilt(member: string): Entry {
    Entry(Part(member, 0), Part(member, 1), Part(member, 2))
  }

  /** A scheduled retry comes back as the same entry, on the same stream, as the first enqueue of that delivery. */
  lemma MoverAgreesWithEnqueue(crc32: string -> nat, shards: nat, delivery: string, event: string, endpoint: string)
    requires shards > 0 && IsId(delivery) && IsId(event) && IsId(endpoint)
    ensures var member := EncodeMember(crc32, shards, delivery, event, endpoint);
            && |Split(member)| == 4
            && Destination(member) == StreamKey(ShardFor(crc32, shards, endpoint))
            && IsHome(crc32, shards, endpoint, Destination(member))
            && Rebuilt(member) == Entry(delivery, event, endpoint)
  {
    StreamKeyIsHome(crc32, shards, endpoint);
    SplitUndoesEncode(crc32, shards, delivery, event, endpoint);
  }

  // ---- The sorted set ----

  datatype Scheduled = Scheduled(score: real, member: string)

  type Zset = seq<Scheduled>

  // memcmp order, a proper prefix first.
  predicate Less(a: string, b: string) {
    b != "" && (a == "" || a[0] < b[0] || (a[0] == b[0] && Less(a[1..], b[1..])))
  }

  lemma {:induction false} LessIsTotal(a: string, b: string)
    ensures a == b || Less(a, b) || Less(b, a)
  {
    if a != "" && b != "" && a[0] == b[0] {
      LessIsTotal(a[1..], b[1..]);
      assert a == [a[0]] + a[1..] && b == [b[0]] + b[1..];
    }
  }

  lemma {:induction false} LessIsTransitive(a: string, b: string, c: string)
    requires Less(a, b) && Less(b, c)
    ensures Less(a, c)
  {
    if a != "" && a[0] == b[0] == c[0] {
      LessIsTransitive(a[1..], b[1..], c[1..]);
    }
  }

  predicate Before(x: Scheduled, y: Scheduled) {
    x.score < y.score || (x.score == y.score && Less(x.member, y.member))
  }

  ghost predicate Sorted(z: Zset) {
    forall i, j | 0 <= i < j < |z| :: Before(z[i], z[j])
  }

  ghost predicate Distinct(z: Zset) {
    forall i, j | 0 <= i < j < |z| :: z[i].member != z[j].member
  }

  predicate Has(z: Zset, member: string) {
    z != [] && (z[0].member == member || Has(z[1..], member))
  }

  ghost predicate IsZset(z: Zset) {
    Sorted(z) && Distinct(z)
  }

  // How many members are due; they are the front of the list.
  function DueCount(z: Zset, now: real): (n: nat)
    ensures n <= |z| && forall i | 0 <= i < n :: z[i].score <= now
  {
    if z == [] || z[0].score > now then 0 else 1 + DueCount(z[1..], now)
  }

  lemma {:induction false} DueIsTheFront(z: Zset, now: real, i: nat)
    requires Sorted(z) && i < |z|
    ensures z[i].score <= now <==> i < DueCount(z, now)
  {
    if z[0].score <= now && i > 0 {
      DueIsTheFront(z[1..], now, i - 1);
    }
  }

  lemma {:induction false} DueCountOfRest(z: Zset, now: real, k: nat)
    requires k <= DueCount(z, now)
    ensures DueCount(z[k..], now) == DueCount(z, now) - k
  {
    if k > 0 {
      DueCountOfRest(z[1..], now, k - 1);
      assert z[k..] == z[1..][k - 1..];
    }
  }

  // The streams after the members of z are appended to them one by one.
  function XaddAll(streams: Streams, z: Zset): Streams
  {
    if z == [] then streams
    else
      var last := z[|z| - 1].member;
      Xadd(XaddAll(streams, z[..|z| - 1]), Destination(last), Rebuilt(last))
  }

  // What one stream gets of them, in order.
  function Share(z: Zset, key: string): seq<Entry>
  {
    if z == [] then []
    else
      var last := z[|z| - 1].member;
      Share(z[..|z| - 1], key) + if Destination(last) == key then [Rebuilt(last)] else []
  }

  /** Every stream grows by exactly the moved members that belong to it, in (score, member) order. */
  lemma {:induction false} EachStreamGetsItsShare(streams: Streams, z: Zset, key: string)
    ensures Stream(XaddAll(streams, z), key) == Stream(streams, key) + Share(z, key)
  {
    if z != [] {
      EachStreamGetsItsShare(streams, z[..|z| - 1], key);
    }
  }

  lemma {:induction false} XaddAllConcat(streams: Streams, a: Zset, b: Zset)
    ensures XaddAll(XaddAll(streams, a), b) == XaddAll(streams, a + b)
  {
    if b == [] {
      assert a + b == a;
    } else {
      var n := |b| - 1;
      XaddAllConcat(streams, a, b[..n]);
      assert (a + b)[..|a| + n] == a + b[..n];
      assert (a + b)[|a| + n] == b[n];
    }
  }

  // ---- ZADD and ZREM ----

  function Without(z: Zset, member: string): (r: Zset)
    ensures |r| <= |z| && forall x | x in r :: x in z
  {
    if z == [] then []
    else if z[0].member == member then z[1..]
    else [z[0]] + Without(z[1..], member)
  }

  function Insert(z: Zset, x: Scheduled): (r: Zset)
    ensures |r| == |z| + 1 && forall y :: y in r <==> y in z || y == x
  {
    if z == [] || Before(x, z[0]) then [x] + z else [z[0]] + Insert(z[1..], x)
  }

  function Zadd(z: Zset, x: Scheduled): Zset {
    Insert(Without(z, x.member), x)
  }

  lemma BeforeIsTransitive(x: Scheduled, y: Scheduled, w: Scheduled)
    requires Before(x, y) && Before(y, w)
    ensures Before(x, w)
  {
    if x.score == y.score == w.score { LessIsTransitive(x.member, y.member, w.member); }
  }

  lemma {:induction false} HasIsMembership(z: Zset, member: string)
    ensures Has(z, member) <==> exists i :: 0 <= i < |z| && z[i].member == member
  {
    if z != [] {
      HasIsMembership(z[1..], member);
      if Has(z[1..], member) {
        var i :| 0 <= i < |z[1..]| && z[1..][i].member == member;
        assert z[i + 1].member == member;
      }
    }
  }

  // Putting x in front of a sorted set it belongs before.
  lemma Prepend(x: Scheduled, z: Zset)
    requires IsZset(z)
    requires forall y | y in z :: Before(x, y) && y.member != x.member
    ensures IsZset([x] + z)
  {
    forall j | 0 <= j < |z| ensures Before(x, z[j]) && z[j].member != x.member { assert z[j] in z; }
  }

  lemma {:induction false} InsertIsZset(z: Zset, x: Scheduled)
    requires IsZset(z) && forall y | y in z :: y.member != x.member
    ensures IsZset(Insert(z, x))
  {
    if z == [] || Before(x, z[0]) {
      forall y | y in z ensures Before(x, y) {
        if y != z[0] { BeforeIsTransitive(x, z[0], y); }
      }
      Prepend(x, z);
    } else {
      LessIsTotal(x.member, z[0].member);
      InsertIsZset(z[1..], x);
      Prepend(z[0], Insert(z[1..], x));
    }
  }

  lemma {:induction false} WithoutIsZset(z: Zset, member: string)
    requires IsZset(z)
    ensures IsZset(Without(z, member))
    ensures forall x | x in Without(z, member) :: x.member != member
    ensures forall x | x in z && x.member != member :: x in Without(z, member)
  {
    if z != [] {
      if z[0].member == member {
        assert IsZset(z[1..]);
        forall x | x in z[1..] ensures x.member != member {}
      } else {
        WithoutIsZset(z[1..], member);
        var rest := Without(z[1..], member);
        Prepend(z[0], rest);
      }
    }
  }

  lemma ZaddIsZset(z: Zset, x: Scheduled)
    requires IsZset(z)
    ensures IsZset(Zadd(z, x))
    ensures forall y :: y in Zadd(z, x) <==> y == x || (y in z && y.member != x.member)
  {
    WithoutIsZset(z, x.member);
    InsertIsZset(Without(z, x.member), x);
  }

  lemma HasAfterInsert(z: Zset, x: Scheduled, member: string)
    ensures Has(Insert(z, x), member) <==> member == x.member || Has(z, member)
  {
    HasIsMembership(z, member);
    HasIsMembership(Insert(z, x), member);
    var after := Insert(z, x);
    if Has(z, member) {
      var i :| 0 <= i < |z| && z[i].member == member;
      assert z[i] in after;
    }
    assert x in after;
    if Has(after, member) {
      var i :| 0 <= i < |after| && after[i].member == member;
      assert after[i] in z || after[i] == x;
    }
  }

  lemma HasAfterWithout(z: Zset, dropped: string, member: string)
    requires IsZset(z)
    ensures Has(Without(z, dropped), member) <==> member != dropped && Has(z, member)
  {
    WithoutIsZset(z, dropped);
    HasIsMembership(z, member);
    HasIsMembership(Without(z, dropped), member);
    if Has(z, member) && member != dropped {
      var i :| 0 <= i < |z| && z[i].member == member;
      assert z[i] in Without(z, dropped);
    }
    if Has(Without(z, dropped), member) {
      var i :| 0 <= i < |Without(z, dropped)| && Without(z, dropped)[i].member == member;
      assert Without(z, dropped)[i] in z;
    }
  }

  lemma HasSplits(z: Zset, k: nat, member: string)
    requires IsZset(z) && k <= |z|
    ensures Has(z, member) <==> Has(z[..k], member) || Has(z[k..], member)
    ensures !(Has(z[..k], member) && Has(z[k..], member))
  {
    HasIsMembership(z, member);
    HasIsMembership(z[..k], member);
    HasIsMembership(z[k..], member);
    if Has(z, member) {
      var i :| 0 <= i < |z| && z[i].member == member;
      if i < k { assert z[..k][i].member == member; } else { assert z[k..][i - k].member == member; }
    }
  }

  // ---- Exactly once, over interleaved callers ----

  /** What anyone may do to the set, one script or command at a time. */
  datatype Op =
    | Schedule(x: Scheduled)
    | Remove(member: string)
    | Move(limit: nat, now: real)

  function Batch(z: Zset, limit: nat, now: real): nat {
    if limit < DueCount(z, now) then limit else DueCount(z, now)
  }

  function Next(z: Zset, op: Op): Zset {
    match op
    case Schedule(x) => Zadd(z, x)
    case Remove(member) => Without(z, member)
    case Move(limit, now) => z[Batch(z, limit, now)..]
  }

  ghost predicate IsRun(zs: seq<Zset>, ops: seq<Op>) {
    && |zs| == |ops| + 1
    && zs[0] == []
    && forall i: nat | i < |ops| :: Leads(zs, ops, i)
  }

  ghost predicate Leads(zs: seq<Zset>, ops: seq<Op>, i: nat) {
    i < |ops| && i + 1 < |zs| && zs[i + 1] == Next(zs[i], ops[i])
  }

  function One(b: bool): nat { if b then 1 else 0 }

  // How often, in the first n operations, the member was newly added, XADDed by some mover, or taken out.
  function TimesAdded(zs: seq<Zset>, ops: seq<Op>, n: nat, member: string): nat
    requires n <= |ops| <= |zs|
  {
    if n == 0 then 0
    else TimesAdded(zs, ops, n - 1, member)
         + One(Adds(zs[n - 1], ops[n - 1], member))
  }

  function TimesMoved(zs: seq<Zset>, ops: seq<Op>, n: nat, member: string): nat
    requires n <= |ops| <= |zs|
  {
    if n == 0 then 0
    else TimesMoved(zs, ops, n - 1, member)
         + One(Moves(zs[n - 1], ops[n - 1], member))
  }

  function TimesRemoved(zs: seq<Zset>, ops: seq<Op>, n: nat, member: string): nat
    requires n <= |ops| <= |zs|
  {
    if n == 0 then 0
    else TimesRemoved(zs, ops, n - 1, member)
         + One(Removes(zs[n - 1], ops[n - 1], member))
  }

  /** However schedulers, workers and replays interleave, every time a member is newly added it is moved once, or
      removed once, or still waiting: no mover ever re-enqueues what another already did. */
  lemma {:induction false} EveryAddIsMovedOnce(zs: seq<Zset>, ops: seq<Op>, n: nat, member: string)
    requires IsRun(zs, ops) && n <= |ops|
    ensures IsZset(zs[n])
    ensures TimesAdded(zs, ops, n, member)
         == TimesMoved(zs, ops, n, member) + TimesRemoved(zs, ops, n, member) + One(Has(zs[n], member))
  {
    if n > 0 {
      EveryAddIsMovedOnce(zs, ops, n - 1, member);
      assert Leads(zs, ops, n - 1);
      OneOperation(zs[n - 1], ops[n - 1], member);
    }
  }

  predicate Adds(z: Zset, op: Op, member: string) {
    op.Schedule? && op.x.member == member && !Has(z, member)
  }

  predicate Moves(z: Zset, op: Op, member: string) {
    op.Move? && Has(z[..Batch(z, op.limit, op.now)], member)
  }

  predicate Removes(z: Zset, op: Op, member: string) {
    op.Remove? && op.member == member && Has(z, member)
  }

  lemma OneOperation(z: Zset, op: Op, member: string)
    requires IsZset(z)
    ensures IsZset(Next(z, op))
    ensures One(Has(z, member)) + One(Adds(z, op, member))
         == One(Moves(z, op, member)) + One(Removes(z, op, member)) + One(Has(Next(z, op), member))
  {
    match op {
      case Schedule(x) =>
        ZaddIsZset(z, x);
        HasAfterWithout(z, x.member, member);
        HasAfterInsert(Without(z, x.member), x, member);
      case Remove(dropped) =>
        WithoutIsZset(z, dropped);
        HasAfterWithout(z, dropped, member);
      case Move(limit, now) =>
        HasSplits(z, Batch(z, limit, now), member);
        RestIsZset(z, Batch(z, limit, now));
    }
  }

  lemma DropDrop(z: Zset, done: nat, k: nat)
    requires done + k <= |z|
    ensures z[done..][k..] == z[done + k..] && z[..done] + z[done..][..k] == z[..done + k]
  {}

  lemma RestIsZset(z: Zset, done: nat)
    requires IsZset(z) && done <= |z|
    ensures IsZset(z[done..])
  {}

  // One more batch after `done` members have been moved.
  lemma BatchAfterBatches(from: Streams, z: Zset, done: nat, limit: nat, now: real) returns (k: nat)
    requires IsZset(z) && done <= DueCount(z, now)
    ensures k == Batch(z[done..], limit, now) && IsZset(z[done..]) && k <= |z[done..]|
    ensures done + k <= DueCount(z, now) && (k < limit ==> done + k == DueCount(z, now))
    ensures z[done..][k..] == z[done + k..]
    ensures XaddAll(XaddAll(from, z[..done]), z[done..][..k]) == XaddAll(from, z[..done + k])
  {
    DueCountOfRest(z, now, done);
    RestIsZset(z, done);
    k := Batch(z[done..], limit, now);
    XaddAllConcat(from, z[..done], z[done..][..k]);
    DropDrop(z, done, k);
  }

  lemma NoneDueAfter(z: Zset, now: real)
    requires IsZset(z)
    ensures forall i | 0 <= i < |z[DueCount(z, now)..]| :: z[DueCount(z, now)..][i].score > now
  {
    forall i | 0 <= i < |z[DueCount(z, now)..]| ensures z[DueCount(z, now)..][i].score > now {
      DueIsTheFront(z, now, DueCount(z, now) + i);
    }
  }

  lemma ShortBatchTakesAll(z: Zset, limit: nat, now: real)
    requires IsZset(z) && Batch(z, limit, now) < limit
    ensures forall i | 0 <= i < |z[Batch(z, limit, now)..]| :: z[Batch(z, limit, now)..][i].score > now
  {
    NoneDueAfter(z, now);
  }

  /** The sorted set together with the streams it feeds. Every scheduler and every worker calls the same object, one
      script or command at a time. */
  class RetryQueue {
    const crc32: string -> nat
    const shards: nat
    var zset: Zset
    var streams: Streams

    ghost predicate Valid()
      reads this
    {
      shards > 0 && IsZset(zset)
    }

    constructor (crc32: string -> nat, shards: nat)
      requires shards > 0
      ensures Valid() && zset == [] && streams == map[] && this.crc32 == crc32 && this.shards == shards
    {
      this.crc32, this.shards := crc32, shards;
      zset, streams := [], map[];
    }

    // enqueue_delivery: one more entry at the end of the endpoint's stream, and nothing anywhere else.
    method EnqueueDelivery(delivery: string, event: string, endpoint: string)
      requires Valid() && IsId(delivery) && IsId(event) && IsId(endpoint)
      modifies this`streams
      ensures Valid()
      ensures exists home :: IsHome(crc32, shards, endpoint, home)
      ensures forall key ::
                Stream(streams, key) == Stream(old(streams), key)
                                        + if IsHome(crc32, shards, endpoint, key)
                                          then [Entry(delivery, event, endpoint)] else []
    {
      StreamKeyIsHome(crc32, shards, endpoint);
      forall key | IsHome(crc32, shards, endpoint, key)
        ensures key == StreamKey(ShardFor(crc32, shards, endpoint))
      {
        HomeIsUnique(crc32, shards, endpoint, key, StreamKey(ShardFor(crc32, shards, endpoint)));
      }
      streams := Xadd(streams, StreamKey(ShardFor(crc32, shards, endpoint)), Entry(delivery, event, endpoint));
    }

    // schedule_retry: the member waits once, due after the delay, and all others wait as they did.
    method ScheduleRetry(delivery: string, event: string, endpoint: string, delay: real, now: real)
      returns (dueAt: real)
      requires Valid() && IsId(delivery) && IsId(event) && IsId(endpoint)
      modifies this`zset
      ensures Valid() && dueAt == now + delay
      ensures var x := Scheduled(dueAt, EncodeMember(crc32, shards, delivery, event, endpoint));
              && zset == Next(old(zset), Schedule(x))
              && forall y :: y in zset <==> y == x || (y in old(zset) && y.member != x.member)
    {
      dueAt := now + delay;
      var member := EncodeMember(crc32, shards, delivery, event, endpoint);
      ZaddIsZset(zset, Scheduled(dueAt, member));
      zset := Zadd(zset, Scheduled(dueAt, member));
    }

    // remove_from_retry_queue: that member goes, if it was there, and all others wait as they did.
    method RemoveFromRetryQueue(delivery: string, event: string, endpoint: string) returns (dropped: bool)
      requires Valid()
      modifies this`zset
      ensures Valid()
      ensures var member := EncodeMember(crc32, shards, delivery, event, endpoint);
              && zset == Next(old(zset), Remove(member))
              && (dropped <==> exists x :: x in old(zset) && x.member == member)
              && forall y :: y in zset <==> y in old(zset) && y.member != member
    {
      var member := EncodeMember(crc32, shards, delivery, event, endpoint);
      WithoutIsZset(zset, member);
      HasIsMembership(zset, member);
      dropped := Has(zset, member);
      assert dropped ==> exists i :: 0 <= i < |zset| && zset[i].member == member;
      zset := Without(zset, member);
    }

    // ZRANGEBYSCORE -inf now LIMIT 0 limit
    method RangeDue(limit: nat, now: real) returns (due: Zset)
      requires Valid()
      ensures due == zset[..Batch(zset, limit, now)]
    {
      var n := 0;
      while n < limit && n < |zset| && zset[n].score <= now
        invariant n <= limit && n <= DueCount(zset, now)
      {
        DueIsTheFront(zset, now, n);
        n := n + 1;
      }
      if n < limit && n < |zset| { DueIsTheFront(zset, now, n); }
      due := zset[..n];
    }

    // MOVE_DUE_LUA: the first `limit` due members leave the set for their streams, in (score, member) order.
    method MoveDue(limit: nat, now: real) returns (count: nat)
      requires Valid()
      modifies this`zset, this`streams
      ensures Valid()
      ensures count <= limit && count <= |old(zset)| && forall i | 0 <= i < count :: old(zset)[i].score <= now
      ensures count < limit ==> forall i | 0 <= i < |zset| :: zset[i].score > now
      ensures count == Batch(old(zset), limit, now)
      ensures zset == Next(old(zset), Move(limit, now)) == old(zset)[count..]
      ensures streams == XaddAll(old(streams), old(zset)[..count])
    {
      ghost var before := zset;
      var due := RangeDue(limit, now);
      ghost var n := |due|;
      var i := 0;
      count := 0;
      while i < |due|
        invariant i <= n == |due| <= |before| && count == i && due == before[..n]
        invariant IsZset(zset) && zset == before[i..]
        invariant streams == XaddAll(old(streams), before[..i])
      {
        var member := due[i].member;
        assert zset[0] == before[i] == due[i];
        if Has(zset, member) {
          zset := Without(zset, member);
          streams := Xadd(streams, Destination(member), Rebuilt(member));
          count := count + 1;
          assert before[..i + 1][..i] == before[..i];
        }
        i := i + 1;
      }
      if count < limit { ShortBatchTakesAll(before, limit, now); }
    }

    // One poll of a burst that has moved `done` members so far.
    method MoveAnother(limit: nat, now: real, ghost before: Zset, ghost from: Streams, ghost done: nat)
      returns (count: nat)
      requires Valid() && limit > 0 && IsZset(before) && done <= DueCount(before, now)
      requires zset == before[done..] && streams == XaddAll(from, before[..done])
      modifies this`zset, this`streams
      ensures Valid() && done + count <= DueCount(before, now)
      ensures zset == before[done + count..] && streams == XaddAll(from, before[..done + count])
      ensures count < limit ==> done + count == DueCount(before, now)
    {
      ghost var k := BatchAfterBatches(from, before, done, limit, now);
      count := MoveDue(limit, now);
    }

    /** The scheduler's burst: poll again while full batches come back. At a fixed `now` it ends with no due member
        left, whatever the batch size, and the result does not depend on it. */
    method DrainDue(limit: nat, now: real)
      requires Valid() && limit > 0
      modifies this`zset, this`streams
      ensures Valid()
      ensures zset == old(zset)[DueCount(old(zset), now)..]
      ensures streams == XaddAll(old(streams), old(zset)[..DueCount(old(zset), now)])
      ensures forall i | 0 <= i < |zset| :: zset[i].score > now
    {
      ghost var before := zset;
      ghost var from := streams;
      ghost var due: nat, done: nat := DueCount(zset, now), 0;
      assert before[..0] == [];
      var count := limit;
      while count >= limit
        invariant shards > 0 && IsZset(zset) && done <= due
        invariant zset == before[done..] && streams == XaddAll(from, before[..done])
        invariant count < limit ==> done == due
        decreases if count >= limit then 1 + |zset| else 0
      {
        count := MoveAnother(limit, now, before, from, done);
        done := done + count;
      }
      NoneDueAfter(before, now);
    }
  }
}
