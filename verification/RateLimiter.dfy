/** The coordinator's rate limiter (service.py): a bounded, evicting table of token buckets.
 *
 * Times are real seconds. The table is an ordered dict, oldest update first: a sequence of buckets
 * with distinct keys.
 */
module RateLimiter {

  datatype Bucket = Bucket(key: string, tokens: real, updated: real)

  function Min(a: real, b: real): real {
    if a <= b then a else b
  }

  function Max(a: real, b: real): real {
    if a >= b then a else b
  }

  /** Tokens that accrue in `elapsed` seconds at `limit` a minute: one share for each of the
   *  `limit` tokens of a minute. */
  function Earned(limit: nat, elapsed: real): real {
    if limit == 0 then 0.0 else Earned(limit - 1, elapsed) + elapsed / 60.0
  }

  lemma {:induction false} EarnedIsProduct(limit: nat, elapsed: real)
    ensures Earned(limit, elapsed) == elapsed * limit as real / 60.0
  {
    if limit > 0 {
      EarnedIsProduct(limit - 1, elapsed);
      assert elapsed * limit as real == elapsed * (limit - 1) as real + elapsed;
    }
  }

  lemma {:induction false} EarnedNotNegative(limit: nat, elapsed: real)
    requires elapsed >= 0.0
    ensures Earned(limit, elapsed) >= 0.0
  {
    if limit > 0 {
      EarnedNotNegative(limit - 1, elapsed);
    }
  }

  lemma {:induction false} EarnedAdds(limit: nat, a: real, b: real)
    ensures Earned(limit, a + b) == Earned(limit, a) + Earned(limit, b)
  {
    if limit > 0 {
      EarnedAdds(limit - 1, a, b);
    }
  }

  lemma {:induction false} EarnedInAMinute(limit: nat)
    ensures Earned(limit, 60.0) == limit as real
  {
    if limit > 0 {
      EarnedInAMinute(limit - 1);
    }
  }

  lemma {:induction false} EarnedAtOnce(limit: nat)
    ensures Earned(limit, 0.0) == 0.0
  {
    if limit > 0 {
      EarnedAtOnce(limit - 1);
    }
  }

  /** Tokens refilled after `elapsed` seconds; a clock that went back refills nothing. */
  function Refilled(limit: nat, tokens: real, elapsed: real): real {
    Min(limit as real, tokens + Earned(limit, Max(0.0, elapsed)))
  }

  // ----- the table

  function Find(table: seq<Bucket>, key: string): (i: int)
    ensures -1 <= i < |table|
    ensures i >= 0 ==> table[i].key == key
    ensures i == -1 ==> forall k | 0 <= k < |table| :: table[k].key != key
  {
    if table == [] then -1
    else if table[|table| - 1].key == key then |table| - 1
    else Find(table[..|table| - 1], key)
  }

  predicate Has(table: seq<Bucket>, key: string) {
    Find(table, key) >= 0
  }

  /** The oldest-first eviction loop. */
  function Evict(table: seq<Bucket>, now: real): seq<Bucket> {
    if table == [] || now - table[0].updated < 60.0 then table else Evict(table[1..], now)
  }

  function Without(table: seq<Bucket>, key: string): seq<Bucket> {
    var i := Find(table, key);
    if i < 0 then table else table[..i] + table[i + 1..]
  }

  /** Refused for want of room: a new key, and no idle bucket to drop. */
  predicate CapacityRefused(maxKeys: nat, table: seq<Bucket>, key: string, now: real) {
    !Has(Evict(table, now), key) && |Evict(table, now)| >= maxKeys
  }

  /** The tokens the key has when it asks, in a table already swept. */
  function Available(limit: nat, swept: seq<Bucket>, key: string, now: real): real {
    var i := Find(swept, key);
    if i < 0 then Refilled(limit, limit as real, 0.0) else Refilled(limit, swept[i].tokens, now - swept[i].updated)
  }

  function Charged(tokens: real): real {
    if tokens >= 1.0 then tokens - 1.0 else tokens
  }

  function Allows(limit: nat, maxKeys: nat, table: seq<Bucket>, key: string, now: real): bool {
    !CapacityRefused(maxKeys, table, key, now) && Available(limit, Evict(table, now), key, now) >= 1.0
  }

  function After(limit: nat, maxKeys: nat, table: seq<Bucket>, key: string, now: real): seq<Bucket> {
    var swept := Evict(table, now);
    if CapacityRefused(maxKeys, table, key, now) then swept
    else Without(swept, key) + [Bucket(key, Charged(Available(limit, swept, key, now)), now)]
  }

  class RateLimiter {
    const limit: nat
    const maxKeys: nat
    var buckets: seq<Bucket>

    constructor (limitPerMinute: int, maxKeys: int)
      requires limitPerMinute >= 1 && maxKeys >= 1
      ensures limit == limitPerMinute && this.maxKeys == maxKeys && buckets == []
    {
      this.limit := limitPerMinute;
      this.maxKeys := maxKeys;
      buckets := [];
    }

    method Allow(key: string, now: real) returns (allowed: bool)
      modifies this`buckets
      ensures allowed == Allows(limit, maxKeys, old(buckets), key, now)
      ensures buckets == After(limit, maxKeys, old(buckets), key, now)
    {
      EvictIdle(now);
      var i := Find(buckets, key);
      if i < 0 && |buckets| >= maxKeys {
        return false;
      }
      var tokens, updated := limit as real, now;
      if i >= 0 {
        tokens, updated := buckets[i].tokens, buckets[i].updated;
      }
      var elapsed := Max(0.0, now - updated);
      EarnedIsProduct(limit, elapsed);
      tokens := Min(limit as real, tokens + elapsed * limit as real / 60.0);
      assert tokens == Available(limit, buckets, key, now);
      allowed := tokens >= 1.0;
      if allowed {
        tokens := tokens - 1.0;
      }
      buckets := (if i < 0 then buckets else buckets[..i] + buckets[i + 1..]) + [Bucket(key, tokens, now)];
    }

    method EvictIdle(now: real)
      modifies this`buckets
      ensures buckets == Evict(old(buckets), now)
    {
      while buckets != []
        invariant Evict(buckets, now) == Evict(old(buckets), now)
        decreases |buckets|
      {
        if now - buckets[0].updated < 60.0 {
          break;
        }
        buckets := buckets[1..];
      }
    }
  }

  // ----- the table's invariant under a clock that does not go back

  ghost predicate Distinct(table: seq<Bucket>) {
    forall i, k | 0 <= i < k < |table| :: table[i].key != table[k].key
  }

  ghost predicate Sorted(table: seq<Bucket>) {
    forall i, k | 0 <= i < k < |table| :: table[i].updated <= table[k].updated
  }

  ghost predicate WellFormed(limit: nat, maxKeys: nat, table: seq<Bucket>, now: real) {
    && Distinct(table) && Sorted(table) && |table| <= maxKeys
    && forall i | 0 <= i < |table| :: 0.0 <= table[i].tokens <= limit as real && table[i].updated <= now
  }

  /** On a sorted table the oldest-first loop drops exactly the buckets idle for a minute or more. */
  lemma {:induction false} EvictIsSuffix(table: seq<Bucket>, now: real) returns (n: nat)
    requires Sorted(table)
    ensures n <= |table| && Evict(table, now) == table[n..]
    ensures forall i | 0 <= i < n :: now - table[i].updated >= 60.0
    ensures forall i | n <= i < |table| :: now - table[i].updated < 60.0
  {
    if table == [] || now - table[0].updated < 60.0 {
      n := 0;
    } else {
      var m := EvictIsSuffix(table[1..], now);
      n := m + 1;
      assert table[1..][m..] == table[n..];
      forall i | 0 <= i < n ensures now - table[i].updated >= 60.0 {
        if i > 0 {
          assert table[1..][i - 1] == table[i];
        }
      }
      forall i | n <= i < |table| ensures now - table[i].updated < 60.0 {
        assert table[1..][i - 1] == table[i];
      }
    }
  }

  lemma EvictKeepsWellFormed(limit: nat, maxKeys: nat, table: seq<Bucket>, now: real)
    requires WellFormed(limit, maxKeys, table, now)
    ensures WellFormed(limit, maxKeys, Evict(table, now), now)
  {
    var n := EvictIsSuffix(table, now);
  }

  lemma RefilledInRange(limit: nat, tokens: real, elapsed: real)
    requires limit >= 1 && 0.0 <= tokens <= limit as real
    ensures tokens <= Refilled(limit, tokens, elapsed) <= limit as real
  {
    EarnedNotNegative(limit, Max(0.0, elapsed));
  }

  lemma AvailableInRange(limit: nat, maxKeys: nat, swept: seq<Bucket>, key: string, now: real)
    requires limit >= 1 && WellFormed(limit, maxKeys, swept, now)
    ensures 0.0 <= Available(limit, swept, key, now) <= limit as real
  {
    var i := Find(swept, key);
    if i >= 0 {
      RefilledInRange(limit, swept[i].tokens, now - swept[i].updated);
    } else {
      RefilledInRange(limit, limit as real, 0.0);
    }
  }

  lemma WithoutKeepsWellFormed(limit: nat, maxKeys: nat, table: seq<Bucket>, key: string, now: real)
    requires WellFormed(limit, maxKeys, table, now)
    ensures WellFormed(limit, maxKeys, Without(table, key), now)
    ensures forall k | 0 <= k < |Without(table, key)| :: Without(table, key)[k].key != key
    ensures |Without(table, key)| == |table| - if Has(table, key) then 1 else 0
  {
    var i, rest := Find(table, key), Without(table, key);
    if i >= 0 {
      forall k | 0 <= k < |rest| ensures rest[k] == table[if k < i then k else k + 1] {
      }
    }
  }

  lemma AppendKeepsWellFormed(limit: nat, maxKeys: nat, rest: seq<Bucket>, b: Bucket, now: real)
    requires WellFormed(limit, maxKeys, rest, now) && |rest| < maxKeys
    requires forall k | 0 <= k < |rest| :: rest[k].key != b.key
    requires 0.0 <= b.tokens <= limit as real && b.updated == now
    ensures WellFormed(limit, maxKeys, rest + [b], now)
  {
  }

  /** Every call keeps the table sorted, without repeats, within capacity and within [0, limit]. */
  lemma CallKeepsWellFormed(limit: nat, maxKeys: nat, table: seq<Bucket>, key: string, now: real)
    requires limit >= 1 && maxKeys >= 1 && WellFormed(limit, maxKeys, table, now)
    ensures WellFormed(limit, maxKeys, After(limit, maxKeys, table, key, now), now)
  {
    EvictKeepsWellFormed(limit, maxKeys, table, now);
    if !CapacityRefused(maxKeys, table, key, now) {
      var swept := Evict(table, now);
      AvailableInRange(limit, maxKeys, swept, key, now);
      WithoutKeepsWellFormed(limit, maxKeys, swept, key, now);
      AppendKeepsWellFormed(limit, maxKeys, Without(swept, key),
                            Bucket(key, Charged(Available(limit, swept, key, now)), now), now);
    }
  }

  lemma FindUnique(table: seq<Bucket>, key: string, i: nat)
    requires Distinct(table) && i < |table| && table[i].key == key
    ensures Find(table, key) == i
  {
  }

  // ----- the level of a key

  /** The tokens a key would have at `now` had no bucket ever been evicted: a key without a bucket is full. */
  function Level(limit: nat, table: seq<Bucket>, key: string, now: real): real {
    var i := Find(table, key);
    if i < 0 then limit as real else Refilled(limit, table[i].tokens, now - table[i].updated)
  }

  /** Eviction is invisible: a bucket idle for a minute has refilled completely. */
  lemma {:induction false} EvictKeepsLevel(limit: nat, maxKeys: nat, table: seq<Bucket>, key: string, at: real, now: real)
    requires limit >= 1 && WellFormed(limit, maxKeys, table, at) && at <= now
    ensures Level(limit, Evict(table, at), key, now) == Level(limit, table, key, now)
    ensures Has(Evict(table, at), key) ==> Has(table, key)
  {
    var n := EvictIsSuffix(table, at);
    var i := Find(table, key);
    if i >= n {
      SuffixFinds(table, n, key, i);
    } else if i >= 0 {
      SuffixLoses(table, n, key, i);
      IdleIsFull(limit, maxKeys, table, i, at, now);
    }
  }

  lemma IdleIsFull(limit: nat, maxKeys: nat, table: seq<Bucket>, i: nat, at: real, now: real)
    requires limit >= 1 && WellFormed(limit, maxKeys, table, at) && at <= now
    requires i < |table| && at - table[i].updated >= 60.0
    ensures Refilled(limit, table[i].tokens, now - table[i].updated) == limit as real
  {
    FullAfterAMinute(limit, table[i].tokens, now - table[i].updated);
  }

  lemma SuffixFinds(table: seq<Bucket>, n: nat, key: string, i: nat)
    requires Distinct(table) && n <= i < |table| && table[i].key == key
    ensures Find(table[n..], key) == i - n
  {
    assert table[n..][i - n].key == key;
    FindUnique(table[n..], key, i - n);
  }

  lemma SuffixLoses(table: seq<Bucket>, n: nat, key: string, i: nat)
    requires Distinct(table) && i < n <= |table| && table[i].key == key
    ensures Find(table[n..], key) == -1
  {
    forall k | 0 <= k < |table[n..]| ensures table[n..][k].key != key {
      assert table[n..][k] == table[n + k];
    }
  }

  lemma FullAfterAMinute(limit: nat, tokens: real, elapsed: real)
    requires limit >= 1 && tokens >= 0.0 && elapsed >= 60.0
    ensures Refilled(limit, tokens, elapsed) == limit as real
  {
    EarnedInAMinute(limit);
    EarnedAdds(limit, 60.0, elapsed - 60.0);
    EarnedNotNegative(limit, elapsed - 60.0);
  }

  lemma LevelOfAppended(limit: nat, table: seq<Bucket>, b: Bucket, key: string, now: real)
    ensures Level(limit, table + [b], key, now) ==
            if b.key == key then Refilled(limit, b.tokens, now - b.updated) else Level(limit, table, key, now)
  {
    assert (table + [b])[..|table|] == table;
  }

  lemma WithoutKeepsOthers(limit: nat, table: seq<Bucket>, key: string, other: string, now: real)
    requires Distinct(table) && other != key
    ensures Level(limit, Without(table, key), other, now) == Level(limit, table, other, now)
  {
    var i, o := Find(table, key), Find(table, other);
    if i >= 0 {
      var rest := Without(table, key);
      if o >= 0 {
        var p := if o < i then o else o - 1;
        assert rest[p] == table[o];
        FindUnique(rest, other, p);
      }
    }
  }

  lemma FullRefill(limit: nat)
    ensures Refilled(limit, limit as real, 0.0) == limit as real
  {
    EarnedAtOnce(limit);
  }

  /** What a key has in the swept table is its level. */
  lemma AvailableIsLevel(limit: nat, maxKeys: nat, table: seq<Bucket>, key: string, now: real)
    requires limit >= 1 && WellFormed(limit, maxKeys, table, now)
    ensures Available(limit, Evict(table, now), key, now) == Level(limit, table, key, now)
  {
    FullRefill(limit);
    EvictKeepsLevel(limit, maxKeys, table, key, now, now);
  }

  /** A call that is let in charges the key's own bucket. */
  lemma {:induction false} CallChargesKey(limit: nat, maxKeys: nat, table: seq<Bucket>, key: string, now: real, later: real)
    requires limit >= 1 && WellFormed(limit, maxKeys, table, now) && now <= later
    requires !CapacityRefused(maxKeys, table, key, now)
    ensures Available(limit, Evict(table, now), key, now) == Level(limit, table, key, now)
    ensures Level(limit, After(limit, maxKeys, table, key, now), key, later) ==
            Refilled(limit, Charged(Level(limit, table, key, now)), later - now)
  {
    AvailableIsLevel(limit, maxKeys, table, key, now);
    var swept := Evict(table, now);
    LevelOfAppended(limit, Without(swept, key), Bucket(key, Charged(Available(limit, swept, key, now)), now), key, later);
  }

  /** A call leaves the level of every other key, and a refused one leaves them all. */
  lemma CallLeavesOthers(limit: nat, maxKeys: nat, table: seq<Bucket>, key: string, now: real, other: string, later: real)
    requires limit >= 1 && WellFormed(limit, maxKeys, table, now) && now <= later
    requires other != key || CapacityRefused(maxKeys, table, key, now)
    ensures Level(limit, After(limit, maxKeys, table, key, now), other, later) == Level(limit, table, other, later)
  {
    EvictKeepsLevel(limit, maxKeys, table, other, now, later);
    EvictKeepsWellFormed(limit, maxKeys, table, now);
    if !CapacityRefused(maxKeys, table, key, now) {
      var swept := Evict(table, now);
      WithoutKeepsOthers(limit, swept, key, other, later);
      LevelOfAppended(limit, Without(swept, key), Bucket(key, Charged(Available(limit, swept, key, now)), now), other, later);
    }
  }

  // ----- runs

  datatype Ask = Ask(key: string, time: real)

  /** The clock never goes back, and no ask is before `start`. */
  ghost predicate Monotone(asks: seq<Ask>, start: real) {
    asks != [] ==> start <= asks[0].time && Monotone(asks[1..], asks[0].time)
  }

  ghost function TableAfter(limit: nat, maxKeys: nat, table: seq<Bucket>, asks: seq<Ask>): seq<Bucket>
    decreases |asks|
  {
    if asks == [] then table
    else TableAfter(limit, maxKeys, After(limit, maxKeys, table, asks[0].key, asks[0].time), asks[1..])
  }

  /** The limiter's answers to a run of calls. */
  ghost function Answers(limit: nat, maxKeys: nat, table: seq<Bucket>, asks: seq<Ask>): (r: seq<bool>)
    ensures |r| == |asks|
    decreases |asks|
  {
    if asks == [] then []
    else
      [Allows(limit, maxKeys, table, asks[0].key, asks[0].time)]
      + Answers(limit, maxKeys, After(limit, maxKeys, table, asks[0].key, asks[0].time), asks[1..])
  }

  // ----- the limiter that never forgets

  /** The ideal limiter: tokens and time of the last charge or refusal of every key, never evicted. */
  type Ideal = map<string, (real, real)>

  /** A key never seen has a full bucket; any other has what it was left with and what the time since
   *  has earned it, up to the limit. */
  function IdealTokens(limit: nat, ideal: Ideal, key: string, now: real): real {
    if key !in ideal then limit as real
    else
      var (tokens, updated) := ideal[key];
      var elapsed := if now > updated then now - updated else 0.0;
      var refilled := tokens + elapsed * limit as real / 60.0;
      if refilled > limit as real then limit as real else refilled
  }

  /** A whole token is spent when there is one. */
  function IdealAfter(limit: nat, ideal: Ideal, key: string, now: real): Ideal {
    var tokens := IdealTokens(limit, ideal, key, now);
    ideal[key := (if tokens >= 1.0 then tokens - 1.0 else tokens, now)]
  }

  /** The keys of the last minute. */
  function Recent(ideal: Ideal, now: real): set<string> {
    set k | k in ideal && now - ideal[k].1 < 60.0
  }

  /** A key not of the last minute finds no room when there are already `maxKeys` that are. */
  predicate NoRoom(maxKeys: nat, ideal: Ideal, key: string, now: real) {
    key !in Recent(ideal, now) && |Recent(ideal, now)| >= maxKeys
  }

  /** A key without room is refused and leaves no trace. */
  ghost function IdealAnswers(limit: nat, maxKeys: nat, ideal: Ideal, asks: seq<Ask>): (r: seq<bool>)
    ensures |r| == |asks|
    decreases |asks|
  {
    if asks == [] then []
    else if NoRoom(maxKeys, ideal, asks[0].key, asks[0].time) then
      [false] + IdealAnswers(limit, maxKeys, ideal, asks[1..])
    else
      [IdealTokens(limit, ideal, asks[0].key, asks[0].time) >= 1.0]
      + IdealAnswers(limit, maxKeys, IdealAfter(limit, ideal, asks[0].key, asks[0].time), asks[1..])
  }

  // ----- the same limiter in terms of accrual

  function Accrued(limit: nat, ideal: Ideal, key: string, now: real): real {
    var (tokens, updated) := if key in ideal then ideal[key] else (limit as real, now);
    Refilled(limit, tokens, now - updated)
  }

  function AccruedAfter(limit: nat, ideal: Ideal, key: string, now: real): Ideal {
    ideal[key := (Charged(Accrued(limit, ideal, key, now)), now)]
  }

  ghost function AccruedAnswers(limit: nat, maxKeys: nat, ideal: Ideal, asks: seq<Ask>): (r: seq<bool>)
    ensures |r| == |asks|
    decreases |asks|
  {
    if asks == [] then []
    else if NoRoom(maxKeys, ideal, asks[0].key, asks[0].time) then
      [false] + AccruedAnswers(limit, maxKeys, ideal, asks[1..])
    else
      [Accrued(limit, ideal, asks[0].key, asks[0].time) >= 1.0]
      + AccruedAnswers(limit, maxKeys, AccruedAfter(limit, ideal, asks[0].key, asks[0].time), asks[1..])
  }

  lemma AccruedIsIdeal(limit: nat, ideal: Ideal, key: string, now: real)
    ensures Accrued(limit, ideal, key, now) == IdealTokens(limit, ideal, key, now)
  {
    FullRefill(limit);
    if key in ideal {
      EarnedIsProduct(limit, Max(0.0, now - ideal[key].1));
    }
  }

  lemma {:induction false} AccruedAnswersAreIdeal(limit: nat, maxKeys: nat, ideal: Ideal, asks: seq<Ask>)
    ensures AccruedAnswers(limit, maxKeys, ideal, asks) == IdealAnswers(limit, maxKeys, ideal, asks)
    decreases |asks|
  {
    if asks != [] {
      var key, now := asks[0].key, asks[0].time;
      AccruedIsIdeal(limit, ideal, key, now);
      AccruedAnswersAreIdeal(limit, maxKeys, ideal, asks[1..]);
      AccruedAnswersAreIdeal(limit, maxKeys, AccruedAfter(limit, ideal, key, now), asks[1..]);
    }
  }

  // ----- the table holds exactly the keys of the last minute

  function KeysOf(table: seq<Bucket>): set<string> {
    set i | 0 <= i < |table| :: table[i].key
  }

  lemma {:induction false} KeysCount(table: seq<Bucket>)
    requires Distinct(table)
    ensures |KeysOf(table)| == |table|
  {
    if table != [] {
      var front, last := table[..|table| - 1], table[|table| - 1];
      KeysCount(front);
      assert KeysOf(table) == KeysOf(front) + {last.key};
    }
  }

  lemma HasIsKey(table: seq<Bucket>, key: string)
    ensures Has(table, key) <==> key in KeysOf(table)
  {
  }

  /** Every bucket's time is the ideal limiter's, and every key of the last minute has a bucket. */
  ghost predicate Tracks(table: seq<Bucket>, ideal: Ideal, now: real) {
    && (forall i | 0 <= i < |table| :: table[i].key in ideal && ideal[table[i].key].1 == table[i].updated)
    && Recent(ideal, now) <= KeysOf(table)
  }

  lemma SweptTracks(table: seq<Bucket>, ideal: Ideal, at: real, now: real)
    requires Sorted(table) && Tracks(table, ideal, at) && at <= now
    ensures Tracks(Evict(table, now), ideal, now) && KeysOf(Evict(table, now)) == Recent(ideal, now)
  {
    var n := EvictIsSuffix(table, now);
    var swept := table[n..];
    forall k | k in Recent(ideal, now) ensures k in KeysOf(swept) {
      assert k in Recent(ideal, at);
      var i :| 0 <= i < |table| && table[i].key == k;
      assert swept[i - n] == table[i];
    }
    forall k | k in KeysOf(swept) ensures k in Recent(ideal, now) {
      var i :| 0 <= i < |swept| && swept[i].key == k;
      assert swept[i] == table[n + i];
    }
  }

  /** There is no room in the table exactly when there is none in the ideal limiter's last minute. */
  lemma RoomAgrees(limit: nat, maxKeys: nat, table: seq<Bucket>, ideal: Ideal, key: string, at: real, now: real)
    requires WellFormed(limit, maxKeys, table, at) && Tracks(table, ideal, at) && at <= now
    ensures CapacityRefused(maxKeys, table, key, now) <==> NoRoom(maxKeys, ideal, key, now)
  {
    var n := EvictIsSuffix(table, now);
    SweptTracks(table, ideal, at, now);
    HasIsKey(Evict(table, now), key);
    KeysCount(Evict(table, now));
  }

  lemma WithoutKeys(table: seq<Bucket>, key: string)
    requires Distinct(table)
    ensures KeysOf(Without(table, key)) == KeysOf(table) - {key}
    ensures forall k | 0 <= k < |Without(table, key)| :: Without(table, key)[k] in table
  {
    var i, rest := Find(table, key), Without(table, key);
    if i >= 0 {
      forall k | k in KeysOf(table) && k != key ensures k in KeysOf(rest) {
        var j :| 0 <= j < |table| && table[j].key == k;
        assert rest[if j < i then j else j - 1] == table[j];
      }
      forall k | 0 <= k < |rest| ensures rest[k] in table && rest[k].key != key {
        assert rest[k] == table[if k < i then k else k + 1];
      }
    }
  }

  lemma ChargedTracks(swept: seq<Bucket>, ideal: Ideal, key: string, tokens: real, left: real, now: real)
    requires Distinct(swept) && Tracks(swept, ideal, now)
    ensures Tracks(Without(swept, key) + [Bucket(key, tokens, now)], ideal[key := (left, now)], now)
  {
    WithoutKeys(swept, key);
    var rest, table := Without(swept, key), Without(swept, key) + [Bucket(key, tokens, now)];
    assert KeysOf(table) == KeysOf(rest) + {key} by {
      assert table[|rest|].key == key;
      assert forall i | 0 <= i < |rest| :: table[i] == rest[i];
    }
    forall i | 0 <= i < |table|
      ensures table[i].key in ideal[key := (left, now)] && ideal[key := (left, now)][table[i].key].1 == table[i].updated
    {
      if i < |rest| {
        assert table[i] == rest[i] && rest[i] in swept && rest[i].key in KeysOf(rest);
      }
    }
  }

  // ----- refinement

  /** Both limiters give every key the same level, now and at any later time. */
  ghost predicate SameLevels(limit: nat, table: seq<Bucket>, ideal: Ideal, now: real) {
    && (forall k | k in ideal :: ideal[k].1 <= now)
    && (forall k, later: real | now <= later :: Level(limit, table, k, later) == Accrued(limit, ideal, k, later))
  }

  /** What the ideal limiter holds after a call the real one did not refuse for want of room. */
  function AccruedNext(limit: nat, maxKeys: nat, table: seq<Bucket>, ideal: Ideal, key: string, now: real): Ideal {
    if CapacityRefused(maxKeys, table, key, now) then ideal else AccruedAfter(limit, ideal, key, now)
  }

  lemma CallKeepsTracks(limit: nat, maxKeys: nat, table: seq<Bucket>, ideal: Ideal, key: string, now: real)
    requires WellFormed(limit, maxKeys, table, now) && Tracks(table, ideal, now)
    ensures Tracks(After(limit, maxKeys, table, key, now), AccruedNext(limit, maxKeys, table, ideal, key, now), now)
  {
    SweptTracks(table, ideal, now, now);
    EvictKeepsWellFormed(limit, maxKeys, table, now);
    if !CapacityRefused(maxKeys, table, key, now) {
      var swept := Evict(table, now);
      ChargedTracks(swept, ideal, key, Charged(Available(limit, swept, key, now)), Charged(Accrued(limit, ideal, key, now)), now);
    }
  }

  lemma AccruedElsewhere(limit: nat, ideal: Ideal, key: string, now: real, k: string, later: real)
    requires k != key
    ensures Accrued(limit, AccruedAfter(limit, ideal, key, now), k, later) == Accrued(limit, ideal, k, later)
  {
  }

  lemma AccruedHere(limit: nat, ideal: Ideal, key: string, now: real, later: real)
    ensures Accrued(limit, AccruedAfter(limit, ideal, key, now), key, later) ==
            Refilled(limit, Charged(Accrued(limit, ideal, key, now)), later - now)
  {
  }

  lemma {:induction false} CallKeepsSameLevel(limit: nat, maxKeys: nat, table: seq<Bucket>, ideal: Ideal, key: string, now: real, k: string, later: real)
    requires limit >= 1 && WellFormed(limit, maxKeys, table, now) && now <= later
    requires Level(limit, table, key, now) == Accrued(limit, ideal, key, now)
    requires Level(limit, table, k, later) == Accrued(limit, ideal, k, later)
    ensures Level(limit, After(limit, maxKeys, table, key, now), k, later) ==
            Accrued(limit, AccruedNext(limit, maxKeys, table, ideal, key, now), k, later)
  {
    if CapacityRefused(maxKeys, table, key, now) {
      CallLeavesOthers(limit, maxKeys, table, key, now, k, later);
    } else if k == key {
      CallChargesKey(limit, maxKeys, table, key, now, later);
      AccruedHere(limit, ideal, key, now, later);
    } else {
      CallLeavesOthers(limit, maxKeys, table, key, now, k, later);
      AccruedElsewhere(limit, ideal, key, now, k, later);
    }
  }

  lemma CallKeepsSameLevels(limit: nat, maxKeys: nat, table: seq<Bucket>, ideal: Ideal, key: string, now: real)
    requires limit >= 1 && WellFormed(limit, maxKeys, table, now) && SameLevels(limit, table, ideal, now)
    ensures SameLevels(limit, After(limit, maxKeys, table, key, now), AccruedNext(limit, maxKeys, table, ideal, key, now), now)
    ensures !CapacityRefused(maxKeys, table, key, now) ==>
              (Allows(limit, maxKeys, table, key, now) <==> Accrued(limit, ideal, key, now) >= 1.0)
  {
    var after, ideal' := After(limit, maxKeys, table, key, now), AccruedNext(limit, maxKeys, table, ideal, key, now);
    forall k, later: real | now <= later
      ensures Level(limit, after, k, later) == Accrued(limit, ideal', k, later)
    {
      CallKeepsSameLevel(limit, maxKeys, table, ideal, key, now, k, later);
    }
    assert Level(limit, table, key, now) == Accrued(limit, ideal, key, now);
    if !CapacityRefused(maxKeys, table, key, now) {
      CallChargesKey(limit, maxKeys, table, key, now, now);
    }
  }

  lemma SameLevelsLater(limit: nat, table: seq<Bucket>, ideal: Ideal, now: real, later: real)
    requires SameLevels(limit, table, ideal, now) && now <= later
    ensures SameLevels(limit, table, ideal, later)
  {
  }

  lemma TracksLater(table: seq<Bucket>, ideal: Ideal, now: real, later: real)
    requires Tracks(table, ideal, now) && now <= later
    ensures Tracks(table, ideal, later)
  {
    assert Recent(ideal, later) <= Recent(ideal, now);
  }

  lemma {:induction false} RunAnswersAsAccrued(limit: nat, maxKeys: nat, table: seq<Bucket>, ideal: Ideal, asks: seq<Ask>, start: real)
    requires limit >= 1 && maxKeys >= 1 && Monotone(asks, start)
    requires WellFormed(limit, maxKeys, table, start) && SameLevels(limit, table, ideal, start) && Tracks(table, ideal, start)
    ensures Answers(limit, maxKeys, table, asks) == AccruedAnswers(limit, maxKeys, ideal, asks)
    decreases |asks|
  {
    if asks != [] {
      var key, now := asks[0].key, asks[0].time;
      var after, next := After(limit, maxKeys, table, key, now), AccruedNext(limit, maxKeys, table, ideal, key, now);
      RoomAgrees(limit, maxKeys, table, ideal, key, start, now);
      SameLevelsLater(limit, table, ideal, start, now);
      TracksLater(table, ideal, start, now);
      CallKeepsWellFormed(limit, maxKeys, table, key, now);
      CallKeepsSameLevels(limit, maxKeys, table, ideal, key, now);
      CallKeepsTracks(limit, maxKeys, table, ideal, key, now);
      RunAnswersAsAccrued(limit, maxKeys, after, next, asks[1..], now);
    }
  }

  /** From empty tables, under a clock that never goes back, the bounded evicting limiter answers every
   *  run exactly as the one that never forgets. */
  lemma RefinesIdeal(limit: nat, maxKeys: nat, asks: seq<Ask>, start: real)
    requires limit >= 1 && maxKeys >= 1 && Monotone(asks, start)
    ensures Answers(limit, maxKeys, [], asks) == IdealAnswers(limit, maxKeys, map[], asks)
  {
    EarnedAtOnce(limit);
    forall k, later: real | start <= later ensures Level(limit, [], k, later) == Accrued(limit, map[], k, later) {
    }
    RunAnswersAsAccrued(limit, maxKeys, [], map[], asks, start);
    AccruedAnswersAreIdeal(limit, maxKeys, map[], asks);
  }

  // ----- the window bound

  /** How often a key is admitted in a run. */
  ghost function Admitted(limit: nat, maxKeys: nat, table: seq<Bucket>, asks: seq<Ask>, key: string): nat
    decreases |asks|
  {
    if asks == [] then 0
    else
      (if asks[0].key == key && Allows(limit, maxKeys, table, key, asks[0].time) then 1 else 0)
      + Admitted(limit, maxKeys, After(limit, maxKeys, table, asks[0].key, asks[0].time), asks[1..], key)
  }

  lemma LevelInRange(limit: nat, maxKeys: nat, table: seq<Bucket>, key: string, at: real, now: real)
    requires limit >= 1 && WellFormed(limit, maxKeys, table, at)
    ensures 0.0 <= Level(limit, table, key, now) <= limit as real
  {
    var i := Find(table, key);
    if i >= 0 {
      RefilledInRange(limit, table[i].tokens, now - table[i].updated);
    }
  }

  /** A level rises at most at the refill rate. */
  lemma LevelRises(limit: nat, maxKeys: nat, table: seq<Bucket>, key: string, at: real, now: real)
    requires limit >= 1 && WellFormed(limit, maxKeys, table, at) && at <= now
    ensures Level(limit, table, key, now) <= Level(limit, table, key, at) + Earned(limit, now - at)
  {
    var i := Find(table, key);
    EarnedNotNegative(limit, now - at);
    if i >= 0 {
      EarnedAdds(limit, now - at, at - table[i].updated);
    }
  }

  lemma {:induction false} AdmissionsWithin(limit: nat, maxKeys: nat, table: seq<Bucket>, asks: seq<Ask>, key: string, start: real, end: real)
    requires limit >= 1 && maxKeys >= 1 && Monotone(asks, start) && WellFormed(limit, maxKeys, table, start)
    requires start <= end && Until(asks, end)
    ensures Admitted(limit, maxKeys, table, asks, key) as real
            <= Level(limit, table, key, start) + Earned(limit, end - start)
    decreases |asks|
  {
    if asks == [] {
      LevelInRange(limit, maxKeys, table, key, start, start);
      EarnedNotNegative(limit, end - start);
    } else {
      var now, after := asks[0].time, After(limit, maxKeys, table, asks[0].key, asks[0].time);
      forall i | 0 <= i < |asks[1..]| ensures asks[1..][i].time <= end {
        assert asks[1..][i] == asks[i + 1];
      }
      CallKeepsWellFormed(limit, maxKeys, table, asks[0].key, now);
      AdmissionsWithin(limit, maxKeys, after, asks[1..], key, now, end);
      OneMoreAsk(limit, maxKeys, table, asks[0], key, start, end,
                 Admitted(limit, maxKeys, after, asks[1..], key) as real);
    }
  }

  /** The bound for the later asks carries over one ask. */
  lemma OneMoreAsk(limit: nat, maxKeys: nat, table: seq<Bucket>, ask: Ask, key: string, start: real, end: real, later: real)
    requires limit >= 1 && maxKeys >= 1 && start <= ask.time && WellFormed(limit, maxKeys, table, start)
    requires later <= Level(limit, After(limit, maxKeys, table, ask.key, ask.time), key, ask.time) + Earned(limit, end - ask.time)
    ensures later + (if ask.key == key && Allows(limit, maxKeys, table, key, ask.time) then 1.0 else 0.0)
            <= Level(limit, table, key, start) + Earned(limit, end - start)
  {
    LevelRises(limit, maxKeys, table, key, start, ask.time);
    CallSpends(limit, maxKeys, table, ask.key, ask.time, key);
    EarnedAdds(limit, end - ask.time, ask.time - start);
  }

  /** An admission costs one token and nothing else costs any. */
  lemma CallSpends(limit: nat, maxKeys: nat, table: seq<Bucket>, asked: string, now: real, key: string)
    requires limit >= 1 && maxKeys >= 1 && WellFormed(limit, maxKeys, table, now)
    ensures Level(limit, After(limit, maxKeys, table, asked, now), key, now) ==
            Level(limit, table, key, now) - if asked == key && Allows(limit, maxKeys, table, key, now) then 1.0 else 0.0
  {
    EarnedAtOnce(limit);
    LevelInRange(limit, maxKeys, table, key, now, now);
    if asked == key && !CapacityRefused(maxKeys, table, key, now) {
      CallChargesKey(limit, maxKeys, table, key, now, now);
    } else {
      CallLeavesOthers(limit, maxKeys, table, asked, now, key, now);
    }
  }

  /** No ask is later than `end`. */
  ghost predicate Until(asks: seq<Ask>, end: real) {
    forall i | 0 <= i < |asks| :: asks[i].time <= end
  }

  /** In any run, within any `seconds` a key is admitted at most limit + seconds * limit / 60 times,
   *  even across its own eviction and return. */
  lemma WindowBound(limit: nat, maxKeys: nat, before: seq<Ask>, within: seq<Ask>, key: string, start: real, from: real, seconds: real)
    requires limit >= 1 && maxKeys >= 1 && start <= from && seconds >= 0.0
    requires Monotone(before, start) && Until(before, from) && Monotone(within, from) && Until(within, from + seconds)
    ensures Admitted(limit, maxKeys, TableAfter(limit, maxKeys, [], before), within, key) as real
            <= limit as real + seconds * limit as real / 60.0
  {
    WindowEarns(limit, maxKeys, before, within, key, start, from, from + seconds);
    assert from + seconds - from == seconds;
    EarnedIsProduct(limit, seconds);
  }

  lemma WindowEarns(limit: nat, maxKeys: nat, before: seq<Ask>, within: seq<Ask>, key: string, start: real, from: real, end: real)
    requires limit >= 1 && maxKeys >= 1 && start <= from <= end
    requires Monotone(before, start) && Until(before, from) && Monotone(within, from) && Until(within, end)
    ensures Admitted(limit, maxKeys, TableAfter(limit, maxKeys, [], before), within, key) as real
            <= limit as real + Earned(limit, end - from)
  {
    var table := TableAfter(limit, maxKeys, [], before);
    RunKeepsWellFormed(limit, maxKeys, [], before, start, from);
    AdmissionsWithin(limit, maxKeys, table, within, key, from, end);
    LevelInRange(limit, maxKeys, table, key, from, from);
  }

  /** After any run the table is within capacity, its tokens within [0, limit], its keys distinct. */
  lemma TableIsBounded(limit: nat, maxKeys: nat, asks: seq<Ask>, start: real, end: real)
    requires limit >= 1 && maxKeys >= 1 && start <= end && Monotone(asks, start) && Until(asks, end)
    ensures var table := TableAfter(limit, maxKeys, [], asks);
            && |table| <= maxKeys && Distinct(table)
            && forall i | 0 <= i < |table| :: 0.0 <= table[i].tokens <= limit as real
  {
    RunKeepsWellFormed(limit, maxKeys, [], asks, start, end);
  }

  lemma {:induction false} RunKeepsWellFormed(limit: nat, maxKeys: nat, table: seq<Bucket>, asks: seq<Ask>, start: real, end: real)
    requires limit >= 1 && maxKeys >= 1 && Monotone(asks, start) && WellFormed(limit, maxKeys, table, start)
    requires start <= end && Until(asks, end)
    ensures WellFormed(limit, maxKeys, TableAfter(limit, maxKeys, table, asks), end)
    decreases |asks|
  {
    if asks != [] {
      forall i | 0 <= i < |asks[1..]| ensures asks[1..][i].time <= end {
        assert asks[1..][i] == asks[i + 1];
      }
      CallKeepsWellFormed(limit, maxKeys, table, asks[0].key, asks[0].time);
      RunKeepsWellFormed(limit, maxKeys, After(limit, maxKeys, table, asks[0].key, asks[0].time), asks[1..], asks[0].time, end);
    }
  }

  // ----- a clock that goes back

  const KEY := "worker-1"
  const SPENT := [Bucket(KEY, 0.0, 60.0)]
  const BACKDATED := [Bucket(KEY, 0.0, 0.0)]

  /** The first call at time 60 spends the key's one token. */
  lemma FirstAsk()
    ensures Allows(1, 1, [], KEY, 60.0) && After(1, 1, [], KEY, 60.0) == SPENT
  {
    EarnedAtOnce(1);
  }

  /** A refused call at time 0 dates the bucket back. */
  lemma EarlierAsk()
    ensures !Allows(1, 1, SPENT, KEY, 0.0) && After(1, 1, SPENT, KEY, 0.0) == BACKDATED
  {
    EarnedAtOnce(1);
    assert Evict(SPENT, 0.0) == SPENT && Find(SPENT, KEY) == 0;
  }

  /** Back at time 60 the bucket looks a minute old. */
  lemma LastAsk()
    ensures Allows(1, 1, BACKDATED, KEY, 60.0)
  {
    EarnedAtOnce(1);
    assert Evict(BACKDATED, 60.0) == [];
  }

  /** The hypothesis is needed. With a limit of one a minute and a clock that goes back once, a key is
   *  admitted twice at time 60, where `WindowBound` would allow it once in zero seconds. */
  lemma BackwardClockBreaksTheBound()
    ensures var asks := [Ask(KEY, 60.0), Ask(KEY, 0.0), Ask(KEY, 60.0)];
            && !Monotone(asks, 60.0) && Until(asks, 60.0 + 0.0)
            && Answers(1, 1, [], asks) == [true, false, true]
            && Admitted(1, 1, [], asks, KEY) == 2
            && Admitted(1, 1, [], asks, KEY) as real > 1 as real + 0.0 * 1 as real / 60.0
  {
    FirstAsk();
    EarlierAsk();
    LastAsk();
    var asks := [Ask(KEY, 60.0), Ask(KEY, 0.0), Ask(KEY, 60.0)];
    assert asks[1..] == [Ask(KEY, 0.0), Ask(KEY, 60.0)] && asks[1..][1..] == [Ask(KEY, 60.0)];
    assert Answers(1, 1, BACKDATED, [Ask(KEY, 60.0)]) == [true] && Admitted(1, 1, BACKDATED, [Ask(KEY, 60.0)], KEY) == 1;
    assert Answers(1, 1, SPENT, asks[1..]) == [false, true] && Admitted(1, 1, SPENT, asks[1..], KEY) == 1;
  }
}
