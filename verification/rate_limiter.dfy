/** The sliding-log rate limiter: a Redis script over a pruned, expiring sorted set. */
module RateLimiter {
  import opened Types

  const WINDOW_MS: int := 60_000
  const MAX_REQUESTS: nat := 100
  const EXPIRY_MARGIN_MS: int := 1000

  /** An admitted request: when, and the unique member that stands for it. */
  datatype Entry = Entry(at: nat, member: Id)

  /** A Redis key: missing, or a sorted set (member to score) with a deadline. */
  datatype SortedSet = Missing | SortedSet(scores: map<Id, nat>, expireAt: int)

  function Scores(z: SortedSet): map<Id, nat> { if z.Missing? then map[] else z.scores }

  /** ZREMRANGEBYSCORE key 0 cutoff. */
  function Pruned(scores: map<Id, nat>, cutoff: int): map<Id, nat> {
    map m | m in scores && !(0 <= scores[m] <= cutoff) :: scores[m]
  }

  /** What Redis may have done to the key before the script runs: a key may vanish at any
      time at or after its deadline. */
  function Survivor(z: SortedSet, lapsed: bool, now: nat): SortedSet {
    if z.SortedSet? && lapsed && z.expireAt <= now then Missing else z
  }

  /** The script: its answer and the key it leaves. */
  function Script(z: SortedSet, now: nat, member: Id): (bool, SortedSet) {
    var scores := Pruned(Scores(z), now - WINDOW_MS);
    if |scores| >= MAX_REQUESTS then (false, if z.Missing? then Missing else z.(scores := scores))
    else (true, SortedSet(scores[member := now], now + WINDOW_MS + EXPIRY_MARGIN_MS))
  }

  // ----- the unbounded history -----

  /** How many admissions of the history came after `cutoff`. */
  function Recent(history: seq<Entry>, cutoff: int): nat {
    if history == [] then 0
    else Recent(history[..|history| - 1], cutoff) + (if history[|history| - 1].at > cutoff then 1 else 0)
  }

  /** The sorted set that holds exactly the admissions after `cutoff`. */
  function Kept(history: seq<Entry>, cutoff: int): map<Id, nat> {
    if history == [] then map[]
    else
      var e := history[|history| - 1];
      var rest := Kept(history[..|history| - 1], cutoff);
      if e.at > cutoff then rest[e.member := e.at] else rest
  }

  predicate FreshIn(history: seq<Entry>, member: Id) {
    forall k :: 0 <= k < |history| ==> history[k].member != member
  }

  predicate Distinct(history: seq<Entry>) {
    forall j, k :: 0 <= j < k < |history| ==> history[j].member != history[k].member
  }

  lemma {:induction false} KeptMembers(history: seq<Entry>, cutoff: int)
    ensures forall m :: m in Kept(history, cutoff) ==>
              !FreshIn(history, m) && Kept(history, cutoff)[m] > cutoff
  {
    if history != [] {
      var rest := history[..|history| - 1];
      KeptMembers(rest, cutoff);
      forall m | m in Kept(history, cutoff) ensures !FreshIn(history, m) {
        if m in Kept(rest, cutoff) {
          var k :| 0 <= k < |rest| && rest[k].member == m;
          assert history[k].member == m;
        } else {
          assert history[|history| - 1].member == m;
        }
      }
    }
  }

  /** With unique members the sorted set counts the recent history. */
  lemma {:induction false} KeptCounts(history: seq<Entry>, cutoff: int)
    requires Distinct(history)
    ensures |Kept(history, cutoff)| == Recent(history, cutoff)
  {
    if history != [] {
      var rest := history[..|history| - 1];
      var e := history[|history| - 1];
      KeptCounts(rest, cutoff);
      KeptMembers(rest, cutoff);
      assert FreshIn(rest, e.member);
      assert e.member !in Kept(rest, cutoff);
      assert (Kept(rest, cutoff)[e.member := e.at]).Keys == Kept(rest, cutoff).Keys + {e.member};
      CardinalityIsKeys(Kept(rest, cutoff));
      CardinalityIsKeys(Kept(rest, cutoff)[e.member := e.at]);
    }
  }

  lemma CardinalityIsKeys(m: map<Id, nat>)
    ensures |m| == |m.Keys|
  {
  }

  function Max(a: int, b: int): int { if a >= b then a else b }

  /** Pruning what one cutoff kept at another gives what the later of the two keeps. */
  lemma {:induction false} PruneKept(history: seq<Entry>, c: int, d: int)
    requires Distinct(history)
    ensures Pruned(Kept(history, c), d) == Kept(history, Max(c, d))
  {
    if history != [] {
      var rest := history[..|history| - 1];
      var e := history[|history| - 1];
      PruneKept(rest, c, d);
      KeptMembers(rest, c);
      assert FreshIn(rest, e.member);
      assert e.member !in Kept(rest, c);
    }
  }

  lemma {:induction false} OldHistoryIsGone(history: seq<Entry>, cutoff: int)
    requires forall k :: 0 <= k < |history| ==> history[k].at <= cutoff
    ensures Kept(history, cutoff) == map[]
  {
    if history != [] { OldHistoryIsGone(history[..|history| - 1], cutoff); }
  }

  /** The key holds the part of the history that lies in the window of the latest time it
      has seen, and will not lapse while any of it can still matter. */
  ghost predicate Represents(z: SortedSet, history: seq<Entry>, latest: int) {
    && Distinct(history)
    && (forall k :: 0 <= k < |history| ==> history[k].at <= latest)
    && match z
       case Missing => forall k :: 0 <= k < |history| ==> history[k].at <= latest - WINDOW_MS
       case SortedSet(scores, expireAt) =>
         && scores == Kept(history, latest - WINDOW_MS)
         && forall k :: 0 <= k < |history| ==> history[k].at + WINDOW_MS <= expireAt
  }

  /** A key that is missing, or lapses now, held nothing that the window still covers. */
  lemma LapsedIsPruned(z: SortedSet, history: seq<Entry>, latest: int, now: nat, lapsed: bool)
    requires Represents(z, history, latest) && Survivor(z, lapsed, now).Missing?
    ensures Kept(history, Max(latest, now) - WINDOW_MS) == map[]
  {
    OldHistoryIsGone(history, Max(latest, now) - WINDOW_MS);
  }

  /** After its pruning the script sees exactly the window of the latest time. */
  lemma PrunedIsKept(z: SortedSet, history: seq<Entry>, latest: int, now: nat, lapsed: bool)
    requires Represents(z, history, latest)
    ensures Pruned(Scores(Survivor(z, lapsed, now)), now - WINDOW_MS)
            == Kept(history, Max(latest, now) - WINDOW_MS)
  {
    if Survivor(z, lapsed, now).Missing? {
      LapsedIsPruned(z, history, latest, now, lapsed);
      assert Pruned(map[], now - WINDOW_MS) == map[];
    } else {
      PruneKept(history, latest - WINDOW_MS, now - WINDOW_MS);
    }
  }

  lemma RefusalRepresents(z: SortedSet, history: seq<Entry>, latest: int, now: nat, lapsed: bool)
    requires Represents(z, history, latest)
    requires var s := Survivor(z, lapsed, now);
             s.SortedSet? && |Pruned(s.scores, now - WINDOW_MS)| >= MAX_REQUESTS
    ensures Represents(z.(scores := Pruned(z.scores, now - WINDOW_MS)), history, Max(latest, now))
  {
    PrunedIsKept(z, history, latest, now, lapsed);
  }

  lemma AdmissionRepresents(history: seq<Entry>, latest: int, now: nat, member: Id)
    requires Distinct(history) && FreshIn(history, member)
    requires forall k :: 0 <= k < |history| ==> history[k].at <= latest
    requires latest - EXPIRY_MARGIN_MS <= now
    ensures Represents(
              SortedSet(Kept(history, Max(latest, now) - WINDOW_MS)[member := now], now + WINDOW_MS + EXPIRY_MARGIN_MS),
              history + [Entry(now, member)], Max(latest, now))
  {
    var longer := history + [Entry(now, member)];
    assert longer[..|longer| - 1] == history;
  }

  /** One call of the script on a key that represents a history: the answer is whether
      fewer than 100 admissions fall in the window of the latest time, whether or not the
      key lapsed, and the key represents the history with the new admission. The clock may
      step back by as much as the margin that the script adds to the expiry. */
  lemma ScriptRefinesHistory(z: SortedSet, history: seq<Entry>, latest: int, now: nat, member: Id, lapsed: bool)
    requires Represents(z, history, latest) && FreshIn(history, member)
    requires latest - 1000 <= now
    ensures var (allowed, z') := Script(Survivor(z, lapsed, now), now, member);
            && (allowed <==> Recent(history, Max(latest, now) - 60_000) < 100)
            && Represents(z', if allowed then history + [Entry(now, member)] else history, Max(latest, now))
  {
    PrunedIsKept(z, history, latest, now, lapsed);
    KeptCounts(history, Max(latest, now) - WINDOW_MS);
    if |Pruned(Scores(Survivor(z, lapsed, now)), now - WINDOW_MS)| >= MAX_REQUESTS {
      RefusalRepresents(z, history, latest, now, lapsed);
    } else {
      AdmissionRepresents(history, latest, now, member);
    }
  }

  /** What Redis does with a call: it answers, or the call fails before the script has been
      executed, or after. */
  datatype Redis = Answers | FailsBefore | FailsAfter

  /** The script as Redis executes it on one key. */
  method Execute(key: SortedSet, now: nat, member: Id, lapsed: bool) returns (allowed: bool, z: SortedSet)
    ensures (allowed, z) == Script(Survivor(key, lapsed, now), now, member)
  {
    z := key;
    if z.SortedSet? && lapsed && z.expireAt <= now { z := Missing; }
    var scores := Pruned(Scores(z), now - WINDOW_MS);
    if |scores| >= MAX_REQUESTS {
      return false, if z.Missing? then Missing else z.(scores := scores);
    }
    return true, SortedSet(scores[member := now], now + WINDOW_MS + EXPIRY_MARGIN_MS);
  }

  class Limiter {
    var keys: map<string, SortedSet>

    // what each key has admitted so far, and the latest time it was asked at
    ghost var history: map<string, seq<Entry>>
    ghost var latest: map<string, int>

    ghost predicate Valid()
      reads this
    {
      && keys.Keys == history.Keys == latest.Keys
      && forall k {:trigger KeyOk(k)} :: KeyOk(k)
    }

    ghost predicate KeyOk(k: string)
      reads this
    {
      k in keys ==> k in history && k in latest && Represents(keys[k], history[k], latest[k])
    }

    ghost function HistoryOf(key: string): seq<Entry>
      reads this
      requires Valid()
    {
      if key in history then history[key] else []
    }

    ghost function LatestOf(key: string, now: int): int
      reads this
      requires Valid()
    {
      if key in latest then Max(latest[key], now) else now
    }

    constructor ()
      ensures Valid() && history == map[]
    {
      keys, history, latest := map[], map[], map[];
    }

    /** The decision for one request. `lapsed` says whether Redis has already dropped the
        key, which it may once the deadline has passed; it cannot be seen in the answer. A
        call that fails lets the request pass, whether or not the script has counted it. */
    method IsAllowed(key: string, now: nat, member: Id, lapsed: bool, redis: Redis) returns (allowed: bool)
      requires Valid()
      requires key in latest ==> latest[key] - 1000 <= now
      requires FreshIn(HistoryOf(key), member)
      modifies this
      ensures Valid()
      ensures var admits := Recent(old(HistoryOf(key)), old(LatestOf(key, now)) - 60_000) < 100;
              && (allowed <==> admits || !redis.Answers?)
              && HistoryOf(key) == (if admits && !redis.FailsBefore? then old(HistoryOf(key)) + [Entry(now, member)]
                                    else old(HistoryOf(key)))
              && (admits && !redis.FailsBefore? ==>
                    key in keys && keys[key].SortedSet? && keys[key].expireAt == now + 61_000)
      ensures forall k :: k != key ==> HistoryOf(k) == old(HistoryOf(k))
      ensures redis.FailsBefore? ==> keys == old(keys) && latest == old(latest)
      ensures !redis.FailsBefore? ==> latest == old(latest)[key := old(LatestOf(key, now))]
    {
      if redis.FailsBefore? {
        return true;
      }
      assert KeyOk(key);
      ghost var before := HistoryOf(key);
      var z := if key in keys then keys[key] else Missing;
      ScriptRefinesHistory(z, before, if key in latest then latest[key] else now, now, member, lapsed);
      allowed, z := Execute(z, now, member, lapsed);
      Store(key, z, if allowed then before + [Entry(now, member)] else before, LatestOf(key, now));
      allowed := allowed || redis.FailsAfter?;
    }

    /** Write one key back; the other keys keep what they represent. */
    method Store(key: string, z: SortedSet, ghost admitted: seq<Entry>, ghost time: int)
      requires Valid() && Represents(z, admitted, time)
      modifies this
      ensures Valid() && HistoryOf(key) == admitted
      ensures forall k :: k != key ==> HistoryOf(k) == old(HistoryOf(k))
      ensures latest == old(latest)[key := time] && key in keys && keys[key] == z
    {
      keys := keys[key := z];
      history := history[key := admitted];
      latest := latest[key := time];
      forall k ensures KeyOk(k) { assert old(KeyOk(k)); }
    }
  }
}
