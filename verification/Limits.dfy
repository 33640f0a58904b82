/** Sliding-window limiters, against the whole history of what they accepted. */
module Limits {
  import opened Prelude

  type Key = nat

  datatype Call = Call(key: Key, time: int)

  const DEPLOYS_PER_ACCOUNT: nat := 5
  const DEPLOYS_IN_ALL: nat := 20
  const HOUR: nat := 3600

  // ---- the specification: nothing is forgotten ----

  predicate Concerns(c: Call, who: Option<Key>) {
    who == None || who == Some(c.key)
  }

  /** The times after a cutoff of one key's calls, or of all, among the first k. */
  function Times(h: seq<Call>, who: Option<Key>, cutoff: int, k: nat): (r: seq<int>)
    requires k <= |h|
    ensures |r| <= k
  {
    if k == 0 then []
    else Times(h, who, cutoff, k - 1)
         + (if Concerns(h[k - 1], who) && h[k - 1].time > cutoff then [h[k - 1].time] else [])
  }

  function Since(h: seq<Call>, who: Option<Key>, cutoff: int): seq<int> {
    Times(h, who, cutoff, |h|)
  }

  /** A call is within both budgets for the window that ends now. */
  predicate Within(h: seq<Call>, key: Key, now: int, window: nat, perKey: nat, perAll: nat) {
    |Since(h, Some(key), now - window)| < perKey && |Since(h, None, now - window)| < perAll
  }

  /** A history of accepted calls, in order of time, each within both budgets when it came. */
  ghost predicate Accepted(h: seq<Call>, window: nat, perKey: nat, perAll: nat) {
    && (forall i, j :: 0 <= i < j < |h| ==> h[i].time <= h[j].time)
    && forall i :: 0 <= i < |h| ==> AcceptedAt(h, i, window, perKey, perAll)
  }

  /** Within both budgets of what came before it. */
  predicate AcceptedAt(h: seq<Call>, i: nat, window: nat, perKey: nat, perAll: nat)
    requires i < |h|
  {
    && |Times(h, Some(h[i].key), h[i].time - window, i)| < perKey
    && |Times(h, None, h[i].time - window, i)| < perAll
  }

  lemma {:induction false} TimesAgree(a: seq<Call>, b: seq<Call>, who: Option<Key>, cutoff: int, k: nat)
    requires k <= |a| && k <= |b| && forall i :: 0 <= i < k ==> a[i] == b[i]
    ensures Times(a, who, cutoff, k) == Times(b, who, cutoff, k)
  {
    if k > 0 { TimesAgree(a, b, who, cutoff, k - 1); }
  }

  lemma SinceSnoc(h: seq<Call>, c: Call, who: Option<Key>, cutoff: int)
    ensures Since(h + [c], who, cutoff)
            == Since(h, who, cutoff) + (if Concerns(c, who) && c.time > cutoff then [c.time] else [])
  {
    TimesAgree(h + [c], h, who, cutoff, |h|);
  }

  lemma AcceptedSnoc(h: seq<Call>, c: Call, window: nat, perKey: nat, perAll: nat)
    requires Accepted(h, window, perKey, perAll) && Within(h, c.key, c.time, window, perKey, perAll)
    requires forall i :: 0 <= i < |h| ==> h[i].time <= c.time
    ensures Accepted(h + [c], window, perKey, perAll)
  {
    hide Times;
    var more := h + [c];
    forall i | 0 <= i < |more| ensures AcceptedAt(more, i, window, perKey, perAll) {
      if i < |h| { assert AcceptedAt(h, i, window, perKey, perAll); }
      TimesAgree(more, h, Some(more[i].key), more[i].time - window, i);
      TimesAgree(more, h, None, more[i].time - window, i);
    }
  }

  /** How many of the first k calls fall in a window. */
  function InWindow(h: seq<Call>, who: Option<Key>, lo: int, hi: int, k: nat): nat
    requires k <= |h|
  {
    if k == 0 then 0
    else InWindow(h, who, lo, hi, k - 1)
         + (if Concerns(h[k - 1], who) && lo < h[k - 1].time <= hi then 1 else 0)
  }

  lemma {:induction false} WindowIsRecent(h: seq<Call>, who: Option<Key>, lo: int, hi: int, cutoff: int, k: nat)
    requires k <= |h| && cutoff <= lo
    ensures InWindow(h, who, lo, hi, k) <= |Times(h, who, cutoff, k)|
  {
    if k > 0 { WindowIsRecent(h, who, lo, hi, cutoff, k - 1); }
  }

  /** No window of the configured length, wherever it starts, ever holds more accepted calls
      than a key's budget, or than the budget of all. */
  lemma {:induction false} NoWindowOverBudget(h: seq<Call>, window: nat, perKey: nat, perAll: nat, key: Key, lo: int, k: nat)
    requires Accepted(h, window, perKey, perAll) && k <= |h|
    ensures InWindow(h, Some(key), lo, lo + window, k) <= perKey
    ensures InWindow(h, None, lo, lo + window, k) <= perAll
  {
    hide Times;
    if k > 0 {
      NoWindowOverBudget(h, window, perKey, perAll, key, lo, k - 1);
      var c := h[k - 1];
      assert AcceptedAt(h, k - 1, window, perKey, perAll);
      if lo < c.time <= lo + window {
        WindowIsRecent(h, Some(c.key), lo, lo + window, c.time - window, k - 1);
        WindowIsRecent(h, None, lo, lo + window, c.time - window, k - 1);
      }
    }
  }

  /** The calls among the first k after a cutoff: of one key, or of all. */
  function CallsOf(h: seq<Call>, key: Key, cutoff: int, k: nat): set<nat>
    requires k <= |h|
  {
    set i | 0 <= i < k && h[i].key == key && h[i].time > cutoff
  }

  function CallsOfAll(h: seq<Call>, cutoff: int, k: nat): set<nat>
    requires k <= |h|
  {
    set i | 0 <= i < k && h[i].time > cutoff
  }

  lemma {:induction false} TimesCount(h: seq<Call>, key: Key, cutoff: int, k: nat)
    requires k <= |h|
    ensures |Times(h, Some(key), cutoff, k)| == |CallsOf(h, key, cutoff, k)|
  {
    if k > 0 {
      TimesCount(h, key, cutoff, k - 1);
      var before := CallsOf(h, key, cutoff, k - 1);
      if h[k - 1].key == key && h[k - 1].time > cutoff {
        assert CallsOf(h, key, cutoff, k) == before + {k - 1};
      } else {
        assert CallsOf(h, key, cutoff, k) == before;
      }
    }
  }

  lemma {:induction false} AllTimesCount(h: seq<Call>, cutoff: int, k: nat)
    requires k <= |h|
    ensures |Times(h, None, cutoff, k)| == |CallsOfAll(h, cutoff, k)|
  {
    if k > 0 {
      AllTimesCount(h, cutoff, k - 1);
      var before := CallsOfAll(h, cutoff, k - 1);
      if h[k - 1].time > cutoff {
        assert CallsOfAll(h, cutoff, k) == before + {k - 1};
      } else {
        assert CallsOfAll(h, cutoff, k) == before;
      }
    }
  }

  /** A call is within both budgets if and only if fewer calls of its key, and of all, are left in
      the window that ends with it than the budgets allow. */
  lemma WithinIff(h: seq<Call>, key: Key, now: int, window: nat, perKey: nat, perAll: nat)
    ensures Within(h, key, now, window, perKey, perAll) <==>
            |CallsOf(h, key, now - window, |h|)| < perKey && |CallsOfAll(h, now - window, |h|)| < perAll
  {
    TimesCount(h, key, now - window, |h|);
    AllTimesCount(h, now - window, |h|);
  }

  // ---- pruning ----

  /** Keeps the times after a cutoff. */
  method Prune(ts: seq<int>, cutoff: int) returns (kept: seq<int>)
    ensures kept == Kept(ts, cutoff)
  {
    kept := [];
    for i := 0 to |ts|
      invariant kept == After(ts, cutoff, i)
    {
      if ts[i] > cutoff {
        kept := kept + [ts[i]];
      }
    }
  }

  function After(ts: seq<int>, cutoff: int, k: nat): seq<int>
    requires k <= |ts|
  {
    if k == 0 then [] else After(ts, cutoff, k - 1) + (if ts[k - 1] > cutoff then [ts[k - 1]] else [])
  }

  function Kept(ts: seq<int>, cutoff: int): seq<int> {
    After(ts, cutoff, |ts|)
  }

  lemma {:induction false} AfterAgrees(a: seq<int>, b: seq<int>, cutoff: int, k: nat)
    requires k <= |a| && k <= |b| && forall i :: 0 <= i < k ==> a[i] == b[i]
    ensures After(a, cutoff, k) == After(b, cutoff, k)
  {
    if k > 0 { AfterAgrees(a, b, cutoff, k - 1); }
  }

  /** Pruning what was pruned at an earlier cutoff is pruning the whole history. */
  lemma {:induction false} PrunedIsRecent(h: seq<Call>, who: Option<Key>, early: int, late: int, k: nat)
    requires k <= |h| && early <= late
    ensures Kept(Times(h, who, early, k), late) == Times(h, who, late, k)
  {
    if k > 0 {
      PrunedIsRecent(h, who, early, late, k - 1);
      var before, ts := Times(h, who, early, k - 1), Times(h, who, early, k);
      AfterAgrees(ts, before, late, |before|);
    }
  }

  lemma NothingKept(cutoff: int)
    ensures Kept([], cutoff) == []
  {
  }

  function At(hits: map<Key, seq<int>>, key: Key): seq<int> {
    if key in hits then hits[key] else []
  }

  // ---- the challenge limiter, which prunes every key ----

  class WindowLimiter {
    const perKey: nat
    const perAll: nat
    const window: nat
    var hits: map<Key, seq<int>>
    var global: seq<int>

    /** Every call accepted, the cutoff of the last pruning, and the last call's time. */
    ghost var history: seq<Call>
    ghost var cutoff: int
    ghost var last: int

    ghost predicate Valid()
      reads this
    {
      && 0 < window && cutoff <= last - window
      && (forall i :: 0 <= i < |history| ==> history[i].time <= last)
      && Accepted(history, window, perKey, perAll)
      && (forall key :: At(hits, key) == Since(history, Some(key), cutoff))
      && (forall key :: key in hits ==> hits[key] != [])
      && global == Since(history, None, cutoff)
    }

    constructor (perKey: nat, perAll: nat, window: nat, start: int)
      requires 0 < window
      ensures Valid() && history == [] && last == start
      ensures this.perKey == perKey && this.perAll == perAll && this.window == window
    {
      this.perKey, this.perAll, this.window := perKey, perAll, window;
      hits, global, history, last, cutoff := map[], [], [], start, start - window;
    }

    /** Prunes every key, forgetting those that have gone quiet. */
    method PruneAll(to: int)
      requires Valid() && cutoff <= to <= last - window
      modifies `hits, `cutoff, `global
      ensures Valid() && cutoff == to
    {
      hide Accepted, Times, Kept;
      assert Kept([], to) == [] by { NothingKept(to); }
      var todo := hits.Keys;
      ghost var before := hits;
      while todo != {}
        modifies `hits
        invariant todo <= hits.Keys
        invariant forall key :: key in hits ==> hits[key] != []
        invariant forall key :: At(hits, key) == if key in todo then At(before, key) else Kept(At(before, key), to)
        decreases |todo|
      {
        var key :| key in todo;
        var kept := Prune(hits[key], to);
        todo := todo - {key};
        if kept == [] {
          hits := hits - {key};
        } else {
          hits := hits[key := kept];
        }
      }
      forall key ensures At(hits, key) == Since(history, Some(key), to) {
        PrunedIsRecent(history, Some(key), cutoff, to, |history|);
      }
      PrunedIsRecent(history, None, cutoff, to, |history|);
      global := Prune(global, to);
      cutoff := to;
    }

    /** Records an attempt and tells whether it is within both budgets: exactly when the whole
        history would say so. */
    method Allow(key: Key, now: int) returns (ok: bool)
      requires Valid() && last <= now
      modifies this
      ensures Valid() && last == now
      ensures ok <==> Within(old(history), key, now, window, perKey, perAll)
      ensures history == if ok then old(history) + [Call(key, now)] else old(history)
    {
      hide Times, Accepted;
      last := now;
      PruneAll(now - window);
      assert At(hits, key) == Since(history, Some(key), now - window);
      if |At(hits, key)| >= perKey {
        return false;
      }
      if |global| >= perAll {
        return false;
      }
      AcceptedSnoc(history, Call(key, now), window, perKey, perAll);
      forall k ensures Since(history + [Call(key, now)], Some(k), cutoff)
                       == Since(history, Some(k), cutoff) + (if k == key then [now] else []) {
        SinceSnoc(history, Call(key, now), Some(k), cutoff);
      }
      SinceSnoc(history, Call(key, now), None, cutoff);
      hits := hits[key := At(hits, key) + [now]];
      global := global + [now];
      history := history + [Call(key, now)];
      ok := true;
    }
  }

  // ---- the deploy limiter, which prunes the caller's key alone ----

  class RateLimiter {
    var perAid: map<Key, seq<int>>
    var global: seq<int>

    ghost var history: seq<Call>
    /** The cutoff each key was last pruned at, and all together. */
    ghost var cutoffs: map<Key, int>
    ghost var cutoff: int
    ghost var last: int

    ghost predicate Valid()
      reads this
    {
      && cutoff <= last - HOUR
      && (forall i :: 0 <= i < |history| ==> history[i].time <= last)
      && Accepted(history, HOUR, DEPLOYS_PER_ACCOUNT, DEPLOYS_IN_ALL)
      && cutoffs.Keys == perAid.Keys
      && (forall key :: key in perAid ==>
            cutoffs[key] <= last - HOUR && perAid[key] == Since(history, Some(key), cutoffs[key]))
      && (forall i :: 0 <= i < |history| ==> history[i].key in perAid)
      && global == Since(history, None, cutoff)
    }

    constructor (start: int)
      ensures Valid() && history == [] && last == start
    {
      perAid, global, history, cutoffs, last, cutoff := map[], [], [], map[], start, start - HOUR;
    }

    /** The caller's attempts in the last hour. */
    method Mine(aid: Key, to: int) returns (mine: seq<int>)
      requires Valid() && last - HOUR <= to
      ensures mine == Since(history, Some(aid), to)
    {
      if aid in perAid {
        PrunedIsRecent(history, Some(aid), cutoffs[aid], to, |history|);
        mine := Prune(perAid[aid], to);
      } else {
        NeverCalled(history, aid, to, |history|);
        mine := [];
      }
    }

    /** Drops what the hour has passed from the attempts of all. */
    method PruneGlobal(now: int)
      requires Valid() && last <= now
      modifies `global, `cutoff, `last
      ensures Valid() && last == now && cutoff == now - HOUR
    {
      hide Times, Accepted;
      PrunedIsRecent(history, None, cutoff, now - HOUR, |history|);
      global := Prune(global, now - HOUR);
      cutoff, last := now - HOUR, now;
    }

    /** Keeps the caller's own list pruned. */
    method Keep(aid: Key, mine: seq<int>)
      requires Valid() && cutoff == last - HOUR && mine == Since(history, Some(aid), cutoff)
      modifies `perAid, `cutoffs
      ensures Valid()
    {
      hide Times, Accepted;
      perAid, cutoffs := perAid[aid := mine], cutoffs[aid := cutoff];
    }

    method Record(aid: Key, mine: seq<int>, now: int)
      requires Valid() && now == last && cutoff == last - HOUR && mine == Since(history, Some(aid), cutoff)
      requires Within(history, aid, now, HOUR, DEPLOYS_PER_ACCOUNT, DEPLOYS_IN_ALL)
      modifies `perAid, `cutoffs, `global, `history
      ensures Valid() && history == old(history) + [Call(aid, now)]
    {
      hide Times, Accepted;
      var call := Call(aid, now);
      AcceptedSnoc(history, call, HOUR, DEPLOYS_PER_ACCOUNT, DEPLOYS_IN_ALL);
      forall k | k in perAid && k != aid ensures Since(history + [call], Some(k), cutoffs[k]) == perAid[k] {
        SinceSnoc(history, call, Some(k), cutoffs[k]);
      }
      SinceSnoc(history, call, Some(aid), cutoff);
      SinceSnoc(history, call, None, cutoff);
      perAid, cutoffs := perAid[aid := mine + [now]], cutoffs[aid := cutoff];
      global, history := global + [now], history + [call];
    }

    /** Records an attempt and tells whether it is within both budgets: exactly when the whole
        history would say so. */
    method Allow(aid: Key, now: int) returns (ok: bool)
      requires Valid() && last <= now
      modifies this
      ensures Valid() && last == now
      ensures ok <==> Within(old(history), aid, now, 3600, 5, 20)
      ensures history == if ok then old(history) + [Call(aid, now)] else old(history)
    {
      hide Times, Accepted;
      var mine := Mine(aid, now - HOUR);
      PruneGlobal(now);
      if |mine| >= DEPLOYS_PER_ACCOUNT {
        Keep(aid, mine);
        return false;
      }
      if |global| >= DEPLOYS_IN_ALL {
        Keep(aid, mine);
        return false;
      }
      Record(aid, mine, now);
      ok := true;
    }
  }

  lemma {:induction false} NeverCalled(h: seq<Call>, key: Key, cutoff: int, k: nat)
    requires k <= |h| && forall i :: 0 <= i < |h| ==> h[i].key != key
    ensures Times(h, Some(key), cutoff, k) == []
  {
    if k > 0 { NeverCalled(h, key, cutoff, k - 1); }
  }
}
