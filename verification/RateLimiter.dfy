/** The fixed-window limiter of the push relay. */
module RateLimiter {

  type Time = int

  datatype Window = Window(started: Time, count: int)

  type Windows = map<string, Window>

  /** A limit or a length of zero or less switches the limiter off. */
  datatype Limits = Limits(limit: int, length: int)

  datatype Request = Request(key: string, now: Time)

  const CROWDED := 1024

  predicate Off(l: Limits) { l.limit <= 0 || l.length <= 0 }

  /** The window still counts requests at `now`. */
  predicate Running(l: Limits, items: Windows, key: string, now: Time)
  {
    key in items && now - items[key].started < l.length
  }

  function Allowed(l: Limits, items: Windows, r: Request): bool
  {
    Off(l) || !Running(l, items, r.key, r.now) || items[r.key].count < l.limit
  }

  /** The windows once a request has been answered, before any pruning. */
  function Counted(l: Limits, items: Windows, r: Request): Windows
  {
    if Off(l) then items
    else if !Running(l, items, r.key, r.now) then items[r.key := Window(r.now, 1)]
    else if items[r.key].count >= l.limit then items
    else items[r.key := items[r.key].(count := items[r.key].count + 1)]
  }

  /** Windows that have run out are dropped once there are many. */
  function Pruned(l: Limits, items: Windows, now: Time): Windows
  {
    if |items| < CROWDED then items else map k | k in items && now - items[k].started < l.length :: items[k]
  }

  /** What the limiter stores: only opening a window prunes. */
  function Stored(l: Limits, items: Windows, r: Request): Windows
  {
    if !Off(l) && !Running(l, items, r.key, r.now) then Pruned(l, Counted(l, items, r), r.now) else Counted(l, items, r)
  }

  // ----- Pruning is invisible -----

  predicate Clocked(rs: seq<Request>)
  {
    forall j, k :: 0 <= j < k < |rs| ==> rs[j].now <= rs[k].now
  }

  /** The limiter after a history of requests; `pruning` tells whether it ever prunes. */
  function After(l: Limits, rs: seq<Request>, pruning: bool): Windows
  {
    if rs == [] then map[]
    else
      var before, last := After(l, rs[..|rs| - 1], pruning), rs[|rs| - 1];
      if pruning then Stored(l, before, last) else Counted(l, before, last)
  }

  /** The same windows are running, with the same counts, from `now` on. */
  ghost predicate Alike(l: Limits, a: Windows, b: Windows, now: Time)
  {
    forall k :: (Running(l, a, k, now) <==> Running(l, b, k, now)) && (Running(l, a, k, now) ==> a[k] == b[k])
  }

  lemma AlikeLater(l: Limits, a: Windows, b: Windows, now: Time, later: Time)
    requires Alike(l, a, b, now) && now <= later
    ensures Alike(l, a, b, later)
  {
    forall k
      ensures Running(l, a, k, later) <==> Running(l, b, k, later)
      ensures Running(l, a, k, later) ==> a[k] == b[k]
    {
      assert Running(l, a, k, later) ==> Running(l, a, k, now);
      assert Running(l, b, k, later) ==> Running(l, b, k, now);
    }
  }

  lemma CountedAlike(l: Limits, a: Windows, b: Windows, r: Request)
    requires Alike(l, a, b, r.now)
    ensures Allowed(l, a, r) == Allowed(l, b, r) && Alike(l, Counted(l, a, r), Counted(l, b, r), r.now)
  {
    assert Running(l, a, r.key, r.now) <==> Running(l, b, r.key, r.now);
    var a2, b2 := Counted(l, a, r), Counted(l, b, r);
    forall k
      ensures (Running(l, a2, k, r.now) <==> Running(l, b2, k, r.now)) && (Running(l, a2, k, r.now) ==> a2[k] == b2[k])
    {
      assert Running(l, a, k, r.now) <==> Running(l, b, k, r.now);
    }
  }

  lemma PrunedAlike(l: Limits, a: Windows, b: Windows, now: Time)
    requires Alike(l, a, b, now)
    ensures Alike(l, Pruned(l, a, now), b, now)
  {
    forall k
      ensures Running(l, Pruned(l, a, now), k, now) <==> Running(l, a, k, now)
      ensures Running(l, a, k, now) ==> Pruned(l, a, now)[k] == a[k]
    {
    }
  }

  lemma {:induction false} HistoriesAlike(l: Limits, rs: seq<Request>, now: Time)
    requires Clocked(rs) && (rs != [] ==> rs[|rs| - 1].now <= now)
    ensures Alike(l, After(l, rs, true), After(l, rs, false), now)
  {
    hide Alike, Counted, Pruned;
    if rs == [] {
      AlikeSelf(l, map[], now);
    } else {
      var init, r := rs[..|rs| - 1], rs[|rs| - 1];
      HistoriesAlike(l, init, r.now);
      var a, b := After(l, init, true), After(l, init, false);
      CountedAlike(l, a, b, r);
      PrunedAlike(l, Counted(l, a, r), Counted(l, b, r), r.now);
      AlikeLater(l, After(l, rs, true), After(l, rs, false), r.now, now);
    }
  }

  lemma AlikeSelf(l: Limits, a: Windows, now: Time)
    ensures Alike(l, a, a, now)
  {
  }

  /** On a clock that does not go back, pruning never changes an answer. */
  lemma PruningIsInvisible(l: Limits, rs: seq<Request>, r: Request)
    requires Clocked(rs + [r])
    ensures Allowed(l, After(l, rs, true), r) == Allowed(l, After(l, rs, false), r)
  {
    var all := rs + [r];
    assert forall k :: 0 <= k < |rs| ==> all[k] == rs[k];
    assert all[|rs|] == r;
    HistoriesAlike(l, rs, r.now);
    CountedAlike(l, After(l, rs, true), After(l, rs, false), r);
  }

  // ----- How many requests pass -----

  /** The requests of a key that pass at a time from `from` up to, not including, one window length later. */
  function Passed(l: Limits, rs: seq<Request>, key: string, from: Time): nat
  {
    if rs == [] then 0
    else
      var init, r := rs[..|rs| - 1], rs[|rs| - 1];
      Passed(l, init, key, from) +
      if r.key == key && from <= r.now < from + l.length && Allowed(l, After(l, init, false), r) then 1 else 0
  }

  /** What bounds the requests that have passed, given the current window of the key. */
  ghost predicate Bounded(l: Limits, items: Windows, key: string, from: Time, passed: nat, now: Time)
  {
    && (now < from ==> passed == 0)
    && (key !in items ==> passed == 0)
    && (key in items ==>
          && items[key].started <= now && 1 <= items[key].count <= l.limit
          && (items[key].started < from ==> passed <= items[key].count - 1)
          && (from <= items[key].started < from + l.length ==> passed <= l.limit - 1 + items[key].count)
          && (from + l.length <= items[key].started ==> passed <= 2 * l.limit - 1))
  }

  lemma BoundedStep(l: Limits, items: Windows, key: string, from: Time, passed: nat, now: Time, r: Request)
    requires !Off(l) && Bounded(l, items, key, from, passed, now) && now <= r.now
    ensures Bounded(l, Counted(l, items, r), key, from,
      passed + (if r.key == key && from <= r.now < from + l.length && Allowed(l, items, r) then 1 else 0), r.now)
  {
  }

  lemma {:induction false} HistoryBounded(l: Limits, rs: seq<Request>, key: string, from: Time, now: Time)
    requires !Off(l) && Clocked(rs) && (rs != [] ==> rs[|rs| - 1].now == now)
    ensures Bounded(l, After(l, rs, false), key, from, Passed(l, rs, key, from), now)
  {
    if rs != [] {
      var init, r := rs[..|rs| - 1], rs[|rs| - 1];
      var before := if init == [] then r.now else init[|init| - 1].now;
      HistoryBounded(l, init, key, from, before);
      BoundedStep(l, After(l, init, false), key, from, Passed(l, init, key, from), before, r);
    }
  }

  /** In any interval of one window length, fewer than twice the limit pass. */
  lemma FewerThanTwiceTheLimit(l: Limits, rs: seq<Request>, key: string, from: Time)
    requires !Off(l) && Clocked(rs)
    ensures Passed(l, rs, key, from) <= 2 * l.limit - 1
  {
    if rs != [] {
      HistoryBounded(l, rs, key, from, rs[|rs| - 1].now);
    }
  }

  // ----- What a refusal means -----

  /** The window of the key has counted the requests that passed since it opened, and none came after its end. */
  ghost predicate CountsIts(l: Limits, rs: seq<Request>, key: string, items: Windows)
  {
    && (forall k :: 0 <= k < |rs| && rs[k].key == key ==> key in items && rs[k].now < items[key].started + l.length)
    && (key in items ==> Passed(l, rs, key, items[key].started) == items[key].count)
  }

  lemma {:induction false} NothingPassed(l: Limits, rs: seq<Request>, key: string, from: Time)
    requires forall k :: 0 <= k < |rs| && rs[k].key == key ==> rs[k].now < from
    ensures Passed(l, rs, key, from) == 0
  {
    if rs != [] {
      NothingPassed(l, rs[..|rs| - 1], key, from);
    }
  }

  lemma {:induction false} WindowsCount(l: Limits, rs: seq<Request>, key: string)
    requires !Off(l) && Clocked(rs)
    ensures CountsIts(l, rs, key, After(l, rs, false))
  {
    if rs != [] {
      var init, r := rs[..|rs| - 1], rs[|rs| - 1];
      WindowsCount(l, init, key);
      var before, after := After(l, init, false), After(l, rs, false);
      if r.key == key && !Running(l, before, key, r.now) {
        NothingPassed(l, init, key, r.now);
      }
      if key in before {
        NotBeforeWindow(l, init, key, r.now);
      }
    }
  }

  lemma {:induction false} NotBeforeWindow(l: Limits, rs: seq<Request>, key: string, now: Time)
    requires Clocked(rs) && (rs != [] ==> rs[|rs| - 1].now <= now)
    ensures var items := After(l, rs, false); key in items ==> items[key].started <= now
  {
    if rs != [] {
      var init := rs[..|rs| - 1];
      NotBeforeWindow(l, init, key, rs[|rs| - 1].now);
    }
  }

  /** A request is refused only if as many as the limit have passed since its window opened, less than one length ago. */
  lemma RefusedWhenFull(l: Limits, rs: seq<Request>, r: Request)
    requires Clocked(rs + [r]) && !Allowed(l, After(l, rs, false), r)
    ensures exists from :: r.now - l.length < from <= r.now && Passed(l, rs, r.key, from) >= l.limit >= 1
  {
    var all := rs + [r];
    assert forall k :: 0 <= k < |rs| ==> all[k] == rs[k];
    assert all[|rs|] == r;
    WindowsCount(l, rs, r.key);
    NotBeforeWindow(l, rs, r.key, r.now);
    assert Passed(l, rs, r.key, After(l, rs, false)[r.key].started) >= l.limit;
  }

  // ----- When the limit itself holds -----

  /** Request `k` opens a window of the key. */
  predicate OpensAt(l: Limits, rs: seq<Request>, k: nat, key: string)
  {
    k < |rs| && rs[k].key == key && !Running(l, After(l, rs[..k], false), key, rs[k].now)
  }

  /** A window of the key that opens within the interval opens at `s`. */
  ghost predicate OpensOnlyAt(l: Limits, rs: seq<Request>, key: string, from: Time, s: Time)
  {
    forall k: nat :: OpensAt(l, rs, k, key) && from <= rs[k].now < from + l.length ==> rs[k].now == s
  }

  lemma OpensInit(l: Limits, rs: seq<Request>, key: string, from: Time, s: Time)
    requires rs != [] && OpensOnlyAt(l, rs, key, from, s)
    ensures OpensOnlyAt(l, rs[..|rs| - 1], key, from, s)
  {
    var init := rs[..|rs| - 1];
    forall k: nat | OpensAt(l, init, k, key) && from <= init[k].now < from + l.length
      ensures init[k].now == s
    {
      assert init[..k] == rs[..k];
      assert OpensAt(l, rs, k, key);
    }
  }

  /** What bounds the requests that have passed when no window opens strictly inside the interval. */
  ghost predicate Contained(l: Limits, items: Windows, key: string, from: Time, passed: nat, now: Time)
  {
    && (now < from ==> passed == 0)
    && (key !in items ==> passed == 0)
    && (key in items ==>
          && items[key].started <= now && 1 <= items[key].count <= l.limit
          && (items[key].started <= from ==> passed <= items[key].count)
          && (items[key].started <= from && passed > 0 ==> from - items[key].started < l.length)
          && (from < items[key].started ==> from + l.length <= items[key].started && passed <= l.limit))
  }

  lemma ContainedStep(l: Limits, items: Windows, key: string, from: Time, passed: nat, now: Time, r: Request)
    requires !Off(l) && Bounded(l, items, key, from, passed, now) && Contained(l, items, key, from, passed, now) && now <= r.now
    requires r.key == key && !Running(l, items, key, r.now) && from <= r.now < from + l.length ==> r.now == from
    ensures Contained(l, Counted(l, items, r), key, from,
      passed + (if r.key == key && from <= r.now < from + l.length && Allowed(l, items, r) then 1 else 0), r.now)
  {
  }

  lemma {:induction false} HistoryContained(l: Limits, rs: seq<Request>, key: string, from: Time, now: Time)
    requires !Off(l) && Clocked(rs) && (rs != [] ==> rs[|rs| - 1].now == now) && OpensOnlyAt(l, rs, key, from, from)
    ensures Contained(l, After(l, rs, false), key, from, Passed(l, rs, key, from), now)
  {
    if rs != [] {
      var init, r := rs[..|rs| - 1], rs[|rs| - 1];
      var before := if init == [] then r.now else init[|init| - 1].now;
      OpensInit(l, rs, key, from, from);
      HistoryContained(l, init, key, from, before);
      HistoryBounded(l, init, key, from, before);
      assert !Running(l, After(l, init, false), key, r.now) && r.key == key ==> OpensAt(l, rs, |rs| - 1, key);
      ContainedStep(l, After(l, init, false), key, from, Passed(l, init, key, from), before, r);
    }
  }

  /** In an interval inside which no window opens, or only at its beginning, at most the limit passes. */
  lemma AtMostTheLimit(l: Limits, rs: seq<Request>, key: string, from: Time)
    requires !Off(l) && Clocked(rs) && OpensOnlyAt(l, rs, key, from, from)
    ensures Passed(l, rs, key, from) <= l.limit
  {
    if rs != [] {
      HistoryContained(l, rs, key, from, rs[|rs| - 1].now);
    }
  }

  // ----- How tight the bound is -----

  lemma AfterSnoc(l: Limits, rs: seq<Request>, r: Request, from: Time)
    ensures After(l, rs + [r], false) == Counted(l, After(l, rs, false), r)
    ensures Passed(l, rs + [r], r.key, from) == Passed(l, rs, r.key, from) +
      if from <= r.now < from + l.length && Allowed(l, After(l, rs, false), r) then 1 else 0
  {
    assert (rs + [r])[..|rs|] == rs;
  }

  function Repeat(r: Request, n: nat): seq<Request>
  {
    if n == 0 then [] else Repeat(r, n - 1) + [r]
  }

  lemma {:induction false} RepeatIs(r: Request, n: nat)
    ensures |Repeat(r, n)| == n && forall k :: 0 <= k < n ==> Repeat(r, n)[k] == r
  {
    if n > 0 {
      RepeatIs(r, n - 1);
    }
  }

  /** A burst within a running window that has room for it passes entirely. */
  lemma {:induction false} BurstPasses(l: Limits, rs: seq<Request>, r: Request, n: nat, from: Time)
    requires !Off(l) && Running(l, After(l, rs, false), r.key, r.now)
    requires After(l, rs, false)[r.key].count + n <= l.limit
    ensures var before, after := After(l, rs, false), After(l, rs + Repeat(r, n), false);
      r.key in after && after[r.key] == Window(before[r.key].started, before[r.key].count + n)
    ensures Passed(l, rs + Repeat(r, n), r.key, from) == Passed(l, rs, r.key, from) + if from <= r.now < from + l.length then n else 0
  {
    hide After, Passed;
    if n == 0 {
      assert rs + [] == rs;
    } else {
      var init := rs + Repeat(r, n - 1);
      BurstPasses(l, rs, r, n - 1, from);
      AfterSnoc(l, init, r, from);
      assert rs + Repeat(r, n) == init + [r];
    }
  }

  /** One request early, the rest of the limit at the beginning of the interval, the limit again once a window opens at `s`. */
  function Crowd(l: Limits, key: string, from: Time, s: Time): seq<Request>
    requires l.limit >= 1
  {
    [Request(key, s - l.length)] + Repeat(Request(key, from), l.limit - 1) + ([Request(key, s)] + Repeat(Request(key, s), l.limit - 1))
  }

  /** The state of the limiter as the crowd comes in. */
  lemma CrowdPasses(l: Limits, key: string, from: Time, s: Time)
    requires !Off(l) && from < s < from + l.length
    ensures Passed(l, Crowd(l, key, from, s), key, from) == 2 * l.limit - 1
  {
    hide After, Passed, Repeat;
    var a, b, c := Request(key, s - l.length), Request(key, from), Request(key, s);
    var early := [a] + Repeat(b, l.limit - 1);
    FirstOpens(l, a, from);
    BurstPasses(l, [a], b, l.limit - 1, from);
    AfterSnoc(l, early, c, from);
    BurstPasses(l, early + [c], c, l.limit - 1, from);
    assert Crowd(l, key, from, s) == early + [c] + Repeat(c, l.limit - 1);
  }

  lemma FirstOpens(l: Limits, a: Request, from: Time)
    requires !Off(l)
    ensures After(l, [a], false) == map[a.key := Window(a.now, 1)]
    ensures Passed(l, [a], a.key, from) == if from <= a.now < from + l.length then 1 else 0
  {
    AfterSnoc(l, [], a, from);
    assert [] + [a] == [a];
  }

  lemma CrowdIsClocked(l: Limits, key: string, from: Time, s: Time)
    requires !Off(l) && from < s < from + l.length
    ensures var rs := Crowd(l, key, from, s);
      Clocked(rs) && |rs| == 2 * l.limit && forall k :: 0 <= k < |rs| ==>
        rs[k] == Request(key, if k == 0 then s - l.length else if k < l.limit then from else s)
  {
    RepeatIs(Request(key, from), l.limit - 1);
    RepeatIs(Request(key, s), l.limit - 1);
  }

  lemma {:induction false} RepeatPrefix(r: Request, n: nat, k: nat)
    requires k <= n
    ensures |Repeat(r, n)| == n && Repeat(r, n)[..k] == Repeat(r, k)
  {
    RepeatIs(r, n);
    RepeatIs(r, k);
  }

  lemma CrowdOpens(l: Limits, key: string, from: Time, s: Time)
    requires !Off(l) && from < s < from + l.length
    ensures OpensOnlyAt(l, Crowd(l, key, from, s), key, from, s) && OpensAt(l, Crowd(l, key, from, s), l.limit, key)
  {
    hide After, Crowd, Repeat;
    var rs := Crowd(l, key, from, s);
    CrowdIsClocked(l, key, from, s);
    forall k: nat | 1 <= k <= l.limit
      ensures key in After(l, rs[..k], false) && After(l, rs[..k], false)[key].started == s - l.length
    {
      CrowdPrefix(l, key, from, s, k);
    }
  }

  lemma CrowdPrefix(l: Limits, key: string, from: Time, s: Time, k: nat)
    requires !Off(l) && from < s < from + l.length && 1 <= k <= l.limit <= |Crowd(l, key, from, s)|
    ensures var items := After(l, Crowd(l, key, from, s)[..k], false); key in items && items[key].started == s - l.length
  {
    hide After, Repeat;
    var rs, a, b := Crowd(l, key, from, s), Request(key, s - l.length), Request(key, from);
    FirstOpens(l, a, from);
    RepeatPrefix(b, l.limit - 1, k - 1);
    BurstPasses(l, [a], b, k - 1, from);
    assert rs[..k] == [a] + Repeat(b, l.limit - 1)[..k - 1];
  }

  /** Whatever the limit, and wherever strictly inside the interval the window opens, the bound is reached. */
  lemma BoundIsReached(l: Limits, key: string, from: Time, s: Time) returns (rs: seq<Request>)
    requires !Off(l) && from < s < from + l.length
    ensures Clocked(rs) && OpensOnlyAt(l, rs, key, from, s) && Passed(l, rs, key, from) == 2 * l.limit - 1
  {
    rs := Crowd(l, key, from, s);
    CrowdIsClocked(l, key, from, s);
    CrowdOpens(l, key, from, s);
    CrowdPasses(l, key, from, s);
  }

  /** A limit of two or more is kept in an interval, whatever the requests, exactly if its window opens at its beginning. */
  lemma LimitHoldsExactly(l: Limits, key: string, from: Time, s: Time)
    requires !Off(l) && l.limit >= 2 && from <= s < from + l.length
    ensures (forall rs :: Clocked(rs) && OpensOnlyAt(l, rs, key, from, s) ==> Passed(l, rs, key, from) <= l.limit) <==> s == from
  {
    if s == from {
      forall rs | Clocked(rs) && OpensOnlyAt(l, rs, key, from, s)
        ensures Passed(l, rs, key, from) <= l.limit
      {
        AtMostTheLimit(l, rs, key, from);
      }
    } else {
      var rs := BoundIsReached(l, key, from, s);
    }
  }

  // ----- The limiter itself -----

  class Limiter {
    const limits: Limits
    var items: Windows

    constructor (limit: int, length: int)
      ensures limits == Limits(limit, length) && items == map[]
    {
      limits := Limits(limit, length);
      items := map[];
    }

    method Allow(key: string, now: Time) returns (ok: bool)
      modifies this
      ensures ok == Allowed(limits, old(items), Request(key, now)) && items == Stored(limits, old(items), Request(key, now))
      ensures limits.limit <= 0 || limits.length <= 0 ==> ok && items == old(items)
      ensures limits.limit > 0 && limits.length > 0 ==>
        var opens := key !in old(items) || now - old(items)[key].started >= limits.length;
        && (ok <==> opens || old(items)[key].count < limits.limit) && key in items
        && items[key] == (if opens then Window(now, 1) else old(items)[key].(count := old(items)[key].count + if ok then 1 else 0))
      // other keys lose their window only once it has run out
      ensures forall k :: k in items && k != key ==> k in old(items) && items[k] == old(items)[k]
      ensures forall k :: k in old(items) && k != key && now - old(items)[k].started < limits.length ==> k in items
    {
      if limits.limit <= 0 || limits.length <= 0 {
        return true;
      }
      if key !in items || now - items[key].started >= limits.length {
        items := items[key := Window(now, 1)];
        Prune(now);
        return true;
      }
      if items[key].count >= limits.limit {
        return false;
      }
      items := items[key := items[key].(count := items[key].count + 1)];
      return true;
    }

    method Prune(now: Time)
      modifies this
      ensures items == Pruned(limits, old(items), now)
      ensures |old(items)| < 1024 ==> items == old(items)
      ensures forall k :: k in items ==> k in old(items) && items[k] == old(items)[k]
      ensures |old(items)| >= 1024 ==>
        forall k :: k in old(items) ==> (k in items <==> now - old(items)[k].started < limits.length)
    {
      if |items| < CROWDED {
        return;
      }
      var todo := items.Keys;
      while todo != {}
        invariant todo <= old(items).Keys && items.Keys <= old(items).Keys
        invariant forall k :: k in old(items) ==>
          (k in items <==> k in todo || now - old(items)[k].started < limits.length)
        invariant forall k :: k in items ==> items[k] == old(items)[k]
        decreases |todo|
      {
        var k :| k in todo;
        if now - items[k].started >= limits.length {
          items := items - {k};
        }
        todo := todo - {k};
      }
      assert items == Pruned(limits, old(items), now);
    }
  }
}
