/** The event stream: replay from a cursor, then live events, without a gap or a duplicate. */
module Realtime {

  /** `at` is when the transaction that recorded the event began. */
  datatype Event = Event(version: int, at: int, kind: string, entity: string)

  const BATCH := 250

  /** All events ever recorded, in the order of their versions. */
  predicate Rising(h: seq<Event>)
  {
    (forall k :: 0 <= k < |h| ==> h[k].version > 0) &&
    forall k, l :: 0 <= k < l < |h| ==> h[k].version < h[l].version
  }

  /** How many events have a version up to `v`. */
  function Upto(h: seq<Event>, v: int): nat
  {
    if h == [] || h[|h| - 1].version <= v then |h| else Upto(h[..|h| - 1], v)
  }

  lemma {:induction false} UptoMeaning(h: seq<Event>, v: int)
    requires Rising(h)
    ensures Upto(h, v) <= |h| && forall k :: 0 <= k < |h| ==> (k < Upto(h, v) <==> h[k].version <= v)
  {
    if h != [] && h[|h| - 1].version > v {
      UptoMeaning(h[..|h| - 1], v);
      assert forall k :: 0 <= k < |h| - 1 ==> h[..|h| - 1][k] == h[k];
    }
  }

  lemma UptoIs(h: seq<Event>, v: int, n: nat)
    requires Rising(h) && n <= |h| && (n > 0 ==> h[n - 1].version <= v) && (n < |h| ==> v < h[n].version)
    ensures Upto(h, v) == n
  {
    UptoMeaning(h, v);
  }

  // ----- What can be read -----

  /** Retention keeps a suffix of the history: its first `kept` events are erased, and `n` are recorded. */
  function Oldest(h: seq<Event>, kept: nat, n: nat): int
    requires n <= |h|
  {
    if kept < n then h[kept].version else 0
  }

  function Latest(h: seq<Event>, kept: nat, n: nat): int
    requires n <= |h|
  {
    if kept < n then h[n - 1].version else 0
  }

  predicate Resumable(h: seq<Event>, kept: nat, n: nat, after: int)
    requires n <= |h|
  {
    after <= Latest(h, kept, n) && (Oldest(h, kept, n) == 0 || after >= Oldest(h, kept, n) - 1)
  }

  /** The retained events after a version, up to a limit. */
  function ListAfter(h: seq<Event>, kept: nat, n: nat, after: int, limit: nat): seq<Event>
    requires n <= |h|
  {
    var lo := if Upto(h, after) < kept then kept else Upto(h, after);
    if lo >= n then [] else h[lo..if lo + limit < n then lo + limit else n]
  }

  /** Nothing after the cursor has been erased. */
  predicate NothingLost(h: seq<Event>, kept: nat, after: int)
  {
    kept <= Upto(h, after)
  }

  /** The newest event is always kept. */
  predicate Kept(kept: nat, n: nat)
  {
    kept < n || (n == 0 && kept == 0)
  }

  /** A resumed cursor has lost nothing and is not ahead of the log. */
  lemma ResumableIsSafe(h: seq<Event>, kept: nat, n: nat, after: int)
    requires Rising(h) && Kept(kept, n) && n <= |h| && Resumable(h, kept, n, after)
    ensures NothingLost(h, kept, after) && Upto(h, after) <= n
  {
    UptoMeaning(h, after);
    if kept > 0 {
      assert h[kept - 1].version < h[kept].version;
    }
  }

  /** No version is missing between the last event erased and the first one kept. */
  predicate Seamless(h: seq<Event>, kept: nat, n: nat)
    requires n <= |h|
  {
    kept < n ==> h[kept].version == 1 + if kept == 0 then 0 else h[kept - 1].version
  }

  /** Every cursor that could be resumed is resumed, exactly if the versions are seamless where the log begins. */
  lemma ResumableIsExact(h: seq<Event>, kept: nat, n: nat)
    requires Rising(h) && Kept(kept, n) && n <= |h|
    ensures (forall after :: after >= 0 && NothingLost(h, kept, after) && after <= Latest(h, kept, n) ==> Resumable(h, kept, n, after))
      <==> Seamless(h, kept, n)
  {
    if kept < n {
      var last := if kept == 0 then 0 else h[kept - 1].version;
      UptoMeaning(h, last);
      assert NothingLost(h, kept, last) && last <= Latest(h, kept, n);
      forall after | after >= 0 && NothingLost(h, kept, after) && Seamless(h, kept, n)
        ensures after >= last
      {
        UptoMeaning(h, after);
      }
    }
  }

  // ----- Retention -----

  /** The events ever recorded, and the positions of those erased since. */
  datatype Log = Log(history: seq<Event>, gone: set<nat>)

  datatype Change = Record(event: Event) | Prune(cutoff: int, batch: set<nat>)

  predicate Retained(log: Log, x: nat)
  {
    x < |log.history| && x !in log.gone
  }

  /** An old event that is not the newest one retained. */
  ghost predicate Expired(log: Log, cutoff: int, x: nat)
  {
    Retained(log, x) && log.history[x].at < cutoff && exists y: nat :: x < y && Retained(log, y)
  }

  /** Versions rise; a batch takes expired events, those that began first. */
  ghost predicate Enabled(log: Log, c: Change)
  {
    match c
    case Record(e) => e.version > 0 && forall k :: 0 <= k < |log.history| ==> log.history[k].version < e.version
    case Prune(cutoff, batch) =>
      && (forall x :: x in batch ==> Expired(log, cutoff, x))
      && (forall x, y: nat :: x in batch && Expired(log, cutoff, y) && y !in batch ==> log.history[x].at <= log.history[y].at)
  }

  function After(log: Log, c: Change): Log
  {
    match c
    case Record(e) => log.(history := log.history + [e])
    case Prune(_, batch) => log.(gone := log.gone + batch)
  }

  /** `changes` leads from `log` to `log2`. */
  ghost predicate Reaches(log: Log, changes: seq<Change>, log2: Log)
    decreases |changes|
  {
    if changes == [] then log == log2 else Enabled(log, changes[0]) && Reaches(After(log, changes[0]), changes[1..], log2)
  }

  /** Versions rise, and the newest event is there. */
  ghost predicate LogOk(log: Log)
  {
    && Rising(log.history) && (forall x :: x in log.gone ==> x < |log.history|)
    && (log.history != [] ==> |log.history| - 1 !in log.gone)
  }

  /** Whatever is recorded and pruned, the newest event stays. */
  lemma {:induction false} NewestIsKept(log: Log, changes: seq<Change>, log2: Log)
    requires LogOk(log) && Reaches(log, changes, log2)
    ensures LogOk(log2)
    decreases |changes|
  {
    if changes != [] {
      if changes[0].Prune? {
        assert |log.history| - 1 !in changes[0].batch;
      }
      NewestIsKept(After(log, changes[0]), changes[1..], log2);
    }
  }

  /** No event is erased before retention asks for events as recent as it. */
  lemma {:induction false} RecentEventsAreKept(changes: seq<Change>, log: Log, log2: Log, horizon: int)
    requires LogOk(log) && Reaches(log, changes, log2)
    requires forall k :: 0 <= k < |changes| && changes[k].Prune? ==> changes[k].cutoff <= horizon
    ensures forall x :: x in log2.gone ==> x in log.gone || (x < |log2.history| && log2.history[x].at < horizon)
    decreases |changes|
  {
    if changes != [] {
      var next := After(log, changes[0]);
      NewestIsKept(log, [changes[0]], next);
      RecentEventsAreKept(changes[1..], next, log2, horizon);
      HistoryGrows(next, changes[1..], log2);
    }
  }

  ghost predicate IsOldest(log: Log, x: nat)
  {
    Retained(log, x) && forall y: nat :: y < x ==> y in log.gone
  }

  ghost predicate IsNewest(log: Log, x: nat)
  {
    Retained(log, x) && forall y: nat :: Retained(log, y) ==> y <= x
  }

  ghost predicate Spans(log: Log, o: nat, l: nat)
  {
    IsOldest(log, o) && IsNewest(log, l)
  }

  /** What `resumable` answers. */
  ghost predicate Resumes(log: Log, after: int)
  {
    if forall x: nat :: !Retained(log, x) then after <= 0
    else exists o: nat, l: nat :: Spans(log, o, l) && log.history[o].version - 1 <= after <= log.history[l].version
  }

  /** An event after the cursor has been erased. */
  ghost predicate Loses(log: Log, after: int)
  {
    exists x :: x in log.gone && x < |log.history| && log.history[x].version > after
  }

  /** No cursor that is resumed has lost an event. */
  ghost predicate Safe(log: Log)
  {
    forall after :: after >= 0 && Resumes(log, after) ==> !Loses(log, after)
  }

  /** What is kept is the end of the history. */
  ghost predicate Suffix(log: Log)
  {
    forall x, y: nat :: x in log.gone && y < x ==> y in log.gone
  }

  lemma {:induction false} OldestExists(log: Log, y: nat) returns (o: nat)
    requires Retained(log, y)
    ensures IsOldest(log, o) && o <= y
    decreases y
  {
    if forall x: nat :: x < y ==> x in log.gone {
      o := y;
    } else {
      var x: nat :| x < y && x !in log.gone;
      o := OldestExists(log, x);
    }
  }

  /** The check is safe for every cursor exactly if the log kept is the end of the history. */
  lemma ResumesSafelyOnSuffixes(log: Log)
    requires LogOk(log)
    ensures Safe(log) <==> Suffix(log)
  {
    if Suffix(log) {
      forall after | Resumes(log, after)
        ensures !Loses(log, after)
      {
        SuffixLosesNothing(log, after);
      }
    } else {
      var x: nat, y: nat :| x in log.gone && y < x && y !in log.gone;
      var o := OldestExists(log, y);
      var l := |log.history| - 1;
      assert Spans(log, o, l);
      var after := log.history[o].version;
      assert Resumes(log, after) && Loses(log, after);
    }
  }

  lemma SuffixLosesNothing(log: Log, after: int)
    requires LogOk(log) && Suffix(log) && Resumes(log, after)
    ensures !Loses(log, after)
  {
    if log.history != [] {
      assert Retained(log, |log.history| - 1);
      var o: nat, l: nat :| Spans(log, o, l) && log.history[o].version - 1 <= after <= log.history[l].version;
      forall x | x in log.gone
        ensures log.history[x].version <= after
      {
        assert x < o;
      }
    }
  }

  /** All events but the newest began one after the other. */
  predicate Dated(h: seq<Event>)
  {
    forall k, l :: 0 <= k < l < |h| - 1 ==> h[k].at < h[l].at
  }

  lemma {:induction false} HistoryGrows(log: Log, changes: seq<Change>, log2: Log)
    requires Reaches(log, changes, log2)
    ensures log.history <= log2.history
    decreases |changes|
  {
    if changes != [] {
      HistoryGrows(After(log, changes[0]), changes[1..], log2);
    }
  }

  /** If they did, pruning by date only ever shortens the log from its beginning. */
  lemma {:induction false} DatedLogsAreSuffixes(log: Log, changes: seq<Change>, log2: Log)
    requires LogOk(log) && Suffix(log) && Reaches(log, changes, log2) && Dated(log2.history)
    ensures Suffix(log2)
    decreases |changes|
  {
    if changes != [] {
      var next := After(log, changes[0]);
      HistoryGrows(log, changes, log2);
      assert forall k :: 0 <= k < |log.history| ==> log.history[k] == log2.history[k];
      PruneShortens(log, changes[0]);
      NewestIsKept(log, [changes[0]], next);
      DatedLogsAreSuffixes(next, changes[1..], log2);
    }
  }

  lemma PruneShortens(log: Log, c: Change)
    requires LogOk(log) && Suffix(log) && Enabled(log, c) && Dated(log.history)
    ensures Suffix(After(log, c))
  {
    if c.Prune? {
      forall x, y: nat | x in log.gone + c.batch && y < x
        ensures y in log.gone + c.batch
      {
        if x in c.batch && y !in log.gone {
          assert Expired(log, c.cutoff, x) && Retained(log, x);
          assert Expired(log, c.cutoff, y);
        }
      }
    }
  }

  /** What a stream reads off a log that is the end of its history. */
  lemma SuffixIsKept(log: Log) returns (kept: nat)
    requires LogOk(log) && Suffix(log)
    ensures Kept(kept, |log.history|)
    ensures forall after :: after >= 0 ==>
      (Resumes(log, after) <==> Resumable(log.history, kept, |log.history|, after)) &&
      (Loses(log, after) <==> !NothingLost(log.history, kept, after))
  {
    var h := log.history;
    if h == [] {
      kept := 0;
    } else {
      kept := OldestExists(log, |h| - 1);
      assert IsNewest(log, |h| - 1);
      assert forall x :: x in log.gone ==> x < kept;
    }
    forall after | after >= 0
      ensures Resumes(log, after) <==> Resumable(h, kept, |h|, after)
      ensures Loses(log, after) <==> !NothingLost(h, kept, after)
    {
      KeptReads(log, kept, after);
    }
  }

  lemma KeptReads(log: Log, kept: nat, after: int)
    requires LogOk(log) && after >= 0 && Kept(kept, |log.history|) && (forall x: nat :: x in log.gone <==> x < kept)
    ensures Resumes(log, after) <==> Resumable(log.history, kept, |log.history|, after)
    ensures Loses(log, after) <==> !NothingLost(log.history, kept, after)
  {
    var h := log.history;
    UptoMeaning(h, after);
    if kept > Upto(h, after) {
      assert kept - 1 in log.gone && h[kept - 1].version > after;
    }
    if h != [] {
      assert Spans(log, kept, |h| - 1);
      forall o: nat, l: nat | Spans(log, o, l)
        ensures o == kept && l == |h| - 1
      {
        assert Retained(log, kept);
      }
    }
  }

  function Recording(events: seq<Event>): seq<Change>
  {
    if events == [] then [] else [Record(events[0])] + Recording(events[1..])
  }

  /** Recording the rest of a history and then making one change. */
  lemma {:induction false} RecordingReaches(log: Log, rest: seq<Event>, last: Change, log2: Log)
    requires Rising(log.history + rest) && Reaches(Log(log.history + rest, log.gone), [last], log2)
    ensures Reaches(log, Recording(rest) + [last], log2)
    decreases |rest|
  {
    if rest == [] {
      assert log.history + rest == log.history && Recording(rest) + [last] == [last];
    } else {
      var h, next := log.history + rest, After(log, Record(rest[0]));
      assert next.history + rest[1..] == h;
      assert rest[0] == h[|log.history|] && forall k :: 0 <= k < |log.history| ==> log.history[k] == h[k];
      RecordingReaches(next, rest[1..], last, log2);
      assert (Recording(rest) + [last])[1..] == Recording(rest[1..]) + [last];
    }
  }

  /** Retention that stops right after erasing event `l`, one of equally old events. */
  function Erasing(h: seq<Event>, l: nat): (c: Change)
    requires l < |h|
    ensures c.Prune?
  {
    Prune(h[l].at + 1, set x: nat | x < |h| - 1 && (h[x].at < h[l].at || x == l))
  }

  lemma ErasingIsEnabled(h: seq<Event>, l: nat)
    requires l < |h| - 1
    ensures Enabled(Log(h, {}), Erasing(h, l)) && Reaches(Log(h, {}), [Erasing(h, l)], After(Log(h, {}), Erasing(h, l)))
  {
    var log, c := Log(h, {}), Erasing(h, l);
    assert Retained(log, |h| - 1);
    forall x | x in c.batch
      ensures Expired(log, c.cutoff, x)
    {
      assert x < |h| - 1 && Retained(log, x);
    }
    assert [c][1..] == [];
  }

  /**
   * An event whose transaction began no later than that of a lower version may be erased before it: a client that has
   * seen the lower version is resumed and never told.
   */
  lemma OverlappingTransactionsLose(h: seq<Event>, k: nat, l: nat) returns (changes: seq<Change>, log2: Log)
    requires Rising(h) && k < l < |h| - 1 && h[k].at >= h[l].at
    ensures Reaches(Log([], {}), changes, log2) && log2.history == h
    ensures Resumes(log2, h[k].version) && Loses(log2, h[k].version)
  {
    hide Enabled, Erasing, Resumes, Loses, Reaches, Recording, After;
    var c := Erasing(h, l);
    changes, log2 := Recording(h) + [c], After(Log(h, {}), c);
    ErasingIsEnabled(h, l);
    assert [] + h == h;
    RecordingReaches(Log([], {}), h, c, log2);
    ErasedIsLost(h, k, l);
  }

  lemma ErasedIsLost(h: seq<Event>, k: nat, l: nat)
    requires Rising(h) && k < l < |h| - 1 && h[k].at >= h[l].at
    ensures var log2 := After(Log(h, {}), Erasing(h, l));
      log2.history == h && Resumes(log2, h[k].version) && Loses(log2, h[k].version)
  {
    var log2, n := After(Log(h, {}), Erasing(h, l)), |h| - 1;
    assert Retained(log2, k) && Retained(log2, n);
    var o := OldestExists(log2, k);
    assert Spans(log2, o, n);
    assert h[o].version <= h[k].version < h[n].version;
    assert l in log2.gone && h[l].version > h[k].version;
  }

  /**
   * However its events are recorded and pruned, a history leaves a log that is safe for every cursor, exactly if all its
   * events but the newest began one after the other.
   */
  lemma SafeExactlyIfDated(h: seq<Event>)
    requires Rising(h)
    ensures Dated(h) <==> forall changes, log2 :: Reaches(Log([], {}), changes, log2) && log2.history == h ==> Safe(log2)
  {
    if Dated(h) {
      forall changes, log2 | Reaches(Log([], {}), changes, log2) && log2.history == h
        ensures Safe(log2)
      {
        NewestIsKept(Log([], {}), changes, log2);
        DatedLogsAreSuffixes(Log([], {}), changes, log2);
        ResumesSafelyOnSuffixes(log2);
      }
    } else {
      var k, l :| 0 <= k < l < |h| - 1 && h[k].at >= h[l].at;
      var changes, log2 := OverlappingTransactionsLose(h, k, l);
      assert h[k].version >= 0;
      assert Reaches(Log([], {}), changes, log2) && !Safe(log2);
    }
  }

  // ----- The stream -----

  /** What the stream is told: the events recorded at each successive read, where its subscription starts and stops. */
  datatype Feed = Feed(history: seq<Event>, kept: nat, visible: nat -> nat, start: nat, delivered: nat)

  /** Reads see more and more of the history; the subscription was taken before the first read. */
  ghost predicate Coherent(f: Feed)
  {
    && Rising(f.history) && f.start <= f.delivered <= |f.history| && f.start <= f.visible(0)
    && Kept(f.kept, f.visible(0))
    && (forall r: nat :: f.visible(r) <= |f.history|) && (forall r: nat :: f.visible(r) <= f.visible(r + 1))
  }

  /** The cursor `after` stands right after event `pos` of the history. */
  ghost predicate StandsAt(h: seq<Event>, after: int, pos: nat)
  {
    pos <= |h| && Upto(h, after) == pos
  }

  lemma SentMoves(h: seq<Event>, pos: nat)
    requires Rising(h) && pos < |h|
    ensures StandsAt(h, h[pos].version, pos + 1)
  {
    UptoIs(h, h[pos].version, pos + 1);
  }

  /** `sent` are the events from position `first` on. */
  ghost predicate From(h: seq<Event>, first: nat, sent: seq<Event>)
  {
    first + |sent| <= |h| && sent == h[first..first + |sent|]
  }

  lemma FromSnoc(h: seq<Event>, first: nat, sent: seq<Event>)
    requires From(h, first, sent) && first + |sent| < |h|
    ensures From(h, first, sent + [h[first + |sent|]])
  {
  }

  /**
   * Replays the log after a cursor in batches. `budget` is how many messages the connection still takes;
   * `ok` is false once it fails.
   */
  method SendPending(f: Feed, after0: int, budget: nat) returns (sent: seq<Event>, after: int, ok: bool)
    requires Coherent(f) && NothingLost(f.history, f.kept, after0) && Upto(f.history, after0) <= f.visible(0)
    ensures var first := Upto(f.history, after0);
      && From(f.history, first, sent) && |sent| <= budget && StandsAt(f.history, after, first + |sent|)
      && (ok ==> f.visible(0) <= first + |sent|) && (!ok ==> |sent| == budget)
  {
    ghost var h, first := f.history, Upto(f.history, after0);
    sent, after := [], after0;
    var read := 0;
    while true
      invariant first + |sent| <= f.visible(read) && f.visible(0) <= f.visible(read) && |sent| <= budget
      invariant From(h, first, sent) && StandsAt(h, after, first + |sent|)
      decreases |h| - |sent|
    {
      var n := f.visible(read);
      var events := ListAfter(f.history, f.kept, n, after, BATCH);
      ghost var pos := first + |sent|;
      assert events == h[pos..if pos + BATCH < n then pos + BATCH else n];
      for k := 0 to |events|
        invariant pos + k == first + |sent| && |sent| <= budget
        invariant From(h, first, sent) && StandsAt(h, after, pos + k)
      {
        if |sent| == budget {
          return sent, after, false;
        }
        SentMoves(h, pos + k);
        FromSnoc(h, first, sent);
        sent, after := sent + [events[k]], events[k].version;
      }
      if |events| < BATCH {
        return sent, after, true;
      }
      read := read + 1;
      assert f.visible(read - 1) <= f.visible(read - 1 + 1);
    }
  }

  /** Forwards the live events the cursor has not passed yet. */
  method Forward(f: Feed, after0: int, ghost pos: nat, budget: nat) returns (sent: seq<Event>)
    requires Coherent(f) && StandsAt(f.history, after0, pos) && f.start <= pos
    ensures From(f.history, pos, sent) && |sent| <= budget
    ensures |sent| < budget ==> f.delivered <= pos + |sent|
  {
    ghost var h := f.history;
    sent := [];
    var after := after0;
    for k := f.start to f.delivered
      invariant From(h, pos, sent) && |sent| <= budget && k <= pos + |sent|
      invariant StandsAt(h, after, pos + |sent|)
    {
      UptoMeaning(h, after);
      if f.history[k].version > after {
        if |sent| == budget {
          return;
        }
        assert k == pos + |sent|;
        SentMoves(h, k);
        FromSnoc(h, pos, sent);
        sent, after := sent + [f.history[k]], f.history[k].version;
      }
    }
  }

  datatype Ready = Ready(version: int, resync: bool)

  /** What was sent is what follows the announced version, in order: versions rise, nothing is skipped or repeated. */
  ghost predicate Follows(f: Feed, version: int, sent: seq<Event>)
  {
    From(f.history, Upto(f.history, version), sent)
  }

  /** Events after a version are exactly those that follow it in the history. */
  lemma FollowsMeaning(f: Feed, version: int, sent: seq<Event>)
    requires Coherent(f) && Follows(f, version, sent)
    ensures forall k :: 0 <= k < |sent| ==> sent[k].version > version
    ensures forall k, l :: 0 <= k < l < |sent| ==> sent[k].version < sent[l].version
    ensures forall k :: 0 <= k < |f.history| && f.history[k].version > version ==>
      f.history[k] in sent || k >= Upto(f.history, version) + |sent|
  {
    UptoMeaning(f.history, version);
    var first := Upto(f.history, version);
    forall k | 0 <= k < |f.history| && f.history[k].version > version && k < first + |sent|
      ensures f.history[k] in sent
    {
      assert sent[k - first] == f.history[k];
    }
  }

  function StartVersion(f: Feed): int
    requires f.start <= |f.history|
  {
    if f.start == 0 then 0 else f.history[f.start - 1].version
  }

  /**
   * The whole stream. A resumed stream sends exactly the events after its cursor; any other stream announces the version
   * it starts from and sends exactly what follows it.
   */
  method Stream(f: Feed, cursor: int, resumes: bool, budget: nat) returns (ready: Ready, sent: seq<Event>)
    requires Coherent(f)
    ensures var resumed := resumes && Resumable(f.history, f.kept, f.visible(0), cursor);
      && ready == Ready(if resumed then cursor else StartVersion(f), resumes && !resumed)
      && Follows(f, ready.version, sent)
      // unless the connection failed, everything recorded at the start or delivered since has been sent
      && (|sent| < budget ==> f.delivered <= Upto(f.history, ready.version) + |sent|)
      && (|sent| < budget && resumed ==> f.visible(0) <= Upto(f.history, ready.version) + |sent|)
  {
    var resumed := resumes && Resumable(f.history, f.kept, f.visible(0), cursor);
    if resumed {
      ready := Ready(cursor, false);
      ResumableIsSafe(f.history, f.kept, f.visible(0), cursor);
      sent := Replay(f, cursor, budget);
    } else {
      ready := Ready(StartVersion(f), resumes);
      StartStands(f);
      sent := Forward(f, ready.version, f.start, budget);
    }
  }

  /** Replay, then live events from where the replay stopped. */
  method Replay(f: Feed, cursor: int, budget: nat) returns (sent: seq<Event>)
    requires Coherent(f) && NothingLost(f.history, f.kept, cursor) && Upto(f.history, cursor) <= f.visible(0)
    ensures Follows(f, cursor, sent)
    ensures |sent| < budget ==>
      f.delivered <= Upto(f.history, cursor) + |sent| && f.visible(0) <= Upto(f.history, cursor) + |sent|
  {
    ghost var first := Upto(f.history, cursor);
    UptoMeaning(f.history, cursor);
    var after, live: bool;
    sent, after, live := SendPending(f, cursor, budget);
    if live {
      var more := Forward(f, after, first + |sent|, budget - |sent|);
      Joined(f.history, first, first + |sent|, first + |sent| + |more|);
      sent := sent + more;
    }
  }

  lemma Joined(h: seq<Event>, a: nat, b: nat, c: nat)
    requires a <= b <= c <= |h|
    ensures h[a..b] + h[b..c] == h[a..c]
  {
  }

  /** The version the subscription starts from stands where its events begin. */
  lemma StartStands(f: Feed)
    requires Coherent(f)
    ensures StandsAt(f.history, StartVersion(f), f.start)
  {
    UptoIs(f.history, StartVersion(f), f.start);
  }
}
