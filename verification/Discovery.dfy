/** The automatic discovery pass of a connector over its remote inventory. */
module Discovery {
  import opened Common
  import opened IdentityMatching

  datatype Object = Object(externalId: string, name: string, eligible: bool, profile: Profile)

  /** What is remembered of a remote object. */
  datatype Entry = Entry(excluded: bool, pending: bool, present: bool)

  /** The discovery columns of one connector; bindings go from external ids to targets. */
  datatype State = State(initialized: bool, inventory: map<string, Entry>, bindings: map<string, string>)

  datatype Error = LeaseLost | InvalidInventory

  // ----- The inventory -----

  predicate Acceptable(o: Object)
  {
    !Blank(o.externalId) && |o.externalId| <= 512 && !Blank(o.name) && |o.name| <= 160
  }

  predicate DistinctObjects(objects: seq<Object>)
  {
    forall k, l :: 0 <= k < l < |objects| ==> objects[k].externalId != objects[l].externalId
  }

  predicate ValidInventory(objects: seq<Object>)
  {
    (forall k :: 0 <= k < |objects| ==> Acceptable(objects[k])) && DistinctObjects(objects)
  }

  function ExternalIds(objects: seq<Object>): set<string>
  {
    set k | 0 <= k < |objects| :: objects[k].externalId
  }

  function EligibleIds(objects: seq<Object>): set<string>
  {
    set k | 0 <= k < |objects| && objects[k].eligible :: objects[k].externalId
  }

  /** The confirmed selection: what is eligible and was not bound was left out deliberately. */
  function Remember(st: State, objects: seq<Object>): State
  {
    var ids := ExternalIds(objects);
    State(true,
      map x | x in st.inventory.Keys + ids ::
        if x in ids then Entry(x in EligibleIds(objects) && x !in st.bindings, false, true) else st.inventory[x],
      st.bindings)
  }

  /** Every object reported is present, the others are not. */
  function Register(st: State, objects: seq<Object>): State
  {
    var ids := ExternalIds(objects);
    st.(inventory := map x | x in st.inventory.Keys + ids ::
      if x in st.inventory then st.inventory[x].(present := x in ids) else Entry(false, false, true))
  }

  function Excluded(st: State): set<string>
  {
    set x | x in st.inventory && st.inventory[x].excluded
  }

  function MarkPending(st: State, pending: set<string>): State
  {
    st.(inventory := map x | x in st.inventory :: st.inventory[x].(pending := x in pending))
  }

  // ----- The pass -----

  datatype Progress = Progress(known: seq<Candidate>, bindings: map<string, string>, pending: set<string>)

  predicate Considered(o: Object, excluded: set<string>, bound: set<string>)
  {
    o.externalId !in excluded && o.externalId !in bound && o.eligible
  }

  /** One object: pending if it resembles a known target, otherwise a target of its own. */
  function Visit(n: Normal, mint: string -> string, p: Progress, excluded: set<string>, bound: set<string>,
      o: Object): Progress
  {
    if !Considered(o, excluded, bound) then p
    else if MatchTargets(n, o.profile, p.known) != [] then p.(pending := p.pending + {o.externalId})
    else
      var target := mint(o.externalId);
      Progress(p.known + [Candidate(target, o.name, o.profile)], p.bindings[o.externalId := target], p.pending)
  }

  function VisitAll(n: Normal, mint: string -> string, p: Progress, excluded: set<string>, bound: set<string>,
      objects: seq<Object>): Progress
  {
    if objects == [] then p
    else Visit(n, mint, VisitAll(n, mint, p, excluded, bound, objects[..|objects| - 1]), excluded, bound, objects[|objects| - 1])
  }

  /** The state a pass starts from: an uninitialised connector keeps its current selection. */
  function Prepared(st: State, objects: seq<Object>): State
  {
    Register(if st.initialized then st else Remember(st, objects), objects)
  }

  function Pass(n: Normal, mint: string -> string, st: State, known: seq<Candidate>, objects: seq<Object>): Progress
  {
    var start := Prepared(st, objects);
    VisitAll(n, mint, Progress(known, start.bindings, {}), Excluded(start), start.bindings.Keys, objects)
  }

  function Refreshed(n: Normal, mint: string -> string, st: State, known: seq<Candidate>, objects: seq<Object>): State
  {
    var p := Pass(n, mint, st, known, objects);
    MarkPending(Prepared(st, objects).(bindings := p.bindings), p.pending)
  }

  // ----- What a pass decides -----

  predicate Resembles(n: Normal, profile: Profile, known: seq<Candidate>)
  {
    exists k :: 0 <= k < |known| && Score(n, profile, known[k].profile) > 0
  }

  lemma MatchesMean(n: Normal, profile: Profile, known: seq<Candidate>)
    ensures MatchTargets(n, profile, known) != [] <==> Resembles(n, profile, known)
  {
    hide Score;
    var found := Found(n, profile, known);
    ArrangeByScore(n, found);
    FoundMeaning(n, profile, known);
    assert |multiset(MatchTargets(n, profile, known))| == |multiset(found)|;
    if found != [] {
      var m := found[0];
      assert m in found && m.target in known;
      var k :| 0 <= k < |known| && known[k] == m.target;
    }
    if k :| 0 <= k < |known| && Score(n, profile, known[k].profile) > 0 {
      assert MatchOf(n, profile, known[k]) in found;
    }
  }

  /** No target created by the pass resembles a target listed before it. */
  ghost predicate Apart(n: Normal, known: seq<Candidate>, from: nat)
  {
    from <= |known| && forall k, j :: from <= k < |known| && 0 <= j < k ==> Score(n, known[k].profile, known[j].profile) == 0
  }

  /** What holds once the objects `seen` have been visited. */
  ghost predicate Decided(n: Normal, known: seq<Candidate>, p: Progress, excluded: set<string>,
      bound: map<string, string>, seen: seq<Object>)
  {
    && |known| <= |p.known| && p.known[..|known|] == known && Apart(n, p.known, |known|)
    // only considered objects are newly bound, and nothing is unbound
    && (forall x :: x in bound ==> x in p.bindings && p.bindings[x] == bound[x])
    && (forall x :: x in p.bindings && x !in bound ==> x !in excluded && x in EligibleIds(seen))
    && (forall x :: x in p.pending ==> x !in excluded && x !in bound && x in EligibleIds(seen))
    // each considered object is bound or pending, and not both
    && (forall k :: 0 <= k < |seen| && Considered(seen[k], excluded, bound.Keys) ==>
          (seen[k].externalId in p.bindings <==> seen[k].externalId !in p.pending))
    // each pending object resembles a known target
    && (forall k :: 0 <= k < |seen| && seen[k].externalId in p.pending ==> Resembles(n, seen[k].profile, p.known))
    && |p.known| - |known| == |p.bindings| - |bound|
  }

  lemma EligibleSnoc(seen: seq<Object>, o: Object)
    ensures EligibleIds(seen + [o]) == EligibleIds(seen) + if o.eligible then {o.externalId} else {}
  {
    var longer := seen + [o];
    forall x | x in EligibleIds(longer)
      ensures x in EligibleIds(seen) || (o.eligible && x == o.externalId)
    {
      var k :| 0 <= k < |longer| && longer[k].eligible && longer[k].externalId == x;
      assert k < |seen| ==> seen[k] == longer[k];
    }
    forall x | x in EligibleIds(seen)
      ensures x in EligibleIds(longer)
    {
      var k :| 0 <= k < |seen| && seen[k].eligible && seen[k].externalId == x;
      assert longer[k] == seen[k];
    }
    assert longer[|seen|] == o;
  }

  lemma ResemblesMore(n: Normal, profile: Profile, known: seq<Candidate>, c: Candidate)
    requires Resembles(n, profile, known)
    ensures Resembles(n, profile, known + [c])
  {
    hide Score;
    var k :| 0 <= k < |known| && Score(n, profile, known[k].profile) > 0;
    assert (known + [c])[k] == known[k];
  }

  lemma ApartMore(n: Normal, known: seq<Candidate>, from: nat, c: Candidate)
    requires Apart(n, known, from) && !Resembles(n, c.profile, known)
    ensures Apart(n, known + [c], from)
  {
    hide Score;
    var longer := known + [c];
    forall k, j | from <= k < |longer| && 0 <= j < k
      ensures Score(n, longer[k].profile, longer[j].profile) == 0
    {
      if k == |known| {
        assert longer[j] == known[j];
      } else {
        assert longer[k] == known[k] && longer[j] == known[j];
      }
    }
  }

  lemma VisitDecides(n: Normal, mint: string -> string, known: seq<Candidate>, p: Progress, excluded: set<string>,
      bound: map<string, string>, seen: seq<Object>, o: Object)
    requires Decided(n, known, p, excluded, bound, seen) && DistinctObjects(seen + [o])
    ensures Decided(n, known, Visit(n, mint, p, excluded, bound.Keys, o), excluded, bound, seen + [o])
  {
    hide Score, MatchTargets, Apart, Resembles;
    EligibleSnoc(seen, o);
    MatchesMean(n, o.profile, p.known);
    NewObject(seen, o);
    if Considered(o, excluded, bound.Keys) {
      if Resembles(n, o.profile, p.known) {
        PendingDecides(n, known, p, excluded, bound, seen, o);
      } else {
        CreatedDecides(n, mint, known, p, excluded, bound, seen, o);
      }
    } else {
      SkippedDecides(n, known, p, excluded, bound, seen, o);
    }
  }

  lemma NewObject(seen: seq<Object>, o: Object)
    requires DistinctObjects(seen + [o])
    ensures o.externalId !in EligibleIds(seen) && forall k :: 0 <= k < |seen| ==> seen[k].externalId != o.externalId
  {
    var longer := seen + [o];
    forall k | 0 <= k < |seen|
      ensures seen[k].externalId != o.externalId
    {
      assert longer[k] == seen[k] && longer[|seen|] == o;
    }
  }

  lemma SkippedDecides(n: Normal, known: seq<Candidate>, p: Progress, excluded: set<string>,
      bound: map<string, string>, seen: seq<Object>, o: Object)
    requires Decided(n, known, p, excluded, bound, seen) && !Considered(o, excluded, bound.Keys)
    requires EligibleIds(seen) <= EligibleIds(seen + [o])
    requires o.externalId !in EligibleIds(seen)
    ensures Decided(n, known, p, excluded, bound, seen + [o])
  {
    hide Score, Apart, Resembles;
    assert o.externalId !in p.pending;
  }

  lemma PendingDecides(n: Normal, known: seq<Candidate>, p: Progress, excluded: set<string>,
      bound: map<string, string>, seen: seq<Object>, o: Object)
    requires Decided(n, known, p, excluded, bound, seen) && Considered(o, excluded, bound.Keys) && Resembles(n, o.profile, p.known)
    requires EligibleIds(seen + [o]) == EligibleIds(seen) + {o.externalId}
    requires o.externalId !in EligibleIds(seen) && forall k :: 0 <= k < |seen| ==> seen[k].externalId != o.externalId
    ensures Decided(n, known, p.(pending := p.pending + {o.externalId}), excluded, bound, seen + [o])
  {
    hide Score, Apart, Resembles;
    assert o.externalId !in p.bindings;
  }

  lemma OneMore(m: map<string, string>, x: string, y: string)
    requires x !in m
    ensures |m[x := y]| == |m| + 1
  {
    assert m[x := y].Keys == m.Keys + {x} && |m[x := y]| == |m[x := y].Keys| && |m| == |m.Keys|;
  }

  lemma PrefixMore(known: seq<Candidate>, longer: seq<Candidate>, c: Candidate)
    requires |known| <= |longer| && longer[..|known|] == known
    ensures (longer + [c])[..|known|] == known
  {
    assert (longer + [c])[..|known|] == longer[..|known|];
  }

  lemma CreatedDecides(n: Normal, mint: string -> string, known: seq<Candidate>, p: Progress, excluded: set<string>,
      bound: map<string, string>, seen: seq<Object>, o: Object)
    requires Decided(n, known, p, excluded, bound, seen) && Considered(o, excluded, bound.Keys) && !Resembles(n, o.profile, p.known)
    requires EligibleIds(seen + [o]) == EligibleIds(seen) + {o.externalId}
    requires o.externalId !in EligibleIds(seen) && forall k :: 0 <= k < |seen| ==> seen[k].externalId != o.externalId
    ensures var target := mint(o.externalId);
      var p2 := Progress(p.known + [Candidate(target, o.name, o.profile)], p.bindings[o.externalId := target], p.pending);
      Decided(n, known, p2, excluded, bound, seen + [o])
  {
    hide Score, Apart, Resembles;
    var c := Candidate(mint(o.externalId), o.name, o.profile);
    ApartMore(n, p.known, |known|, c);
    assert o.externalId !in p.bindings && o.externalId !in p.pending;
    OneMore(p.bindings, o.externalId, c.id);
    PrefixMore(known, p.known, c);
    forall k | 0 <= k < |seen| && seen[k].externalId in p.pending
      ensures Resembles(n, seen[k].profile, p.known + [c])
    {
      ResemblesMore(n, seen[k].profile, p.known, c);
    }
  }

  lemma {:induction false} VisitAllDecides(n: Normal, mint: string -> string, known: seq<Candidate>,
      excluded: set<string>, bound: map<string, string>, objects: seq<Object>)
    requires DistinctObjects(objects)
    ensures Decided(n, known, VisitAll(n, mint, Progress(known, bound, {}), excluded, bound.Keys, objects), excluded, bound, objects)
  {
    hide Visit, Score;
    if objects != [] {
      var init, last := objects[..|objects| - 1], objects[|objects| - 1];
      assert objects == init + [last];
      VisitAllDecides(n, mint, known, excluded, bound, init);
      VisitDecides(n, mint, known, VisitAll(n, mint, Progress(known, bound, {}), excluded, bound.Keys, init), excluded, bound, init, last);
    }
  }

  /** Everything a pass decides, for any inventory. */
  lemma PassDecides(n: Normal, mint: string -> string, st: State, known: seq<Candidate>, objects: seq<Object>)
    requires DistinctObjects(objects)
    ensures var start := Prepared(st, objects);
      Decided(n, known, Pass(n, mint, st, known, objects), Excluded(start), st.bindings, objects)
  {
    VisitAllDecides(n, mint, known, Excluded(Prepared(st, objects)), st.bindings, objects);
  }

  // ----- What that means for the connector -----

  predicate Reports(objects: seq<Object>, x: string) { exists k :: 0 <= k < |objects| && objects[k].externalId == x }

  predicate ReportsEligible(objects: seq<Object>, x: string)
  {
    exists k :: 0 <= k < |objects| && objects[k].externalId == x && objects[k].eligible
  }

  /** Whether an object is excluded once the pass is over: as before, or by what an uninitialised connector has not bound. */
  predicate StaysExcluded(st: State, objects: seq<Object>, x: string)
  {
    if st.initialized || !Reports(objects, x) then x in st.inventory && st.inventory[x].excluded
    else ReportsEligible(objects, x) && x !in st.bindings
  }

  lemma RefreshedEntries(n: Normal, mint: string -> string, st: State, known: seq<Candidate>, objects: seq<Object>)
    ensures var after := Refreshed(n, mint, st, known, objects);
      && after.initialized && (forall x :: x in after.inventory <==> x in st.inventory || Reports(objects, x))
      && (forall x :: x in after.inventory ==>
            && (after.inventory[x].present <==> Reports(objects, x))
            && (after.inventory[x].excluded <==> StaysExcluded(st, objects, x)))
  {
    hide Pass;
    forall x
      ensures x in ExternalIds(objects) <==> Reports(objects, x)
      ensures x in EligibleIds(objects) <==> ReportsEligible(objects, x)
    {
    }
  }

  /**
   * Told from the state before it: a pass keeps every exclusion and every binding, excludes no object that is new to the
   * connector, binds no excluded one, and leaves each eligible one that is neither bound nor excluded bound or pending.
   */
  lemma RefreshBindsWhatIsWanted(n: Normal, mint: string -> string, st: State, known: seq<Candidate>,
      objects: seq<Object>)
    requires DistinctObjects(objects)
    ensures var after := Refreshed(n, mint, st, known, objects);
      && after.initialized && (forall x :: x in after.inventory <==> x in st.inventory || Reports(objects, x))
      && (forall x :: x in after.inventory ==>
            && (after.inventory[x].present <==> Reports(objects, x))
            && (after.inventory[x].excluded <==> StaysExcluded(st, objects, x)))
      && (forall x :: x in st.bindings ==> x in after.bindings && after.bindings[x] == st.bindings[x])
      && (forall x :: x in after.bindings && x !in st.bindings ==> ReportsEligible(objects, x) && !StaysExcluded(st, objects, x))
      && (forall x :: ReportsEligible(objects, x) && !StaysExcluded(st, objects, x) && x !in st.bindings ==>
            (x in after.bindings <==> !after.inventory[x].pending))
      && (forall x :: x in after.inventory && after.inventory[x].pending ==>
            ReportsEligible(objects, x) && !StaysExcluded(st, objects, x) && x !in st.bindings)
  {
    hide Pass, Register, Remember;
    var start, p, after := Prepared(st, objects), Pass(n, mint, st, known, objects), Refreshed(n, mint, st, known, objects);
    PassDecides(n, mint, st, known, objects);
    RefreshedEntries(n, mint, st, known, objects);
    assert forall x :: x in start.inventory ==> x in after.inventory && after.inventory[x].excluded == start.inventory[x].excluded;
    forall x | ReportsEligible(objects, x) && !StaysExcluded(st, objects, x) && x !in st.bindings
      ensures x in p.bindings <==> x !in p.pending
    {
      var k :| 0 <= k < |objects| && objects[k].externalId == x && objects[k].eligible;
      assert Reports(objects, x) && x in after.inventory;
      assert Considered(objects[k], Excluded(start), st.bindings.Keys);
    }
    forall x | x in EligibleIds(objects)
      ensures ReportsEligible(objects, x) && x in after.inventory
    {
      var k :| 0 <= k < |objects| && objects[k].externalId == x && objects[k].eligible;
      assert Reports(objects, x);
    }
  }

  /** In particular, what an administrator has excluded stays unbound, present again or not. */
  lemma ExcludedStaysUnbound(n: Normal, mint: string -> string, st: State, known: seq<Candidate>, objects: seq<Object>, x: string)
    requires st.initialized && DistinctObjects(objects) && x in st.inventory && st.inventory[x].excluded && x !in st.bindings
    ensures var after := Refreshed(n, mint, st, known, objects);
      x !in after.bindings && x in after.inventory && after.inventory[x].excluded && !after.inventory[x].pending
  {
    hide Refreshed;
    RefreshBindsWhatIsWanted(n, mint, st, known, objects);
  }

  /** The targets a pass creates: one per new binding, none resembling an earlier target or one another. */
  lemma RefreshCreatesStrangers(n: Normal, mint: string -> string, st: State, known: seq<Candidate>,
      objects: seq<Object>)
    requires DistinctObjects(objects)
    ensures var p := Pass(n, mint, st, known, objects);
      && |known| <= |p.known| && p.known[..|known|] == known
      && |p.known| - |known| == |p.bindings| - |st.bindings|
      && (forall k, j :: |known| <= k < |p.known| && 0 <= j < |p.known| && j != k ==>
            Score(n, p.known[k].profile, p.known[j].profile) == 0)
  {
    hide Score;
    PassDecides(n, mint, st, known, objects);
    var p := Pass(n, mint, st, known, objects);
    forall k, j | |known| <= k < |p.known| && 0 <= j < |p.known| && j != k
      ensures Score(n, p.known[k].profile, p.known[j].profile) == 0
    {
      ScoreIsSymmetric(n, p.known[k].profile, p.known[j].profile);
    }
  }

  /** Each new binding leads to the target made for its object, with the name and the identity of the object. */
  ghost predicate MadeFor(mint: string -> string, known: seq<Candidate>, o: Object, target: string)
  {
    target == mint(o.externalId) && exists k :: 0 <= k < |known| && known[k] == Candidate(target, o.name, o.profile)
  }

  ghost predicate AllMade(mint: string -> string, p: Progress, bound: map<string, string>, seen: seq<Object>)
  {
    forall x :: x in p.bindings && x !in bound ==>
      exists k :: 0 <= k < |seen| && seen[k].externalId == x && MadeFor(mint, p.known, seen[k], p.bindings[x])
  }

  lemma MadeForMore(mint: string -> string, known: seq<Candidate>, o: Object, target: string, c: Candidate)
    requires MadeFor(mint, known, o, target)
    ensures MadeFor(mint, known + [c], o, target)
  {
    var k :| 0 <= k < |known| && known[k] == Candidate(target, o.name, o.profile);
    assert (known + [c])[k] == known[k];
  }

  lemma VisitMakes(n: Normal, mint: string -> string, p: Progress, excluded: set<string>, bound: map<string, string>,
      seen: seq<Object>, o: Object)
    requires AllMade(mint, p, bound, seen)
    ensures AllMade(mint, Visit(n, mint, p, excluded, bound.Keys, o), bound, seen + [o])
  {
    hide MatchTargets, MadeFor;
    var q, longer := Visit(n, mint, p, excluded, bound.Keys, o), seen + [o];
    forall x | x in q.bindings && x !in bound
      ensures exists k :: 0 <= k < |longer| && longer[k].externalId == x && MadeFor(mint, q.known, longer[k], q.bindings[x])
    {
      if q.bindings != p.bindings && x == o.externalId {
        MadeNow(mint, p.known, o);
        assert longer[|seen|] == o;
      } else {
        var k :| 0 <= k < |seen| && seen[k].externalId == x && MadeFor(mint, p.known, seen[k], p.bindings[x]);
        assert longer[k] == seen[k];
        if q.known != p.known {
          MadeForMore(mint, p.known, seen[k], p.bindings[x], Candidate(mint(o.externalId), o.name, o.profile));
        }
      }
    }
  }

  lemma MadeNow(mint: string -> string, known: seq<Candidate>, o: Object)
    ensures MadeFor(mint, known + [Candidate(mint(o.externalId), o.name, o.profile)], o, mint(o.externalId))
  {
    var longer := known + [Candidate(mint(o.externalId), o.name, o.profile)];
    assert longer[|known|] == Candidate(mint(o.externalId), o.name, o.profile);
  }

  lemma {:induction false} VisitAllMakes(n: Normal, mint: string -> string, known: seq<Candidate>,
      excluded: set<string>, bound: map<string, string>, objects: seq<Object>)
    ensures AllMade(mint, VisitAll(n, mint, Progress(known, bound, {}), excluded, bound.Keys, objects), bound, objects)
  {
    hide Visit;
    if objects != [] {
      var init, last := objects[..|objects| - 1], objects[|objects| - 1];
      assert objects == init + [last];
      VisitAllMakes(n, mint, known, excluded, bound, init);
      VisitMakes(n, mint, VisitAll(n, mint, Progress(known, bound, {}), excluded, bound.Keys, init), excluded, bound, init, last);
    }
  }

  /** A pass makes the target of each object it binds. */
  lemma RefreshMakesTargets(n: Normal, mint: string -> string, st: State, known: seq<Candidate>, objects: seq<Object>)
    ensures var p := Pass(n, mint, st, known, objects);
      && Refreshed(n, mint, st, known, objects).bindings == p.bindings
      && forall x :: x in p.bindings && x !in st.bindings ==>
        exists k :: 0 <= k < |objects| && objects[k].externalId == x && MadeFor(mint, p.known, objects[k], p.bindings[x])
  {
    hide VisitAll;
    VisitAllMakes(n, mint, known, Excluded(Prepared(st, objects)), st.bindings, objects);
  }

  /** The first pass of a connector without a recorded selection creates nothing. */
  lemma FirstPassCreatesNothing(n: Normal, mint: string -> string, st: State, known: seq<Candidate>,
      objects: seq<Object>)
    requires !st.initialized && DistinctObjects(objects)
    ensures Pass(n, mint, st, known, objects) == Progress(known, st.bindings, {})
    ensures Refreshed(n, mint, st, known, objects).initialized
  {
    var start := Prepared(st, objects);
    forall k | 0 <= k < |objects|
      ensures !Considered(objects[k], Excluded(start), st.bindings.Keys)
    {
      var x := objects[k].externalId;
      assert x in ExternalIds(objects);
      if objects[k].eligible && x !in st.bindings {
        assert x in EligibleIds(objects);
        assert start.inventory[x].excluded;
      }
    }
    NothingVisited(n, mint, Progress(known, st.bindings, {}), Excluded(start), st.bindings.Keys, objects);
  }

  lemma {:induction false} NothingVisited(n: Normal, mint: string -> string, p: Progress, excluded: set<string>,
      bound: set<string>, objects: seq<Object>)
    requires forall k :: 0 <= k < |objects| ==> !Considered(objects[k], excluded, bound)
    ensures VisitAll(n, mint, p, excluded, bound, objects) == p
  {
    if objects != [] {
      NothingVisited(n, mint, p, excluded, bound, objects[..|objects| - 1]);
    }
  }

  // ----- Running the pass again -----

  /** The persisted identity says at least as much. */
  predicate Covers(more: Profile, less: Profile)
  {
    && (forall v :: v in less.names ==> v in more.names) && (forall v :: v in less.addresses ==> v in more.addresses)
    && (forall v :: v in less.identifiers ==> v in more.identifiers)
  }

  ghost predicate Persisted(known: seq<Candidate>, reread: seq<Candidate>)
  {
    forall k :: 0 <= k < |known| ==> exists j :: 0 <= j < |reread| && Covers(reread[j].profile, known[k].profile)
  }

  lemma NormalizedCovers(more: seq<string>, less: seq<string>, normalize: string -> string)
    requires forall v :: v in less ==> v in more
    ensures Normalized(less, normalize) <= Normalized(more, normalize)
  {
    forall x | x in Normalized(less, normalize)
      ensures x in Normalized(more, normalize)
    {
      var k :| 0 <= k < |less| && normalize(less[k]) != "" && normalize(less[k]) == x;
      assert less[k] in more;
      var j :| 0 <= j < |more| && more[j] == less[k];
    }
  }

  lemma FingerprintsCover(n: Normal, more: seq<string>, less: seq<string>)
    requires forall v :: v in less ==> v in more
    ensures FingerprintsOf(n, less) <= FingerprintsOf(n, more)
  {
    hide FingerprintOf;
    forall f | f in FingerprintsOf(n, less)
      ensures f in FingerprintsOf(n, more)
    {
      var k :| 0 <= k < |less| && FingerprintOf(n, less[k]).core != "" && FingerprintOf(n, less[k]) == f;
      assert less[k] in more;
      var j :| 0 <= j < |more| && more[j] == less[k];
    }
  }

  /** Knowing more about a target never hides a match. */
  lemma CoverKeepsMatch(n: Normal, profile: Profile, more: Profile, less: Profile)
    requires Covers(more, less) && Score(n, profile, less) > 0
    ensures Score(n, profile, more) > 0
  {
    hide Normalized, FingerprintsOf;
    NormalizedCovers(more.names, less.names, n.name);
    NormalizedCovers(more.addresses, less.addresses, n.address);
    NormalizedCovers(more.identifiers, less.identifiers, n.identifier);
    FingerprintsCover(n, more.names, less.names);
    ScoreIsBounded(n, profile, less);
    ScoreIsBounded(n, profile, more);
    assert SharedAliases(n, profile, less) <= SharedAliases(n, profile, more);
    assert Clues(n, profile, less) <= Clues(n, profile, more);
  }

  lemma PersistedResembles(n: Normal, profile: Profile, known: seq<Candidate>, reread: seq<Candidate>)
    requires Resembles(n, profile, known) && Persisted(known, reread)
    ensures Resembles(n, profile, reread)
  {
    hide Score;
    var k :| 0 <= k < |known| && Score(n, profile, known[k].profile) > 0;
    var j :| 0 <= j < |reread| && Covers(reread[j].profile, known[k].profile);
    CoverKeepsMatch(n, profile, reread[j].profile, known[k].profile);
  }

  /** Objects that all resemble known targets end up pending, and nothing is created. */
  lemma {:induction false} AllPending(n: Normal, mint: string -> string, p: Progress, excluded: set<string>,
      bound: set<string>, objects: seq<Object>)
    requires forall k :: 0 <= k < |objects| && Considered(objects[k], excluded, bound) ==> Resembles(n, objects[k].profile, p.known)
    ensures var q := VisitAll(n, mint, p, excluded, bound, objects);
      q.known == p.known && q.bindings == p.bindings
  {
    hide Score, MatchTargets, Resembles;
    if objects != [] {
      AllPending(n, mint, p, excluded, bound, objects[..|objects| - 1]);
      MatchesMean(n, objects[|objects| - 1].profile, p.known);
    }
  }

  /** Once a pass is committed and its targets are known again, another pass over the same inventory creates nothing. */
  lemma RerunCreatesNothing(n: Normal, mint: string -> string, mint2: string -> string, st: State,
      known: seq<Candidate>, reread: seq<Candidate>, objects: seq<Object>)
    requires DistinctObjects(objects) && Persisted(Pass(n, mint, st, known, objects).known, reread)
    ensures var after := Refreshed(n, mint, st, known, objects);
      Pass(n, mint2, after, reread, objects).known == reread && Pass(n, mint2, after, reread, objects).bindings == after.bindings
  {
    hide Score, Resembles, VisitAll, Persisted;
    var start, p, after := Prepared(st, objects), Pass(n, mint, st, known, objects), Refreshed(n, mint, st, known, objects);
    var start2 := Prepared(after, objects);
    PassDecides(n, mint, st, known, objects);
    SameExclusions(st, objects, p);
    forall k | 0 <= k < |objects| && Considered(objects[k], Excluded(start2), after.bindings.Keys)
      ensures Resembles(n, objects[k].profile, reread)
    {
      assert Considered(objects[k], Excluded(start), st.bindings.Keys);
      PersistedResembles(n, objects[k].profile, p.known, reread);
    }
    AllPending(n, mint2, Progress(reread, after.bindings, {}), Excluded(start2), after.bindings.Keys, objects);
  }

  /** A pass changes no exclusion. */
  lemma SameExclusions(st: State, objects: seq<Object>, p: Progress)
    ensures var start := Prepared(st, objects);
      var after := MarkPending(start.(bindings := p.bindings), p.pending);
      Excluded(Prepared(after, objects)) == Excluded(start) && after.initialized
  {
  }

  // ----- The store -----

  class DiscoveryStore {
    var initialized: bool
    var inventory: map<string, Entry>
    var bindings: map<string, string>

    ghost function Current(): State
      reads this
    {
      State(initialized, inventory, bindings)
    }

    constructor ()
      ensures Current() == State(false, map[], map[])
    {
      initialized, inventory, bindings := false, map[], map[];
    }

    method Check(objects: seq<Object>) returns (ok: bool)
      ensures ok == ValidInventory(objects)
      ensures ok <==>
        && (forall k :: 0 <= k < |objects| ==>
              && !Blank(objects[k].externalId) && |objects[k].externalId| <= 512
              && !Blank(objects[k].name) && |objects[k].name| <= 160)
        && (forall k, l :: 0 <= k < l < |objects| ==> objects[k].externalId != objects[l].externalId)
    {
      var seen: set<string> := {};
      for k := 0 to |objects|
        invariant seen == ExternalIds(objects[..k]) && ValidInventory(objects[..k])
      {
        assert objects[..k + 1] == objects[..k] + [objects[k]];
        IdsSnoc(objects[..k], objects[k]);
        if !Acceptable(objects[k]) || objects[k].externalId in seen {
          InvalidPrefix(objects, k);
          return false;
        }
        seen := seen + {objects[k].externalId};
      }
      assert objects[..|objects|] == objects;
      return true;
    }

    /** The confirmed selection: an object is excluded exactly if it is eligible and was left unbound. */
    method RememberDiscoverySelection(objects: seq<Object>)
      requires DistinctObjects(objects)
      modifies this`inventory, this`initialized
      ensures Current() == Remember(old(Current()), objects) && initialized
      ensures forall k :: 0 <= k < |objects| ==> Decides(inventory, bindings, objects[k])
      ensures forall x :: x in old(inventory) && x !in ExternalIds(objects) ==> x in inventory && inventory[x] == old(inventory)[x]
      ensures forall x :: x in inventory ==> x in old(inventory) || x in ExternalIds(objects)
    {
      for k := 0 to |objects|
        invariant forall j :: 0 <= j < k ==> Decides(inventory, bindings, objects[j])
        invariant forall x :: x in old(inventory) && x !in ExternalIds(objects) ==> x in inventory && inventory[x] == old(inventory)[x]
        invariant forall x :: x in inventory ==> x in old(inventory) || x in ExternalIds(objects)
        invariant forall x :: x in old(inventory) ==> x in inventory
      {
        var o := objects[k];
        assert o.externalId in ExternalIds(objects);
        inventory := inventory[o.externalId := Entry(o.eligible && o.externalId !in bindings, false, true)];
      }
      initialized := true;
      RememberedEntries(old(Current()), objects, inventory);
    }

    method RegisterObjects(objects: seq<Object>)
      modifies this`inventory
      ensures Current() == Register(old(Current()), objects)
    {
      var ids := ExternalIds(objects);
      inventory := map x | x in inventory :: inventory[x].(present := false);
      inventory := map x | x in inventory.Keys + ids ::
        if x !in ids then inventory[x] else if x in inventory then inventory[x].(present := true) else Entry(false, false, true);
      assert inventory == Register(old(Current()), objects).inventory;
    }

    /** Visits the objects in order; the targets created on the way count for the objects that follow. */
    method Examine(n: Normal, mint: string -> string, known: seq<Candidate>, excluded: set<string>,
        bound: set<string>, objects: seq<Object>)
      returns (targets: seq<Candidate>, pending: set<string>)
      modifies this`bindings
      ensures Progress(targets, bindings, pending) ==
        VisitAll(n, mint, Progress(known, old(bindings), {}), excluded, bound, objects)
    {
      hide MatchTargets;
      targets, pending := known, {};
      for k := 0 to |objects|
        invariant Progress(targets, bindings, pending) ==
          VisitAll(n, mint, Progress(known, old(bindings), {}), excluded, bound, objects[..k])
      {
        var o := objects[k];
        assert objects[..k + 1][..k] == objects[..k] && objects[..k + 1][k] == o;
        if o.externalId !in excluded && o.externalId !in bound && o.eligible {
          var matches := FindMatches(n, o.profile, targets);
          if matches != [] {
            pending := pending + {o.externalId};
          } else {
            var target := mint(o.externalId);
            bindings := bindings[o.externalId := target];
            targets := targets + [Candidate(target, o.name, o.profile)];
          }
        }
      }
      assert objects[..|objects|] == objects;
    }

    /** One pass under the lease of a worker: returns the targets known afterwards, the new ones at the end. */
    method RefreshDiscovery(n: Normal, mint: string -> string, leaseValid: bool, known: seq<Candidate>,
        objects: seq<Object>)
      returns (r: Result<seq<Candidate>, Error>)
      modifies this
      ensures r.Err? ==> Current() == old(Current())
      ensures r.Ok? <==> leaseValid && ValidInventory(objects)
      ensures r.Ok? ==> Current() == Refreshed(n, mint, old(Current()), known, objects)
      ensures r.Ok? ==> r.value == Pass(n, mint, old(Current()), known, objects).known
    {
      hide VisitAll, ValidInventory, Remember, Register;
      var valid := Check(objects);
      if !valid {
        return Err(InvalidInventory);
      }
      if !leaseValid {
        return Err(LeaseLost);
      }
      ValidIsDistinct(objects);
      if !initialized {
        RememberDiscoverySelection(objects);
      }
      RegisterObjects(objects);
      ghost var start := Current();
      assert start == Prepared(old(Current()), objects);
      var excluded := set x | x in inventory && inventory[x].excluded;
      var bound := bindings.Keys;
      var targets, pending;
      targets, pending := Examine(n, mint, known, excluded, bound, objects);
      inventory := map x | x in inventory :: inventory[x].(pending := x in pending);
      return Ok(targets);
    }
  }

  /** The object is present, and excluded exactly if it is eligible and unbound. */
  predicate Decides(inventory: map<string, Entry>, bindings: map<string, string>, o: Object)
  {
    o.externalId in inventory && inventory[o.externalId] == Entry(o.eligible && o.externalId !in bindings, false, true)
  }

  lemma ValidIsDistinct(objects: seq<Object>)
    requires ValidInventory(objects)
    ensures DistinctObjects(objects)
  {
  }

  lemma RememberedEntries(st: State, objects: seq<Object>, inventory: map<string, Entry>)
    requires DistinctObjects(objects)
    requires forall k :: 0 <= k < |objects| ==> Decides(inventory, st.bindings, objects[k])
    requires forall x :: x in st.inventory && x !in ExternalIds(objects) ==> x in inventory && inventory[x] == st.inventory[x]
    requires forall x :: x in inventory ==> x in st.inventory || x in ExternalIds(objects)
    ensures inventory == Remember(st, objects).inventory
  {
    var remembered := Remember(st, objects).inventory;
    forall x | x in ExternalIds(objects)
      ensures x in inventory && inventory[x] == remembered[x]
    {
      var k :| 0 <= k < |objects| && objects[k].externalId == x;
      assert Decides(inventory, st.bindings, objects[k]);
      if x in EligibleIds(objects) {
        var l :| 0 <= l < |objects| && objects[l].eligible && objects[l].externalId == x;
        assert k == l;
      }
    }
  }

  lemma IdsSnoc(objects: seq<Object>, o: Object)
    ensures ExternalIds(objects + [o]) == ExternalIds(objects) + {o.externalId}
    ensures ValidInventory(objects) ==>
      (ValidInventory(objects + [o]) <==> Acceptable(o) && o.externalId !in ExternalIds(objects))
  {
    hide Acceptable;
    var longer := objects + [o];
    assert longer[|objects|] == o && forall k :: 0 <= k < |objects| ==> longer[k] == objects[k];
    forall x | x in ExternalIds(longer)
      ensures x in ExternalIds(objects) || x == o.externalId
    {
      var k :| 0 <= k < |longer| && longer[k].externalId == x;
      assert k < |objects| ==> objects[k].externalId == x;
    }
    forall x | x in ExternalIds(objects)
      ensures x in ExternalIds(longer)
    {
      var k :| 0 <= k < |objects| && objects[k].externalId == x;
      assert longer[k].externalId == x;
    }
    if o.externalId in ExternalIds(objects) {
      var k :| 0 <= k < |objects| && objects[k].externalId == o.externalId;
      assert longer[k].externalId == longer[|objects|].externalId;
    }
  }

  lemma InvalidPrefix(objects: seq<Object>, k: nat)
    requires k < |objects| && !ValidInventory(objects[..k + 1])
    ensures !ValidInventory(objects)
  {
    hide Acceptable;
    var prefix := objects[..k + 1];
    assert forall i :: 0 <= i < |prefix| ==> prefix[i] == objects[i];
  }
}
