/** Keyset pagination over resolved incidents. */
module ResolvedPages {
  import opened Common

  type Id = nat
  type Time = int

  datatype Row = Row(resolvedAt: Option<Time>, createdAt: Time, nature: string, severity: string, targets: set<string>)

  type Table = map<Id, Row>

  datatype Filter = Filter(target: string, nature: string, severity: string, query: string, from: Option<Time>, before: Option<Time>)

  /** A cursor as the client carries it, bound to the filters and the snapshot of the first page. */
  datatype Cursor = Cursor(version: int, fingerprint: string, snapshot: Time, at: Time, id: Id)

  datatype Options = Options(limit: int, filter: Filter, cursor: Option<Cursor>)

  datatype Page = Page(items: seq<Id>, next: Option<Cursor>)

  datatype Error = InvalidInput

  /** What is not part of this model: the text search, the fingerprint of filters, the syntax of target ids. */
  datatype Outside = Outside(says: (Id, string) -> bool, fingerprint: Filter -> string, isUuid: string -> bool)

  // ----- Reading the cursor -----

  predicate ValidFilter(x: Outside, f: Filter)
  {
    && (f.target == "" || x.isUuid(f.target))
    && f.severity in {"", "critical", "major", "warning", "information"}
    && |f.query| <= 200 && |f.nature| <= 500
    && (f.from.Some? && f.before.Some? ==> f.from.value < f.before.value)
  }

  predicate ValidCursor(x: Outside, f: Filter, c: Cursor)
  {
    c.version == 1 && c.fingerprint == x.fingerprint(f) && c.at <= c.snapshot
  }

  predicate ValidOptions(x: Outside, o: Options)
  {
    1 <= o.limit <= 500 && ValidFilter(x, o.filter) && (o.cursor.Some? ==> ValidCursor(x, o.filter, o.cursor.value))
  }

  function SnapshotOf(o: Options, now: Time): Time
  {
    if o.cursor.Some? then o.cursor.value.snapshot else now
  }

  // ----- The rows of a page -----

  predicate Passes(x: Outside, id: Id, row: Row, f: Filter, snapshot: Time)
  {
    && row.resolvedAt.Some? && row.resolvedAt.value <= snapshot && row.createdAt <= snapshot
    && (f.from.Some? ==> row.resolvedAt.value >= f.from.value) && (f.before.Some? ==> row.resolvedAt.value < f.before.value)
    && (f.target == "" || f.target in row.targets) && (f.nature == "" || row.nature == f.nature)
    && (f.severity == "" || row.severity == f.severity) && (f.query == "" || x.says(id, f.query))
  }

  function Matching(x: Outside, rows: Table, f: Filter, snapshot: Time): set<Id>
  {
    set i | i in rows && Passes(x, i, rows[i], f, snapshot)
  }

  function When(rows: Table, i: Id): Time
  {
    if i in rows && rows[i].resolvedAt.Some? then rows[i].resolvedAt.value else 0
  }

  /** Position `(at, id)` comes before incident `i`: it resolved later, or at the same time with a greater id. */
  predicate Precedes(rows: Table, at: Time, id: Id, i: Id)
  {
    When(rows, i) < at || (When(rows, i) == at && i < id)
  }

  function Below(rows: Table, ids: set<Id>, at: Time, id: Id): set<Id>
  {
    set i | i in ids && Precedes(rows, at, id, i)
  }

  /** What is left to list. */
  function Remaining(x: Outside, rows: Table, o: Options, now: Time): set<Id>
  {
    var all := Matching(x, rows, o.filter, SnapshotOf(o, now));
    if o.cursor.Some? then Below(rows, all, o.cursor.value.at, o.cursor.value.id) else all
  }

  // ----- The order of presentation -----

  predicate Latest(rows: Table, ids: set<Id>, i: Id)
  {
    i in ids && forall j :: j in ids && j != i ==> Precedes(rows, When(rows, i), i, j)
  }

  lemma LatestExists(rows: Table, ids: set<Id>)
    requires ids != {}
    ensures exists i :: Latest(rows, ids, i)
  {
    var k :| k in ids;
    var rest := ids - {k};
    if rest == {} {
      assert ids == {k};
      assert Latest(rows, ids, k);
    } else {
      LatestExists(rows, rest);
      var i :| Latest(rows, rest, i);
      if Precedes(rows, When(rows, i), i, k) {
        assert Latest(rows, ids, i);
      } else {
        forall j | j in ids && j != k
          ensures Precedes(rows, When(rows, k), k, j)
        {
          assert j == i || Precedes(rows, When(rows, i), i, j);
        }
        assert Latest(rows, ids, k);
      }
    }
  }

  /** The incidents in descending order of resolution, then id. */
  ghost function Listing(rows: Table, ids: set<Id>): seq<Id>
    decreases |ids|
  {
    if ids == {} then []
    else
      LatestExists(rows, ids);
      var i :| Latest(rows, ids, i);
      [i] + Listing(rows, ids - {i})
  }

  predicate Descending(rows: Table, s: seq<Id>)
  {
    forall k, l :: 0 <= k < l < |s| ==> Precedes(rows, When(rows, s[k]), s[k], s[l])
  }

  /** Each incident exactly once, in descending order. */
  lemma {:induction false} ListingIsExact(rows: Table, ids: set<Id>)
    ensures |Listing(rows, ids)| == |ids| && Descending(rows, Listing(rows, ids))
    ensures forall i :: i in Listing(rows, ids) <==> i in ids
    decreases |ids|
  {
    if ids != {} {
      var s := Listing(rows, ids);
      ListingHead(rows, ids);
      ListingIsExact(rows, ids - {s[0]});
      ExactCons(rows, ids, s);
    }
  }

  lemma ExactCons(rows: Table, ids: set<Id>, s: seq<Id>)
    requires s != [] && Latest(rows, ids, s[0]) && Descending(rows, s[1..]) && |s[1..]| == |ids - {s[0]}|
    requires forall i :: i in s[1..] <==> i in ids - {s[0]}
    ensures |s| == |ids| && Descending(rows, s) && forall i :: i in s <==> i in ids
  {
    hide Precedes;
    var rest := s[1..];
    assert s == [s[0]] + rest;
    forall k, l | 0 <= k < l < |s|
      ensures Precedes(rows, When(rows, s[k]), s[k], s[l])
    {
      assert s[l] == rest[l - 1] && rest[l - 1] in rest;
      if k > 0 {
        assert s[k] == rest[k - 1];
      }
    }
  }

  lemma LatestUnique(rows: Table, ids: set<Id>, i: Id, j: Id)
    requires Latest(rows, ids, i) && Latest(rows, ids, j)
    ensures i == j
  {
  }

  lemma ListingHead(rows: Table, ids: set<Id>)
    requires ids != {}
    ensures var s := Listing(rows, ids); s != [] && Latest(rows, ids, s[0]) && s[1..] == Listing(rows, ids - {s[0]})
  {
  }

  lemma BelowLatest(rows: Table, ids: set<Id>, i: Id)
    requires Latest(rows, ids, i)
    ensures Below(rows, ids, When(rows, i), i) == ids - {i}
  {
  }

  lemma BelowSmaller(rows: Table, ids: set<Id>, i: Id, last: Id)
    requires Latest(rows, ids, i) && last in ids && last != i
    ensures Below(rows, ids, When(rows, last), last) == Below(rows, ids - {i}, When(rows, last), last)
  {
    assert Precedes(rows, When(rows, i), i, last);
  }

  /** What comes after the first `n` incidents is what lies below the `n`th. */
  lemma {:induction false} BelowIsRest(rows: Table, ids: set<Id>, n: nat)
    requires 0 < n <= |Listing(rows, ids)|
    ensures var last := Listing(rows, ids)[n - 1];
      Listing(rows, Below(rows, ids, When(rows, last), last)) == Listing(rows, ids)[n..]
    decreases n
  {
    hide Listing, Latest, Precedes, Below;
    if ids == {} {
      ListingIsExact(rows, ids);
    }
    var s := Listing(rows, ids);
    ListingHead(rows, ids);
    var first, last, rest := s[0], s[n - 1], ids - {s[0]};
    if n == 1 {
      BelowLatest(rows, ids, first);
    } else {
      BelowIsRest(rows, rest, n - 1);
      assert last == s[1..][n - 2] && s[n..] == s[1..][n - 1..];
      ListingIsExact(rows, rest);
      assert last in s[1..];
      BelowSmaller(rows, ids, first, last);
    }
  }

  // ----- One page -----

  ghost function PageOf(x: Outside, rows: Table, o: Options, now: Time): Result<Page, Error>
  {
    if !ValidOptions(x, o) then Err(InvalidInput)
    else
      var s := Listing(rows, Remaining(x, rows, o, now));
      if |s| <= o.limit then Ok(Page(s, None))
      else Ok(Page(s[..o.limit], Some(Cursor(1, x.fingerprint(o.filter), SnapshotOf(o, now), When(rows, s[o.limit - 1]), s[o.limit - 1]))))
  }

  /** The cursor a page hands out is accepted with the same filters, whatever the next page size and the clock. */
  lemma EmittedCursorIsAccepted(x: Outside, rows: Table, o: Options, now: Time, limit: int, later: Time)
    requires PageOf(x, rows, o, now).Ok? && PageOf(x, rows, o, now).value.next.Some? && 1 <= limit <= 500
    ensures PageOf(x, rows, Options(limit, o.filter, PageOf(x, rows, o, now).value.next), later).Ok?
  {
    var s := Listing(rows, Remaining(x, rows, o, now));
    ListingIsExact(rows, Remaining(x, rows, o, now));
    assert s[o.limit - 1] in s;
  }

  /** With other filters it is refused, unless their fingerprints coincide. */
  lemma ChangedFilterIsRefused(x: Outside, rows: Table, o: Options, now: Time, f: Filter, limit: int, later: Time)
    requires PageOf(x, rows, o, now).Ok? && PageOf(x, rows, o, now).value.next.Some? && x.fingerprint(f) != x.fingerprint(o.filter)
    ensures PageOf(x, rows, Options(limit, f, PageOf(x, rows, o, now).value.next), later) == Err(InvalidInput)
  {
    ListingIsExact(rows, Remaining(x, rows, o, now));
  }

  /** A page is the head of what remains, and its cursor leaves exactly the rest. */
  lemma PageAdvances(x: Outside, rows: Table, o: Options, now: Time, limit: int, later: Time)
    requires PageOf(x, rows, o, now).Ok?
    ensures var s, page := Listing(rows, Remaining(x, rows, o, now)), PageOf(x, rows, o, now).value;
      && (page.next.None? <==> |s| <= o.limit) && (page.next.None? ==> page.items == s)
      && (page.next.Some? ==> page.items == s[..o.limit])
      && (page.next.Some? ==> Listing(rows, Remaining(x, rows, Options(limit, o.filter, page.next), later)) == s[o.limit..])
  {
    var ids := Remaining(x, rows, o, now);
    var s, page := Listing(rows, ids), PageOf(x, rows, o, now).value;
    if page.next.Some? {
      var last, all := s[o.limit - 1], Matching(x, rows, o.filter, SnapshotOf(o, now));
      BelowIsRest(rows, ids, o.limit);
      if o.cursor.Some? {
        ListingIsExact(rows, ids);
        assert last in s;
        assert Below(rows, ids, When(rows, last), last) == Below(rows, all, When(rows, last), last);
      }
    }
  }

  // ----- Following the cursors -----

  /** A request for a page: its size, and the clock when it is served. */
  datatype Request = Request(limit: int, now: Time)

  /** The incidents listed by a series of requests, each with the cursor of the one before, until there is none. */
  ghost function Walk(x: Outside, rows: Table, f: Filter, cursor: Option<Cursor>, requests: seq<Request>): seq<Id>
    decreases |requests|
  {
    if requests == [] then []
    else
      match PageOf(x, rows, Options(requests[0].limit, f, cursor), requests[0].now)
      case Err(_) => []
      case Ok(page) => page.items + if page.next.None? then [] else Walk(x, rows, f, page.next, requests[1..])
  }

  function Sum(requests: seq<Request>): int
  {
    if requests == [] then 0 else requests[0].limit + Sum(requests[1..])
  }

  predicate Sizes(requests: seq<Request>)
  {
    forall k :: 0 <= k < |requests| ==> 1 <= requests[k].limit <= 500
  }

  /** `now` is the clock of the first request. */
  lemma {:induction false} WalkListsTheRest(x: Outside, rows: Table, f: Filter, cursor: Option<Cursor>,
      requests: seq<Request>, now: Time)
    requires Sizes(requests) && ValidFilter(x, f) && (cursor.Some? ==> ValidCursor(x, f, cursor.value))
    requires requests != [] && cursor.None? ==> requests[0].now == now
    ensures Sum(requests) >= 0
    ensures var s := Listing(rows, Remaining(x, rows, Options(1, f, cursor), now));
      Walk(x, rows, f, cursor, requests) == if Sum(requests) < |s| then s[..Sum(requests)] else s
    decreases |requests|
  {
    if requests != [] {
      var o, first, rest := Options(requests[0].limit, f, cursor), requests[0], requests[1..];
      assert Remaining(x, rows, o, first.now) == Remaining(x, rows, Options(1, f, cursor), now);
      var s, page := Listing(rows, Remaining(x, rows, o, first.now)), PageOf(x, rows, o, first.now).value;
      PageAdvances(x, rows, o, first.now, 1, now);
      RestSizes(requests);
      if page.next.Some? {
        EmittedCursorIsAccepted(x, rows, o, first.now, 1, now);
        WalkListsTheRest(x, rows, f, page.next, rest, now);
        Split(s, first.limit, Sum(rest));
      } else {
        SumIsPositive(rest);
      }
    }
  }

  lemma RestSizes(requests: seq<Request>)
    requires Sizes(requests) && requests != []
    ensures Sizes(requests[1..]) && 1 <= requests[0].limit
  {
    assert forall k :: 0 <= k < |requests[1..]| ==> requests[1..][k] == requests[k + 1];
  }

  lemma {:induction false} SumIsPositive(requests: seq<Request>)
    requires Sizes(requests)
    ensures Sum(requests) >= 0
    decreases |requests|
  {
    if requests != [] {
      RestSizes(requests);
      SumIsPositive(requests[1..]);
    }
  }

  lemma Split(s: seq<Id>, a: nat, b: nat)
    requires a <= |s|
    ensures s[..a] + (if b < |s[a..]| then s[a..][..b] else s[a..]) == if a + b < |s| then s[..a + b] else s
  {
  }

  /** `ids` are the incidents resolved by the snapshot that every part of the filter lets through. */
  ghost predicate Selected(x: Outside, rows: Table, f: Filter, snapshot: Time, ids: set<Id>)
  {
    forall i :: i in ids <==>
      && i in rows && rows[i].resolvedAt.Some?
      && var at := rows[i].resolvedAt.value;
      && at <= snapshot && rows[i].createdAt <= snapshot
      && (f.from == None || f.from.value <= at) && (f.before == None || at < f.before.value)
      && (f.target == "" || f.target in rows[i].targets) && f.nature in {"", rows[i].nature}
      && f.severity in {"", rows[i].severity} && (f.query == "" || x.says(i, f.query))
  }

  /**
   * For unchanged data, any page sizes and any clock from then on, following the cursors lists the incidents that were
   * resolved at the first request and that the filter selects: each exactly once, the last resolved first, the greatest id
   * first among those resolved together, and all of them once the sizes add up to their number.
   */
  lemma WalkListsEverything(x: Outside, rows: Table, f: Filter, requests: seq<Request>, ids: set<Id>)
    requires requests != [] && Sizes(requests) && ValidFilter(x, f)
    requires Selected(x, rows, f, requests[0].now, ids) && Sum(requests) >= |ids|
    ensures var listed := Walk(x, rows, f, None, requests);
      && |listed| == |ids| && (forall i :: i in listed <==> i in ids)
      && forall k, l :: 0 <= k < l < |listed| ==>
        && listed[k] in rows && rows[listed[k]].resolvedAt.Some? && listed[l] in rows && rows[listed[l]].resolvedAt.Some?
        && var later, earlier := rows[listed[k]].resolvedAt.value, rows[listed[l]].resolvedAt.value;
        later > earlier || (later == earlier && listed[k] > listed[l])
  {
    var now := requests[0].now;
    assert forall i :: i in ids <==> i in Matching(x, rows, f, now);
    assert ids == Matching(x, rows, f, now);
    WalkListsTheRest(x, rows, f, None, requests, now);
    ListingIsExact(rows, ids);
    var listed := Walk(x, rows, f, None, requests);
    forall k, l | 0 <= k < l < |listed|
      ensures listed[k] in ids && listed[l] in ids && Precedes(rows, When(rows, listed[k]), listed[k], listed[l])
    {
    }
  }

  // ----- The store -----

  /** Reads one row more than asked for, to know whether a page follows. */
  method Read(rows: Table, ids: set<Id>, count: nat) returns (items: seq<Id>)
    ensures var s := Listing(rows, ids); items == if count < |s| then s[..count] else s
  {
    var left := ids;
    items := [];
    hide Listing, Descending, Precedes;
    while left != {} && |items| < count
      invariant items + Listing(rows, left) == Listing(rows, ids) && |items| <= count
      decreases |left|
    {
      LatestExists(rows, left);
      var i :| i in left && Latest(rows, left, i);
      ListingHead(rows, left);
      LatestUnique(rows, left, i, Listing(rows, left)[0]);
      Shifted(items, Listing(rows, left));
      items, left := items + [i], left - {i};
    }
    ListingIsExact(rows, left);
    assert Listing(rows, ids)[..|items|] == items;
  }

  lemma Shifted(items: seq<Id>, s: seq<Id>)
    requires s != []
    ensures items + s == (items + [s[0]]) + s[1..]
  {
  }

  method ListResolvedPage(x: Outside, rows: Table, o: Options, now: Time) returns (r: Result<Page, Error>)
    ensures r == PageOf(x, rows, o, now)
    ensures r.Ok? <==>
      && 1 <= o.limit <= 500 && |o.filter.query| <= 200 && |o.filter.nature| <= 500
      && o.filter.severity in {"", "critical", "major", "warning", "information"}
      && (o.filter.target == "" || x.isUuid(o.filter.target))
      && (o.filter.from.None? || o.filter.before.None? || o.filter.from.value < o.filter.before.value)
      && (o.cursor.None? || (o.cursor.value.version == 1 && o.cursor.value.fingerprint == x.fingerprint(o.filter) &&
            o.cursor.value.at <= o.cursor.value.snapshot))
  {
    if !ValidOptions(x, o) {
      return Err(InvalidInput);
    }
    var snapshot := if o.cursor.Some? then o.cursor.value.snapshot else now;
    var ids := set i | i in rows && Passes(x, i, rows[i], o.filter, snapshot) &&
      (o.cursor.Some? ==> Precedes(rows, o.cursor.value.at, o.cursor.value.id, i));
    assert ids == Remaining(x, rows, o, now);
    var items := Read(rows, ids, o.limit + 1);
    if |items| <= o.limit {
      return Ok(Page(items, None));
    }
    assert items[..o.limit] == Listing(rows, ids)[..o.limit];
    items := items[..o.limit];
    var last := items[o.limit - 1];
    return Ok(Page(items, Some(Cursor(1, x.fingerprint(o.filter), snapshot, When(rows, last), last))));
  }
}
