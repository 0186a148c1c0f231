/** Datatypes and selection helpers shared by every module. */
module Common {

  datatype Option<+T> = None | Some(value: T)

  datatype Result<+T, +E> = Ok(value: T) | Err(error: E)

  /** The white space that trimming removes. */
  predicate IsSpace(c: char)
  {
    c in {'\t', '\n', '\r', ' ', '\U{0B}', '\U{0C}', '\U{85}', '\U{A0}', '\U{1680}', '\U{2028}', '\U{2029}',
      '\U{202F}', '\U{205F}', '\U{3000}'} || '\U{2000}' <= c <= '\U{200A}'
  }

  /** True of the strings that trimming leaves empty. */
  predicate Blank(s: string)
  {
    forall k :: 0 <= k < |s| ==> IsSpace(s[k])
  }

  /** Byte-wise string order. */
  predicate Less(a: string, b: string)
    decreases |a|
  {
    |b| > 0 && (|a| == 0 || a[0] < b[0] || (a[0] == b[0] && Less(a[1..], b[1..])))
  }

  lemma {:induction false} LessAsymmetric(a: string, b: string)
    requires Less(a, b)
    ensures !Less(b, a)
    decreases |a|
  {
    if |a| > 0 && a[0] == b[0] {
      LessAsymmetric(a[1..], b[1..]);
    }
  }

  lemma {:induction false} LessTotal(a: string, b: string)
    ensures a == b || Less(a, b) || Less(b, a)
    decreases |a|
  {
    if |a| > 0 && |b| > 0 && a[0] == b[0] {
      LessTotal(a[1..], b[1..]);
      assert a == [a[0]] + a[1..] && b == [b[0]] + b[1..];
    }
  }

  lemma {:induction false} LessTransitive(a: string, b: string, c: string)
    requires Less(a, b) && Less(b, c)
    ensures Less(a, c)
    decreases |a|
  {
    if |a| > 0 && a[0] == b[0] && b[0] == c[0] {
      LessTransitive(a[1..], b[1..], c[1..]);
    }
  }

  /** Not being before is transitive too: equal strings are the only ties. */
  lemma NotLessTransitive(a: string, b: string, c: string)
    requires !Less(b, a) && !Less(c, b)
    ensures !Less(c, a)
  {
    LessTotal(a, b);
    LessTotal(b, c);
    if a != b && b != c {
      LessTransitive(a, b, c);
    }
    if Less(c, a) {
      LessAsymmetric(c, a);
    }
  }

  /** `x` is the row a query ordered by ascending rank returns first; equal ranks go to the smallest id. */
  predicate First(ranks: map<nat, int>, x: nat)
  {
    x in ranks && forall y :: y in ranks ==> ranks[x] < ranks[y] || (ranks[x] == ranks[y] && x <= y)
  }

  lemma FirstExists(ranks: map<nat, int>)
    requires ranks != map[]
    ensures exists x :: First(ranks, x)
  {
    var k :| k in ranks;
    var rest := ranks - {k};
    assert ranks == rest[k := ranks[k]];
    if rest == map[] {
      assert First(ranks, k);
    } else {
      FirstExists(rest);
      var x :| First(rest, x);
      if ranks[x] < ranks[k] || (ranks[x] == ranks[k] && x <= k) {
        assert First(ranks, x);
      } else {
        assert forall y :: y in ranks ==> y == k || y in rest;
        assert First(ranks, k);
      }
    }
  }

  lemma FirstUnique(ranks: map<nat, int>, x: nat, y: nat)
    requires First(ranks, x) && First(ranks, y)
    ensures x == y
  {
  }

  /** What `SELECT ... ORDER BY rank LIMIT 1` returns. */
  ghost function PickFirst(ranks: map<nat, int>): (r: Option<nat>)
    ensures r.None? <==> ranks == map[]
    ensures r.Some? ==> First(ranks, r.value)
  {
    if ranks == map[] then None
    else
      FirstExists(ranks);
      var x :| First(ranks, x);
      Some(x)
  }

  /** The row a query ordered by ascending rank returns first. */
  method SelectFirst(ranks: map<nat, int>) returns (r: Option<nat>)
    ensures r == PickFirst(ranks)
  {
    if ranks == map[] {
      r := None;
    } else {
      FirstExists(ranks);
      var x :| x in ranks && First(ranks, x);
      FirstUnique(ranks, x, PickFirst(ranks).value);
      r := Some(x);
    }
  }
}
