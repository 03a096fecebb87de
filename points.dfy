/**
 * Integer lattice points and the de-duplicating sort that `np.unique(u, axis=0)`
 * applies to the rows of a point array: the result holds every distinct row once,
 * in lexicographic order (x first, then y, then z).
 */
module Points {

  datatype Point = Point(x: int, y: int, z: int)

  /** Lexicographic order on rows, the order numpy sorts rows in. */
  predicate Less(p: Point, q: Point) {
    p.x < q.x || (p.x == q.x && (p.y < q.y || (p.y == q.y && p.z < q.z)))
  }

  predicate StrictlySorted(s: seq<Point>) {
    forall i, j :: 0 <= i < j < |s| ==> Less(s[i], s[j])
  }

  function Elements(s: seq<Point>): set<Point> {
    set p | p in s
  }

  /** Inserts `p` into a strictly sorted sequence unless it is already there. */
  function Insert(s: seq<Point>, p: Point): (r: seq<Point>)
    requires StrictlySorted(s)
    ensures StrictlySorted(r)
    ensures forall q :: q in r <==> q == p || q in s
    ensures |s| <= |r| <= |s| + 1
  {
    if s == [] then [p]
    else if Less(p, s[0]) then [p] + s
    else if p == s[0] then s
    else
      var t := Insert(s[1..], p);
      assert forall q :: q in t ==> Less(s[0], q);
      [s[0]] + t
  }

  /** The rows of `u`, each distinct row once, in lexicographic order. */
  function Unique(u: seq<Point>): (r: seq<Point>)
    ensures StrictlySorted(r)
    ensures forall q :: q in r <==> q in u
    ensures |r| <= |u|
  {
    if u == [] then [] else Insert(Unique(u[1..]), u[0])
  }

  /** A strictly sorted sequence is determined by its elements: `Unique` is the only possible answer. */
  lemma {:induction false} SortedDeterminedByElements(s: seq<Point>, t: seq<Point>)
    requires StrictlySorted(s) && StrictlySorted(t)
    requires forall q :: q in s <==> q in t
    ensures s == t
  {
    SortedCard(s);
    SortedCard(t);
    assert Elements(s) == Elements(t);
    if s != [] {
      assert t[0] in s && s[0] in t;
      assert s[0] == t[0];
      forall q ensures q in s[1..] <==> q in t[1..] {
        if q in s[1..] {
          var k :| 1 <= k < |s| && s[k] == q;
          assert Less(s[0], q);
          assert q in t && q != t[0];
        }
        if q in t[1..] {
          var k :| 1 <= k < |t| && t[k] == q;
          assert Less(t[0], q);
          assert q in s && q != s[0];
        }
      }
      SortedDeterminedByElements(s[1..], t[1..]);
    }
  }

  /** A strictly sorted sequence has no repeated element, so it has as many elements as its length. */
  lemma {:induction false} SortedCard(s: seq<Point>)
    requires StrictlySorted(s)
    ensures |Elements(s)| == |s|
  {
    if s != [] {
      SortedCard(s[1..]);
      assert Elements(s) == Elements(s[1..]) + {s[0]};
      assert s[0] !in Elements(s[1..]);
    }
  }

  lemma {:induction false} SubsetCard<T>(a: set<T>, b: set<T>)
    requires a <= b
    ensures |a| <= |b|
  {
    if a != {} {
      var x :| x in a;
      SubsetCard(a - {x}, b - {x});
    }
  }
}
