/**
 * Deduplication of vertices by position, stated on sequences: the worker's
 * vertex list is the sequence of distinct positions in the order in which
 * each was first seen.
 */
module VertexDedup {
  import opened LodTypes

  /** The distinct elements of `s`, in order of first occurrence. */
  function Dedup<T(==)>(s: seq<T>): seq<T>
  {
    if s == [] then []
    else
      var init := s[..|s| - 1];
      if s[|s| - 1] in init then Dedup(init) else Dedup(init) + [s[|s| - 1]]
  }

  /** The set of elements of `s`. */
  function Elems<T>(s: seq<T>): set<T>
  {
    set x | x in s
  }

  /** How many times `x` occurs in `s`. */
  function Occurrences<T(==)>(s: seq<T>, x: T): nat
  {
    if s == [] then 0
    else Occurrences(s[..|s| - 1], x) + (if s[|s| - 1] == x then 1 else 0)
  }

  /** Seeing one more element adds one occurrence of it and of nothing else. */
  lemma OccurrencesStep<T>(s: seq<T>, x: T, y: T)
    ensures Occurrences(s + [x], y) == Occurrences(s, y) + (if x == y then 1 else 0)
  {
    assert (s + [x])[..|s|] == s;
  }

  /** An element occurs in `s` exactly when its count is positive. */
  lemma {:induction false} OccurrencesPositive<T>(s: seq<T>, x: T)
    ensures x in s <==> Occurrences(s, x) > 0
  {
    if s != [] {
      var init := s[..|s| - 1];
      OccurrencesPositive(init, x);
      assert s == init + [s[|s| - 1]];
    }
  }

  /** The count is the multiplicity of `x` in the multiset of `s`. */
  lemma {:induction false} OccurrencesMultiset<T>(s: seq<T>, x: T)
    ensures Occurrences(s, x) == multiset(s)[x]
  {
    if s != [] {
      var init := s[..|s| - 1];
      OccurrencesMultiset(init, x);
      assert s == init + [s[|s| - 1]];
    }
  }

  /** Seeing one more element: a known one changes nothing, a new one is appended. */
  lemma DedupStep<T>(s: seq<T>, x: T)
    ensures Dedup(s + [x]) == if x in s then Dedup(s) else Dedup(s) + [x]
  {
    assert (s + [x])[..|s + [x]| - 1] == s;
  }

  lemma {:induction false} DedupElems<T>(s: seq<T>)
    ensures forall x :: x in Dedup(s) <==> x in s
  {
    if s != [] {
      var init := s[..|s| - 1];
      DedupElems(init);
      assert s == init + [s[|s| - 1]];
    }
  }

  /** No element occurs twice in `Dedup(s)`. */
  lemma {:induction false} DedupDistinct<T>(s: seq<T>)
    ensures forall i, j :: 0 <= i < j < |Dedup(s)| ==> Dedup(s)[i] != Dedup(s)[j]
  {
    if s != [] {
      var init := s[..|s| - 1];
      DedupDistinct(init);
      DedupElems(init);
    }
  }

  /** `Dedup(s)` has one entry per distinct element of `s`. */
  lemma {:induction false} DedupCardinality<T>(s: seq<T>)
    ensures |Dedup(s)| == |Elems(s)|
  {
    if s != [] {
      var init := s[..|s| - 1];
      var x := s[|s| - 1];
      DedupCardinality(init);
      assert s == init + [x];
      assert Elems(s) == Elems(init) + {x};
      if x !in init {
        assert x !in Elems(init);
      } else {
        assert Elems(s) == Elems(init);
      }
    }
  }

  /** Ingesting `b` after `a` adds exactly the elements of `b` not already in `a`. */
  lemma DedupGrowth<T>(a: seq<T>, b: seq<T>)
    ensures |Dedup(a + b)| == |Dedup(a)| + |Elems(b) - Elems(a)|
  {
    DedupCardinality(a + b);
    DedupCardinality(a);
    assert Elems(a + b) == Elems(a) + (Elems(b) - Elems(a));
  }

  lemma {:induction false} DedupLength<T>(s: seq<T>)
    ensures |Dedup(s)| <= |s|
  {
    if s != [] {
      DedupLength(s[..|s| - 1]);
    }
  }

  /** Any number of copies of one element collapse to that single element. */
  lemma {:induction false} DedupSameElement<T>(s: seq<T>, x: T)
    requires |s| >= 1
    requires forall i :: 0 <= i < |s| ==> s[i] == x
    ensures Dedup(s) == [x]
    ensures Occurrences(s, x) == |s|
  {
    var init := s[..|s| - 1];
    assert s == init + [x];
    if |s| > 1 {
      DedupSameElement(init, x);
      assert x in init;
    } else {
      assert init == [];
    }
  }

  /** The first index of `vs` whose vertex has position `x`, or `|vs|` when there is none. */
  function FindVertex(vs: seq<Vertex>, x: Position): (r: nat)
    ensures r <= |vs|
    ensures r < |vs| ==> vs[r].position == x
    ensures forall j :: 0 <= j < r ==> vs[j].position != x
  {
    if vs == [] then 0
    else if vs[0].position == x then 0
    else 1 + FindVertex(vs[1..], x)
  }

  /**
   * The vertex list after ingesting the positions `s` one by one: a new
   * position is appended as a non-seam vertex, a known one marks the vertex
   * already holding it as a seam.
   */
  function DedupVertices(s: seq<Position>): seq<Vertex>
  {
    if s == [] then []
    else
      var vs := DedupVertices(s[..|s| - 1]);
      var x := s[|s| - 1];
      var i := FindVertex(vs, x);
      if i < |vs| then vs[i := vs[i].(seam := true)] else vs + [Vertex(x, false)]
  }

  /**
   * The ingested vertex list holds every distinct position once, in order of
   * first occurrence, and flags as seams exactly the positions seen more than once.
   */
  lemma {:induction false} DedupVerticesSpec(s: seq<Position>)
    ensures |DedupVertices(s)| == |Dedup(s)|
    ensures forall i :: 0 <= i < |Dedup(s)| ==> DedupVertices(s)[i].position == Dedup(s)[i]
    ensures forall i :: 0 <= i < |Dedup(s)| ==> DedupVertices(s)[i].seam == (Occurrences(s, Dedup(s)[i]) >= 2)
  {
    if s != [] {
      var init := s[..|s| - 1];
      var x := s[|s| - 1];
      assert s == init + [x];
      DedupVerticesSpec(init);
      DedupElems(init);
      DedupDistinct(init);
      DedupStep(init, x);
      forall y {
        OccurrencesStep(init, x, y);
      }
      var vs := DedupVertices(init);
      var i := FindVertex(vs, x);
      if i < |vs| {
        OccurrencesPositive(init, x);
        forall j | 0 <= j < |Dedup(s)|
          ensures DedupVertices(s)[j].seam == (Occurrences(s, Dedup(s)[j]) >= 2)
        {
          if j != i {
            assert Dedup(init)[j] != Dedup(init)[i];
          }
        }
      } else {
        assert x !in Dedup(init);
        OccurrencesPositive(init, x);
      }
    }
  }

  /** The vertex list never holds more vertices than positions were ingested. */
  lemma {:induction false} DedupVerticesLength(s: seq<Position>)
    ensures |DedupVertices(s)| <= |s|
  {
    if s != [] {
      DedupVerticesLength(s[..|s| - 1]);
    }
  }
}
