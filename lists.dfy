/** Order-preserving list vocabulary shared by the merge, composition and
    collection code: element sets, duplicate-freedom, first-occurrence
    deduplication and filtering against a set. */
module Lists {

  function Elems<T>(s: seq<T>): set<T>
  {
    set x | x in s
  }

  predicate NoDup<T(==)>(s: seq<T>)
  {
    forall i, j :: 0 <= i < j < |s| ==> s[i] != s[j]
  }

  /** `s` with every element after its first occurrence removed; the reference
      meaning of "append unless already present". */
  function Dedup<T(==)>(s: seq<T>): (r: seq<T>)
    ensures NoDup(r)
    ensures Elems(r) == Elems(s)
    ensures |r| <= |s|
  {
    if s == [] then []
    else
      var d := Dedup(s[..|s| - 1]);
      var x := s[|s| - 1];
      assert Elems(s) == Elems(s[..|s| - 1]) + {x} by {
        assert s == s[..|s| - 1] + [x];
      }
      if x in d then d else d + [x]
  }

  /** Deduplication keeps exactly the elements. */
  lemma DedupMembers<T>(s: seq<T>)
    ensures forall x :: x in Dedup(s) <==> x in s
  {
    assert forall x :: x in Dedup(s) <==> x in Elems(Dedup(s));
  }

  /** Dedup of a sequence extended by one element. */
  lemma {:induction false} DedupSnoc<T>(s: seq<T>, x: T)
    ensures Dedup(s + [x]) == if x in s then Dedup(s) else Dedup(s) + [x]
  {
    assert (s + [x])[..|s + [x]| - 1] == s;
    assert x in Elems(Dedup(s)) <==> x in Elems(s);
  }

  /** A duplicate-free sequence is its own Dedup. */
  lemma {:induction false} DedupOfNoDup<T>(s: seq<T>)
    requires NoDup(s)
    ensures Dedup(s) == s
  {
    if s != [] {
      var p := s[..|s| - 1];
      DedupOfNoDup(p);
      assert s[|s| - 1] !in p;
      assert p + [s[|s| - 1]] == s;
    }
  }

  /** The elements of `s` not in `excluded`, in order, repeats kept. */
  function Without<T(==)>(s: seq<T>, excluded: set<T>): (r: seq<T>)
    ensures Elems(r) == Elems(s) - excluded
    ensures |r| <= |s|
  {
    if s == [] then []
    else
      var x := s[|s| - 1];
      assert Elems(s) == Elems(s[..|s| - 1]) + {x} by {
        assert s == s[..|s| - 1] + [x];
      }
      var w := Without(s[..|s| - 1], excluded);
      var tail := if x in excluded then [] else [x];
      assert Elems(w + tail) == Elems(w) + Elems(tail);
      w + tail
  }

  lemma {:induction false} WithoutSnoc<T>(s: seq<T>, x: T, excluded: set<T>)
    ensures Without(s + [x], excluded) == Without(s, excluded) + (if x in excluded then [] else [x])
  {
    assert (s + [x])[..|s + [x]| - 1] == s;
  }

  /** Filtering a duplicate-free sequence leaves it duplicate-free. */
  lemma {:induction false} WithoutNoDup<T>(s: seq<T>, excluded: set<T>)
    requires NoDup(s)
    ensures NoDup(Without(s, excluded))
  {
    if s != [] {
      var p := s[..|s| - 1];
      var x := s[|s| - 1];
      WithoutNoDup(p, excluded);
      assert x !in Elems(p);
      assert x !in Elems(Without(p, excluded));
    }
  }

  /** Filtering against the empty set changes nothing. */
  lemma {:induction false} WithoutNothing<T>(s: seq<T>)
    ensures Without(s, {}) == s
  {
    if s != [] {
      WithoutNothing(s[..|s| - 1]);
      assert s[..|s| - 1] + [s[|s| - 1]] == s;
    }
  }

  /** `a` followed by the elements of `b` that are neither in `a` nor repeated:
      the merge of two string lists used throughout the configuration code. */
  function AppendFresh<T(==)>(a: seq<T>, b: seq<T>): seq<T>
  {
    a + Dedup(Without(b, Elems(a)))
  }

  /** Membership in `Without` for an element outside the excluded set. */
  lemma InWithout<T>(s: seq<T>, excluded: set<T>, x: T)
    requires x !in excluded
    ensures x in Without(s, excluded) <==> x in s
  {
    assert x in Elems(Without(s, excluded)) <==> x in Elems(s);
  }

  lemma {:induction false} AppendFreshSnocInPrefix<T>(a: seq<T>, p: seq<T>, x: T)
    requires x in a
    ensures AppendFresh(a, p + [x]) == AppendFresh(a, p)
  {
    WithoutSnoc(p, x, Elems(a));
    assert Without(p + [x], Elems(a)) == Without(p, Elems(a));
  }

  lemma {:induction false} AppendFreshSnocRepeat<T>(a: seq<T>, p: seq<T>, x: T)
    requires x !in a && x in p
    ensures AppendFresh(a, p + [x]) == AppendFresh(a, p)
  {
    assert x !in Elems(a);
    var w := Without(p, Elems(a));
    WithoutSnoc(p, x, Elems(a));
    InWithout(p, Elems(a), x);
    DedupSnoc(w, x);
  }

  lemma {:induction false} AppendFreshSnocNew<T>(a: seq<T>, p: seq<T>, x: T)
    requires x !in a && x !in p
    ensures AppendFresh(a, p + [x]) == AppendFresh(a, p) + [x]
  {
    var w := Without(p, Elems(a));
    assert Without(p + [x], Elems(a)) == w + [x] by {
      WithoutSnoc(p, x, Elems(a));
    }
    assert Dedup(w + [x]) == Dedup(w) + [x] by {
      InWithout(p, Elems(a), x);
      DedupSnoc(w, x);
    }
    assert a + (Dedup(w) + [x]) == (a + Dedup(w)) + [x];
  }

  /** AppendFresh of `b` extended by one element: the step of the merge loops. */
  lemma AppendFreshSnoc<T>(a: seq<T>, p: seq<T>, x: T)
    ensures AppendFresh(a, p + [x])
         == if x in a + p then AppendFresh(a, p) else AppendFresh(a, p) + [x]
  {
    if x in a {
      AppendFreshSnocInPrefix(a, p, x);
    } else if x in p {
      AppendFreshSnocRepeat(a, p, x);
    } else {
      AppendFreshSnocNew(a, p, x);
    }
  }

  /** On a duplicate-free prefix, AppendFresh is Dedup of the concatenation. */
  lemma {:induction false} AppendFreshIsDedup<T>(a: seq<T>, b: seq<T>)
    requires NoDup(a)
    ensures AppendFresh(a, b) == Dedup(a + b)
  {
    if b == [] {
      DedupOfNoDup(a);
      assert a + b == a;
    } else {
      var p := b[..|b| - 1];
      var x := b[|b| - 1];
      assert b == p + [x];
      assert a + b == (a + p) + [x];
      AppendFreshIsDedup(a, p);
      AppendFreshSnoc(a, p, x);
      DedupSnoc(a + p, x);
    }
  }

  /** The three facts callers rely on: `a` is kept as a prefix, the element set is
      the union, and duplicate-freedom of `a` carries over. */
  lemma AppendFreshFacts<T>(a: seq<T>, b: seq<T>)
    ensures |AppendFresh(a, b)| >= |a| && AppendFresh(a, b)[..|a|] == a
    ensures Elems(AppendFresh(a, b)) == Elems(a) + Elems(b)
    ensures NoDup(a) ==> NoDup(AppendFresh(a, b))
  {
    var r := AppendFresh(a, b);
    var t := Dedup(Without(b, Elems(a)));
    assert r == a + t;
    assert r[..|a|] == a;
    assert Elems(r) == Elems(a) + Elems(t);
    if NoDup(a) {
      forall i, j | 0 <= i < j < |r| ensures r[i] != r[j] {
        if i < |a| && j >= |a| {
          assert r[j] == t[j - |a|] && r[j] in Elems(t);
        }
      }
    }
  }

  /** A duplicate-free sequence has as many elements as its element set. */
  lemma {:induction false} NoDupCard<T>(s: seq<T>)
    requires NoDup(s)
    ensures |Elems(s)| == |s|
  {
    if s != [] {
      var p := s[..|s| - 1];
      NoDupCard(p);
      assert s == p + [s[|s| - 1]];
      assert Elems(s) == Elems(p) + {s[|s| - 1]};
      assert s[|s| - 1] !in Elems(p);
    }
  }

  /** Deduplication keeps the first element first. */
  lemma {:induction false} DedupHead<T>(s: seq<T>)
    requires s != []
    ensures Dedup(s) != [] && Dedup(s)[0] == s[0]
  {
    var p := s[..|s| - 1];
    if p != [] {
      DedupHead(p);
      assert p[0] == s[0];
    }
  }

  /** Appending one more candidate to the filtered tail of an AppendFresh: it
      is added exactly when it is neither excluded nor already present. */
  lemma AppendFreshWithoutSnoc<T>(a: seq<T>, w: seq<T>, x: T, excluded: set<T>)
    ensures AppendFresh(a, Without(w + [x], excluded))
         == var r := AppendFresh(a, Without(w, excluded));
            if x in excluded || x in r then r else r + [x]
  {
    var v := Without(w, excluded);
    var r := AppendFresh(a, v);
    WithoutSnoc(w, x, excluded);
    if x !in excluded {
      AppendFreshSnoc(a, v, x);
      AppendFreshFacts(a, v);
      assert x in r <==> x in Elems(r);
      assert x in a + v <==> x in Elems(a) + Elems(v);
    } else {
      assert Without(w + [x], excluded) == v;
    }
  }
}
