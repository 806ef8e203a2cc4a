/** Ordered lists of names: removing repetitions and keeping the members of a set. */
module NameLists {
  predicate Distinct<T(==)>(s: seq<T>) {
    forall i, j :: 0 <= i < j < |s| ==> s[i] != s[j]
  }

  function Elements<T(==)>(s: seq<T>): set<T> {
    set x | x in s
  }

  /** The first occurrence of every element, in order. */
  function Dedup<T(==)>(s: seq<T>): seq<T> {
    if s == [] then [] else
    var front, last := Dedup(s[..|s| - 1]), s[|s| - 1];
    if last in front then front else front + [last]
  }

  function Keep<T(==)>(s: seq<T>, kept: set<T>): seq<T> {
    if s == [] then [] else
    var front, last := Keep(s[..|s| - 1], kept), s[|s| - 1];
    if last in kept then front + [last] else front
  }

  function FirstIndex<T(==)>(s: seq<T>, x: T): (i: nat)
    requires x in s
    ensures i < |s| && s[i] == x && x !in s[..i]
  {
    if s[0] == x then 0 else 1 + FirstIndex(s[1..], x)
  }

  // ---------------------------------------------------------------- repetitions

  lemma {:induction false} DedupMembers<T>(s: seq<T>)
    ensures forall x :: x in Dedup(s) <==> x in s
  {
    if s != [] {
      DedupMembers(s[..|s| - 1]);
      assert s == s[..|s| - 1] + [s[|s| - 1]];
    }
  }

  lemma DedupMember<T>(s: seq<T>, x: T)
    ensures x in Dedup(s) <==> x in s
  {
    DedupMembers(s);
  }

  lemma {:induction false} DedupDistinct<T>(s: seq<T>)
    ensures Distinct(Dedup(s))
  {
    if s != [] {
      DedupDistinct(s[..|s| - 1]);
    }
  }

  lemma {:induction false} DedupOfDistinct<T>(s: seq<T>)
    requires Distinct(s)
    ensures Dedup(s) == s
  {
    if s != [] {
      var front := s[..|s| - 1];
      DedupOfDistinct(front);
      assert s == front + [s[|s| - 1]];
    }
  }

  /** What precedes an element in the deduplicated list first occurs earlier in the original. */
  lemma {:induction false} DedupKeepsFirstOrder<T>(s: seq<T>, i: nat, j: nat)
    requires i < j < |Dedup(s)|
    ensures Dedup(s)[i] in s && Dedup(s)[j] in s
    ensures FirstIndex(s, Dedup(s)[i]) < FirstIndex(s, Dedup(s)[j])
  {
    var front, last := s[..|s| - 1], s[|s| - 1];
    assert s == front + [last];
    DedupMember(front, Dedup(s)[i]);
    FirstIndexInPrefix(front, [last], Dedup(s)[i]);
    if j < |Dedup(front)| {
      DedupKeepsFirstOrder(front, i, j);
      FirstIndexInPrefix(front, [last], Dedup(s)[j]);
    } else {
      DedupMember(front, last);
      assert s[|front|] == last;
    }
  }

  lemma {:induction false} FirstIndexInPrefix<T>(a: seq<T>, b: seq<T>, x: T)
    requires x in a
    ensures x in a + b && FirstIndex(a + b, x) == FirstIndex(a, x)
  {
    if a[0] != x {
      assert (a + b)[1..] == a[1..] + b;
      FirstIndexInPrefix(a[1..], b, x);
    }
  }

  // ---------------------------------------------------------------- selections

  lemma {:induction false} KeepMembers<T>(s: seq<T>, kept: set<T>)
    ensures forall x :: x in Keep(s, kept) <==> x in s && x in kept
  {
    if s != [] {
      KeepMembers(s[..|s| - 1], kept);
      assert s == s[..|s| - 1] + [s[|s| - 1]];
    }
  }

  lemma {:induction false} KeepDistinct<T>(s: seq<T>, kept: set<T>)
    requires Distinct(s)
    ensures Distinct(Keep(s, kept))
  {
    if s != [] {
      KeepDistinct(s[..|s| - 1], kept);
      KeepMembers(s[..|s| - 1], kept);
    }
  }

  lemma {:induction false} KeepAppend<T>(a: seq<T>, b: seq<T>, kept: set<T>)
    ensures Keep(a + b, kept) == Keep(a, kept) + Keep(b, kept)
  {
    if b == [] {
      assert a + b == a;
    } else {
      assert (a + b)[..|a + b| - 1] == a + b[..|b| - 1];
      KeepAppend(a, b[..|b| - 1], kept);
    }
  }

  lemma {:induction false} KeepKeep<T>(s: seq<T>, a: set<T>, b: set<T>)
    ensures Keep(Keep(s, a), b) == Keep(s, a * b)
  {
    if s != [] {
      var front, last := s[..|s| - 1], s[|s| - 1];
      KeepKeep(front, a, b);
      KeepAppend(Keep(front, a), [last], b);
    }
  }

  /** Selections by sets that agree on the list are equal. */
  lemma {:induction false} KeepAgrees<T>(s: seq<T>, a: set<T>, b: set<T>)
    requires forall x :: x in s ==> (x in a <==> x in b)
    ensures Keep(s, a) == Keep(s, b)
  {
    if s != [] {
      KeepAgrees(s[..|s| - 1], a, b);
    }
  }

  lemma {:induction false} KeepAll<T>(s: seq<T>, kept: set<T>)
    requires forall x :: x in s ==> x in kept
    ensures Keep(s, kept) == s
  {
    if s != [] {
      KeepAll(s[..|s| - 1], kept);
    }
  }

  lemma {:induction false} KeepNone<T>(s: seq<T>, kept: set<T>)
    requires forall x :: x in s ==> x !in kept
    ensures Keep(s, kept) == []
  {
    if s != [] {
      KeepNone(s[..|s| - 1], kept);
    }
  }

  lemma {:induction false} DedupKeep<T>(s: seq<T>, kept: set<T>)
    ensures Dedup(Keep(s, kept)) == Keep(Dedup(s), kept)
  {
    if s != [] {
      var front, last := s[..|s| - 1], s[|s| - 1];
      DedupKeep(front, kept);
      KeepMembers(front, kept);
      DedupMembers(front);
      DedupMembers(Keep(front, kept));
      KeepAppend(Dedup(front), [last], kept);
      if last in kept {
        assert Keep(s, kept)[..|Keep(s, kept)| - 1] == Keep(front, kept);
      }
    }
  }

  lemma {:induction false} DisjointConcatDistinct<T>(a: seq<T>, b: seq<T>)
    requires Distinct(a) && Distinct(b)
    requires forall x :: x in a ==> x !in b
    ensures Distinct(a + b)
  {
    forall i, j | 0 <= i < j < |a + b|
      ensures (a + b)[i] != (a + b)[j]
    {
      if i < |a| <= j {
        assert a[i] in a && b[j - |a|] in b;
      }
    }
  }
}
