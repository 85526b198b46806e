/**
 * A list of titles used as a set: toggling a title removes every occurrence of it
 * when it is present (`prev.filter(x => x !== t)`) and appends it otherwise
 * (`[...prev, t]`).
 */
module Membership {

  /** Number of occurrences of `t` in `xs`. */
  function Occurrences(xs: seq<string>, t: string): nat
  {
    if xs == [] then 0 else (if xs[0] == t then 1 else 0) + Occurrences(xs[1..], t)
  }

  /** No title occurs twice. */
  predicate NoDuplicates(xs: seq<string>)
  {
    forall i, j :: 0 <= i < j < |xs| ==> xs[i] != xs[j]
  }

  /** `xs.filter(x => x !== t)`: the other titles, in their order. */
  function RemoveAll(xs: seq<string>, t: string): (r: seq<string>)
    ensures t !in r
    ensures forall x :: x != t ==> (x in r <==> x in xs)
    ensures |r| == |xs| - Occurrences(xs, t)
    ensures t !in xs ==> r == xs
  {
    if xs == [] then []
    else if xs[0] == t then RemoveAll(xs[1..], t)
    else [xs[0]] + RemoveAll(xs[1..], t)
  }

  /** Filtering distributes over concatenation, so relative order is kept. */
  lemma {:induction false} RemoveAllConcat(a: seq<string>, b: seq<string>, t: string)
    ensures RemoveAll(a + b, t) == RemoveAll(a, t) + RemoveAll(b, t)
  {
    if a != [] {
      assert (a + b)[1..] == a[1..] + b;
      RemoveAllConcat(a[1..], b, t);
    } else {
      assert a + b == b;
    }
  }

  /** Filtering keeps a duplicate-free list duplicate-free. */
  lemma {:induction false} RemoveAllNoDuplicates(xs: seq<string>, t: string)
    requires NoDuplicates(xs)
    ensures NoDuplicates(RemoveAll(xs, t))
  {
    if xs != [] {
      assert NoDuplicates(xs[1..]) by {
        forall i, j | 0 <= i < j < |xs[1..]| ensures xs[1..][i] != xs[1..][j] {
          assert xs[i + 1] != xs[j + 1];
        }
      }
      RemoveAllNoDuplicates(xs[1..], t);
      if xs[0] != t {
        var rest := RemoveAll(xs[1..], t);
        assert xs[0] !in xs[1..];
        assert xs[0] !in rest;
        forall i, j | 0 <= i < j < |[xs[0]] + rest| ensures ([xs[0]] + rest)[i] != ([xs[0]] + rest)[j] {
          if i == 0 {
            assert ([xs[0]] + rest)[j] == rest[j - 1];
          } else {
            assert ([xs[0]] + rest)[i] == rest[i - 1];
            assert ([xs[0]] + rest)[j] == rest[j - 1];
          }
        }
      }
    }
  }

  /** `handleToggleComplete` / `handleMarkAsLearned`. */
  function Toggle(xs: seq<string>, t: string): (r: seq<string>)
    ensures t in xs ==> r == RemoveAll(xs, t)
    ensures t !in xs ==> r == xs + [t]
    ensures (t in r) <==> (t !in xs)
    ensures forall x :: x != t ==> (x in r <==> x in xs)
  {
    if t in xs then RemoveAll(xs, t) else xs + [t]
  }

  /** Toggling an absent title twice gives back exactly the original list. */
  lemma ToggleTwiceAbsent(xs: seq<string>, t: string)
    requires t !in xs
    ensures Toggle(Toggle(xs, t), t) == xs
  {
    RemoveAllConcat(xs, [t], t);
    assert RemoveAll([t], t) == [];
  }

  /** A toggle never introduces a duplicate into a duplicate-free list. */
  lemma ToggleNoDuplicates(xs: seq<string>, t: string)
    requires NoDuplicates(xs)
    ensures NoDuplicates(Toggle(xs, t))
  {
    if t in xs {
      RemoveAllNoDuplicates(xs, t);
    }
  }

  /** In a duplicate-free list a toggle changes the length by exactly one. */
  lemma {:induction false} ToggleLength(xs: seq<string>, t: string)
    requires NoDuplicates(xs)
    ensures t in xs ==> |Toggle(xs, t)| == |xs| - 1
    ensures t !in xs ==> |Toggle(xs, t)| == |xs| + 1
  {
    if t in xs {
      OccurrencesUnique(xs, t);
    }
  }

  /** A title present in a duplicate-free list occurs exactly once. */
  lemma {:induction false} OccurrencesUnique(xs: seq<string>, t: string)
    requires NoDuplicates(xs) && t in xs
    ensures Occurrences(xs, t) == 1
  {
    assert NoDuplicates(xs[1..]) by {
      forall i, j | 0 <= i < j < |xs[1..]| ensures xs[1..][i] != xs[1..][j] {
        assert xs[i + 1] != xs[j + 1];
      }
    }
    if xs[0] == t {
      OccurrencesAbsent(xs[1..], t);
    } else {
      assert t in xs[1..];
      OccurrencesUnique(xs[1..], t);
    }
  }

  lemma {:induction false} OccurrencesAbsent(xs: seq<string>, t: string)
    requires t !in xs
    ensures Occurrences(xs, t) == 0
  {
    if xs != [] {
      assert t !in xs[1..];
      OccurrencesAbsent(xs[1..], t);
    }
  }
}
