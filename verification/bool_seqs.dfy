/**
 * The two ways the application reads a list of booleans:
 * `list.every(Boolean)` and `list.filter(Boolean).length`.
 */
module BoolSeqs {

  /** `s.every(Boolean)`: true of the empty list. */
  function AllTrue(s: seq<bool>): (r: bool)
    ensures r <==> forall i :: 0 <= i < |s| ==> s[i]
  {
    if s == [] then true else s[0] && AllTrue(s[1..])
  }

  /** `s.filter(Boolean).length`. */
  function CountTrue(s: seq<bool>): (r: nat)
    ensures r <= |s|
    ensures r == |s| <==> AllTrue(s)
    ensures r == 0 <==> forall i :: 0 <= i < |s| ==> !s[i]
  {
    if s == [] then 0 else (if s[0] then 1 else 0) + CountTrue(s[1..])
  }

  /** Setting one entry that was false to true raises the count by exactly one. */
  lemma {:induction false} CountTrueSet(s: seq<bool>, k: nat)
    requires k < |s| && !s[k]
    ensures CountTrue(s[k := true]) == CountTrue(s) + 1
  {
    if k > 0 {
      assert s[k := true][1..] == s[1..][k - 1 := true];
      CountTrueSet(s[1..], k - 1);
    } else {
      assert s[k := true][1..] == s[1..];
    }
  }

  /** The completed entries form a prefix: no true entry follows a false one. */
  ghost predicate IsPrefixClosed(s: seq<bool>)
  {
    forall i, j :: 0 <= i < j < |s| && s[j] ==> s[i]
  }

  /** A prefix-closed list is exactly `CountTrue(s)` trues followed by falses. */
  lemma {:induction false} PrefixClosedShape(s: seq<bool>)
    requires IsPrefixClosed(s)
    ensures forall i :: 0 <= i < |s| ==> (s[i] <==> i < CountTrue(s))
  {
    if s != [] {
      assert IsPrefixClosed(s[1..]) by {
        forall i, j | 0 <= i < j < |s[1..]| && s[1..][j] ensures s[1..][i] {
          assert s[i + 1] && s[j + 1];
        }
      }
      PrefixClosedShape(s[1..]);
      assert !s[0] ==> forall i :: 0 < i < |s| ==> !s[i];
      forall i | 0 <= i < |s| ensures s[i] <==> i < CountTrue(s) {
        if i > 0 {
          assert s[i] == s[1..][i - 1];
        }
      }
    }
  }
}
