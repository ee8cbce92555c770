/**
 Lists of entries as the server's linked lists hold them: each entry is known by a number.
 */
module LinkedLists {

  datatype Option<+T> = None | Some(value: T)

  /** No entry occurs twice. */
  ghost predicate Distinct<T(!new)>(s: seq<T>) {
    forall i, j :: 0 <= i < j < |s| ==> s[i] != s[j]
  }

  ghost function SetOf(s: seq<nat>): set<nat> {
    set x | x in s
  }

  lemma {:induction false} DistinctSize(xs: seq<nat>)
    requires Distinct(xs)
    ensures |SetOf(xs)| == |xs|
    decreases |xs|
  {
    if xs != [] {
      var n := |xs| - 1;
      DistinctSize(xs[..n]);
      assert SetOf(xs) == SetOf(xs[..n]) + {xs[n]};
    }
  }

  /** The list without any entry for `x`. */
  function Without(s: seq<nat>, x: nat): seq<nat>
    decreases |s|
  {
    if s == [] then [] else if s[0] == x then Without(s[1..], x) else [s[0]] + Without(s[1..], x)
  }

  lemma {:induction false} WithoutMembers(s: seq<nat>, x: nat)
    ensures forall y :: y in Without(s, x) <==> y in s && y != x
    decreases |s|
  {
    if s != [] {
      assert forall y :: y in s <==> y == s[0] || y in s[1..];
      WithoutMembers(s[1..], x);
    }
  }

  lemma {:induction false} WithoutStranger(s: seq<nat>, x: nat)
    ensures |Without(s, x)| <= |s| && (x !in s ==> Without(s, x) == s)
    decreases |s|
  {
    if s != [] {
      WithoutStranger(s[1..], x);
    }
  }

  lemma {:induction false} WithoutDistinct(s: seq<nat>, x: nat)
    requires Distinct(s)
    ensures Distinct(Without(s, x)) && |Without(s, x)| == |s| - if x in s then 1 else 0
    decreases |s|
  {
    if s != [] {
      WithoutDistinct(s[1..], x);
      WithoutMembers(s[1..], x);
      assert forall y :: y in s <==> y == s[0] || y in s[1..];
      if s[0] != x {
        var t := Without(s[1..], x);
        forall i, j | 0 <= i < j < |[s[0]] + t| ensures ([s[0]] + t)[i] != ([s[0]] + t)[j] {
          if i == 0 {
            assert t[j - 1] in s[1..];
          }
        }
      }
    }
  }

  /** The entries of `s` that are in `ids`, in order. */
  function Kept(s: seq<nat>, ids: set<nat>): (r: seq<nat>)
    ensures forall x :: x in r <==> x in s && x in ids
  {
    if s == [] then []
    else if s[0] in ids then [s[0]] + Kept(s[1..], ids)
    else Kept(s[1..], ids)
  }

  lemma {:induction false} KeptDistinct(s: seq<nat>, ids: set<nat>)
    requires Distinct(s)
    ensures Distinct(Kept(s, ids))
  {
    if s != [] {
      assert Distinct(s[1..]) && s[0] !in s[1..];
      KeptDistinct(s[1..], ids);
    }
  }

  lemma {:induction false} KeptAppend(s: seq<nat>, t: seq<nat>, ids: set<nat>)
    ensures Kept(s + t, ids) == Kept(s, ids) + Kept(t, ids)
  {
    if s == [] {
      assert s + t == t;
    } else {
      assert (s + t)[1..] == s[1..] + t;
      KeptAppend(s[1..], t, ids);
    }
  }

  lemma {:induction false} KeptAll(s: seq<nat>, ids: set<nat>)
    requires forall x :: x in s ==> x in ids
    ensures Kept(s, ids) == s
  {
    if s != [] {
      KeptAll(s[1..], ids);
    }
  }

  lemma {:induction false} KeptNone(s: seq<nat>, ids: set<nat>)
    requires forall x :: x in s ==> x !in ids
    ensures Kept(s, ids) == []
  {
    if s != [] {
      KeptNone(s[1..], ids);
    }
  }

  lemma {:induction false} KeptTwice(s: seq<nat>, ids: set<nat>, ids': set<nat>)
    requires ids' <= ids
    ensures Kept(Kept(s, ids), ids') == Kept(s, ids')
  {
    if s != [] {
      KeptTwice(s[1..], ids, ids');
    }
  }

  lemma {:induction false} KeptShort(s: seq<nat>, ids: set<nat>)
    ensures |Kept(s, ids)| <= |s|
  {
    if s != [] {
      KeptShort(s[1..], ids);
    }
  }

  lemma {:induction false} WithoutIsKept(s: seq<nat>, x: nat, ids: set<nat>)
    requires forall y :: y in s ==> y in ids
    ensures Without(s, x) == Kept(s, ids - {x})
  {
    if s != [] {
      WithoutIsKept(s[1..], x, ids);
    }
  }

  lemma DistinctAppend(a: seq<nat>, b: seq<nat>)
    requires Distinct(a) && Distinct(b) && forall x :: x in a ==> x !in b
    ensures Distinct(a + b)
  {
    forall i, j | 0 <= i < j < |a + b| ensures (a + b)[i] != (a + b)[j] {
      if i < |a| <= j {
        assert a[i] in a && b[j - |a|] in b;
      }
    }
  }
}
