/**
  An insertion-ordered set (Java's LinkedHashSet) represented by the sequence
  of its elements in insertion order. Adding an element that is already
  present leaves the set as it was; adding a new one appends it.
 */
module OrderedSet {

  predicate NoDuplicates<T(==)>(s: seq<T>) {
    forall i, j :: 0 <= i < j < |s| ==> s[i] != s[j]
  }

  /** The position of the first occurrence of x in s, or |s| when x does not occur. */
  function IndexOf<T(==)>(s: seq<T>, x: T): (k: nat)
    ensures k <= |s|
    ensures k < |s| <==> x in s
    ensures k < |s| ==> s[k] == x
    ensures forall j :: 0 <= j < k ==> s[j] != x
    decreases |s|
  {
    if s == [] then 0 else if s[0] == x then 0 else 1 + IndexOf(s[1..], x)
  }

  /**
    The ordered set `acc` after adding the elements of xs one by one
    (LinkedHashSet.addAll): each element not yet present is appended.
   */
  function DedupAppend<T(==)>(acc: seq<T>, xs: seq<T>): (r: seq<T>)
    ensures |acc| <= |r| && r[..|acc|] == acc
    ensures forall k :: 0 <= k < |r| ==> r[k] in acc || r[k] in xs
    ensures forall k :: 0 <= k < |xs| ==> xs[k] in r
    decreases |xs|
  {
    if xs == [] then acc
    else
      var next := if xs[0] in acc then acc else acc + [xs[0]];
      var r := DedupAppend(next, xs[1..]);
      assert r[..|acc|] == next[..|next|][..|acc|];
      assert xs[0] in r by {
        if xs[0] in acc {
          var j :| 0 <= j < |acc| && acc[j] == xs[0];
          assert r[j] == xs[0];
        } else {
          assert r[|acc|] == next[|acc|];
        }
      }
      assert forall k :: 0 <= k < |r| ==> r[k] in next || r[k] in xs[1..];
      r
  }

  /** The distinct elements of s in first-occurrence order (new LinkedHashSet(s)). */
  function Distinct<T(==)>(s: seq<T>): (r: seq<T>)
  {
    DedupAppend([], s)
  }

  /** Adding elements never creates a duplicate. */
  lemma {:induction false} DedupAppendNoDuplicates<T>(acc: seq<T>, xs: seq<T>)
    requires NoDuplicates(acc)
    ensures NoDuplicates(DedupAppend(acc, xs))
    decreases |xs|
  {
    if xs != [] {
      var next := if xs[0] in acc then acc else acc + [xs[0]];
      DedupAppendNoDuplicates(next, xs[1..]);
    }
  }

  /**
    What follows `acc` in the result is made of elements of xs that were not
    in `acc`, ordered by their first occurrence in xs.
   */
  lemma {:induction false} DedupAppendNewElements<T>(acc: seq<T>, xs: seq<T>)
    ensures var r := DedupAppend(acc, xs);
      forall k :: |acc| <= k < |r| ==> r[k] in xs && r[k] !in acc
    ensures var r := DedupAppend(acc, xs);
      forall i, j :: |acc| <= i < j < |r| ==> IndexOf(xs, r[i]) < IndexOf(xs, r[j])
    decreases |xs|
  {
    if xs != [] {
      var x := xs[0];
      var next := if x in acc then acc else acc + [x];
      var r := DedupAppend(acc, xs);
      assert r == DedupAppend(next, xs[1..]);
      DedupAppendNewElements(next, xs[1..]);
      assert xs == [x] + xs[1..];
      forall k | |next| <= k < |r|
        ensures r[k] != x && IndexOf(xs, r[k]) == 1 + IndexOf(xs[1..], r[k])
      {
        assert r[k] !in next;
        assert x in next;
      }
      if x !in acc {
        assert r[|acc|] == next[|acc|] == x;
        assert IndexOf(xs, x) == 0;
      }
    }
  }

  /** Adding xs and then ys is the same as adding xs + ys. */
  lemma {:induction false} DedupAppendConcat<T>(acc: seq<T>, xs: seq<T>, ys: seq<T>)
    ensures DedupAppend(DedupAppend(acc, xs), ys) == DedupAppend(acc, xs + ys)
    decreases |xs|
  {
    if xs == [] {
      assert xs + ys == ys;
    } else {
      var next := if xs[0] in acc then acc else acc + [xs[0]];
      assert (xs + ys)[0] == xs[0];
      assert (xs + ys)[1..] == xs[1..] + ys;
      DedupAppendConcat(next, xs[1..], ys);
    }
  }

  /** Adding elements that are all present already changes nothing. */
  lemma {:induction false} DedupAppendAbsorbed<T>(acc: seq<T>, xs: seq<T>)
    requires forall k :: 0 <= k < |xs| ==> xs[k] in acc
    ensures DedupAppend(acc, xs) == acc
    decreases |xs|
  {
    if xs != [] {
      assert xs[0] in acc;
      DedupAppendAbsorbed(acc, xs[1..]);
    }
  }

  /** A sequence without duplicates is its own ordered set. */
  lemma {:induction false} DistinctOfDuplicateFree<T>(acc: seq<T>, xs: seq<T>)
    requires NoDuplicates(acc + xs)
    ensures DedupAppend(acc, xs) == acc + xs
    decreases |xs|
  {
    if xs != [] {
      assert xs[0] == (acc + xs)[|acc|];
      assert xs[0] !in acc by {
        forall i | 0 <= i < |acc| ensures acc[i] != xs[0] {
          assert acc[i] == (acc + xs)[i];
        }
      }
      assert acc + xs == (acc + [xs[0]]) + xs[1..];
      DistinctOfDuplicateFree(acc + [xs[0]], xs[1..]);
    }
  }

  /**
    The elements of Distinct(s) are those of s, each once, in the order of
    their first occurrence in s.
   */
  lemma DistinctCharacterized<T>(s: seq<T>)
    ensures NoDuplicates(Distinct(s))
    ensures forall k :: 0 <= k < |Distinct(s)| ==> Distinct(s)[k] in s
    ensures forall k :: 0 <= k < |s| ==> s[k] in Distinct(s)
    ensures var r := Distinct(s);
      forall i, j :: 0 <= i < j < |r| ==> IndexOf(s, r[i]) < IndexOf(s, r[j])
  {
    var r := Distinct(s);
    var empty: seq<T> := [];
    assert r == DedupAppend(empty, s);
    DedupAppendNoDuplicates(empty, s);
    DedupAppendNewElements(empty, s);
    forall i, j | 0 <= i < j < |r| ensures IndexOf(s, r[i]) < IndexOf(s, r[j]) {
      assert |empty| <= i;
    }
  }

  /**
    Models the LinkedHashSet.addAll loop: walks xs and appends each element
    that the set does not hold yet.
   */
  method AddAll<T(==)>(initial: seq<T>, xs: seq<T>) returns (r: seq<T>)
    ensures r == DedupAppend(initial, xs)
  {
    r := initial;
    for i := 0 to |xs|
      invariant DedupAppend(r, xs[i..]) == DedupAppend(initial, xs)
    {
      assert xs[i..][1..] == xs[i + 1..];
      if xs[i] !in r {
        r := r + [xs[i]];
      }
    }
    assert xs[|xs|..] == [];
  }
}
