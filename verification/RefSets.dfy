/** Ordered lists of service references: what a drain removes and what a recovery publishes. */
module RefSets {

  datatype Ref = Ref(node: nat, id: nat)

  predicate Less(a: Ref, b: Ref) { a.node < b.node || (a.node == b.node && a.id < b.id) }

  predicate StrictlySorted(s: seq<Ref>) { forall i, j :: 0 <= i < j < |s| ==> Less(s[i], s[j]) }

  predicate Distinct(s: seq<Ref>) { forall i, j :: 0 <= i < j < |s| ==> s[i] != s[j] }

  function SetOf(s: seq<Ref>): set<Ref> { set i | 0 <= i < |s| :: s[i] }

  lemma SetOfAppend(s: seq<Ref>, x: Ref)
    ensures SetOf(s + [x]) == SetOf(s) + {x}
  {
    var t := s + [x];
    forall y | y in SetOf(s) + {x} ensures y in SetOf(t) {
      if y == x {
        assert t[|s|] == y;
      } else {
        var i :| 0 <= i < |s| && s[i] == y;
        assert t[i] == y;
      }
    }
  }

  lemma EmptySet(s: seq<Ref>)
    ensures s == [] <==> SetOf(s) == {}
  {
    if s != [] { assert s[0] in SetOf(s); }
  }

  /** Two strictly sorted lists of the same references are the same list. */
  lemma {:induction false} SortedUnique(a: seq<Ref>, b: seq<Ref>)
    requires StrictlySorted(a) && StrictlySorted(b) && SetOf(a) == SetOf(b)
    ensures a == b
  {
    EmptySet(a);
    EmptySet(b);
    if a != [] {
      assert a[0] in SetOf(a);
      var j :| 0 <= j < |b| && b[j] == a[0];
      assert b[0] in SetOf(b);
      var i :| 0 <= i < |a| && a[i] == b[0];
      assert a[0] == b[0];
      TailSet(a);
      TailSet(b);
      SortedUnique(a[1..], b[1..]);
    }
  }

  lemma TailSet(a: seq<Ref>)
    requires a != [] && StrictlySorted(a)
    ensures SetOf(a[1..]) == SetOf(a) - {a[0]}
  {
    forall x | x in SetOf(a) - {a[0]} ensures x in SetOf(a[1..]) {
      var i :| 0 <= i < |a| && a[i] == x;
      assert a[1..][i - 1] == x;
    }
  }

  // ---------------------------------------------------------------------------------
  // Sorting by exchange
  // ---------------------------------------------------------------------------------

  /** The first `left` places are final: sorted, and below everything after them. */
  predicate Settled(s: seq<Ref>, left: nat)
  {
    left <= |s| && forall i, j :: 0 <= i < left && i < j < |s| ==> Less(s[i], s[j])
  }

  predicate LeastSoFar(s: seq<Ref>, left: nat, right: nat)
  {
    left < right <= |s| && forall j :: left < j < right ==> Less(s[left], s[j])
  }

  function Swapped(s: seq<Ref>, i: nat, j: nat): seq<Ref>
    requires i < |s| && j < |s|
  {
    s[i := s[j]][j := s[i]]
  }

  lemma SwapKeeps(s: seq<Ref>, i: nat, j: nat)
    requires i < j < |s| && Distinct(s)
    ensures Distinct(Swapped(s, i, j)) && SetOf(Swapped(s, i, j)) == SetOf(s)
  {
    var t := Swapped(s, i, j);
    forall x | x in SetOf(s) ensures x in SetOf(t) {
      var k :| 0 <= k < |s| && s[k] == x;
      assert t[if k == i then j else if k == j then i else k] == x;
    }
  }

  lemma SwapSettled(s: seq<Ref>, left: nat, right: nat)
    requires left < right < |s| && Settled(s, left) && LeastSoFar(s, left, right) && Less(s[right], s[left])
    ensures Settled(Swapped(s, left, right), left) && LeastSoFar(Swapped(s, left, right), left, right + 1)
  {
  }

  lemma NextSettled(s: seq<Ref>, left: nat)
    requires Settled(s, left) && LeastSoFar(s, left, |s|)
    ensures Settled(s, left + 1)
  {
  }

  method ExchangeSort(a: array<Ref>)
    requires Distinct(a[..])
    modifies a
    ensures StrictlySorted(a[..]) && SetOf(a[..]) == SetOf(old(a[..]))
  {
    for left := 0 to a.Length
      invariant Settled(a[..], left) && Distinct(a[..]) && SetOf(a[..]) == SetOf(old(a[..]))
    {
      for right := left + 1 to a.Length
        invariant Settled(a[..], left) && LeastSoFar(a[..], left, right)
        invariant Distinct(a[..]) && SetOf(a[..]) == SetOf(old(a[..]))
      {
        ghost var s := a[..];
        if Less(a[right], a[left]) {
          SwapSettled(s, left, right);
          SwapKeeps(s, left, right);
          a[left], a[right] := a[right], a[left];
          assert a[..] == Swapped(s, left, right);
        } else {
          assert s[left] != s[right];
        }
      }
      NextSettled(a[..], left);
    }
  }

  method Sorted(refs: seq<Ref>) returns (r: seq<Ref>)
    requires Distinct(refs)
    ensures StrictlySorted(r) && SetOf(r) == SetOf(refs)
  {
    var a := new Ref[|refs|](i requires 0 <= i < |refs| => refs[i]);
    assert a[..] == refs;
    ExchangeSort(a);
    r := a[..];
  }

  // ---------------------------------------------------------------------------------
  // Targets of a drain, references of a recovery
  // ---------------------------------------------------------------------------------

  /** The references that were published before and are not any more, in order. */
  method DrainTargets(original: seq<Ref>, published: seq<Ref>) returns (targets: seq<Ref>)
    requires Distinct(original)
    ensures StrictlySorted(targets) && SetOf(targets) == SetOf(original) - SetOf(published)
  {
    var retained := SetOf(published);
    var kept: seq<Ref> := [];
    for i := 0 to |original|
      invariant Distinct(kept) && SetOf(kept) == SetOf(original[..i]) - retained
    {
      assert original[..i + 1] == original[..i] + [original[i]];
      SetOfAppend(original[..i], original[i]);
      if original[i] !in retained {
        SetOfAppend(kept, original[i]);
        assert original[i] !in SetOf(original[..i]);
        assert forall k :: 0 <= k < |kept| ==> kept[k] in SetOf(kept);
        kept := kept + [original[i]];
      }
    }
    assert original[..|original|] == original;
    targets := Sorted(kept);
  }

  /** The expected references and the created ones, each once, in order. */
  method RecoveredRefs(expected: seq<Ref>, created: seq<Ref>) returns (refs: seq<Ref>)
    requires Distinct(expected)
    ensures StrictlySorted(refs) && SetOf(refs) == SetOf(expected) + SetOf(created)
  {
    var all := expected;
    for i := 0 to |created|
      invariant Distinct(all) && SetOf(all) == SetOf(expected) + SetOf(created[..i])
    {
      assert created[..i + 1] == created[..i] + [created[i]];
      SetOfAppend(created[..i], created[i]);
      if created[i] !in SetOf(all) {
        SetOfAppend(all, created[i]);
        assert forall k :: 0 <= k < |all| ==> all[k] in SetOf(all);
        all := all + [created[i]];
      }
    }
    assert created[..|created|] == created;
    refs := Sorted(all);
  }
}
