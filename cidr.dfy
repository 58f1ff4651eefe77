/**
  `covering_cidr` from telepresence/outbound/vpn.py: the smallest network of
  prefix length at most 24 that holds every given address, found by widening
  the lowest network of a collapsed list one bit at a time.
*/
module Cidr {
  import opened Ipv4

  // ---------------------------------------------------------------------
  // Lists of networks

  /**
    Sorted by base address, pairwise disjoint, and no two neighbours are the
    halves of one supernet: the shape `collapse_addresses` returns.
  */
  predicate Canonical(ns: seq<Network>)
  {
    && (forall i :: 0 <= i < |ns| ==> Valid(ns[i]))
    && (forall i, j :: 0 <= i < j < |ns| ==> End(ns[i]) <= ns[j].base)
    && (forall i :: 0 < i < |ns| ==> !Siblings(ns[i - 1], ns[i]))
  }

  predicate AllValid(ns: seq<Network>)
  {
    forall i :: 0 <= i < |ns| ==> Valid(ns[i])
  }

  /** Some network of `ns` holds address `a`. */
  predicate Covers(ns: seq<Network>, a: nat)
  {
    exists i :: 0 <= i < |ns| && Contains(ns[i], a)
  }

  /** Some network of `ns` holds all of `n`. */
  predicate Absorbs(ns: seq<Network>, n: Network)
  {
    exists i :: 0 <= i < |ns| && Within(n, ns[i])
  }

  /**
    What `collapse_addresses` promises about its result `r` for input `ns`:
    every input lies inside some output, and every address of an output is an
    address of some input.
  */
  ghost predicate SameAddresses(ns: seq<Network>, r: seq<Network>)
  {
    AbsorbsAll(r, ns) && InsideUnion(r, ns)
  }

  ghost predicate AbsorbsAll(r: seq<Network>, ns: seq<Network>)
  {
    forall i {:trigger ns[i]} :: 0 <= i < |ns| ==> Absorbs(r, ns[i])
  }

  ghost predicate InsideUnion(r: seq<Network>, ns: seq<Network>)
  {
    forall k, a {:trigger Contains(r[k], a)} :: 0 <= k < |r| && Contains(r[k], a) ==> Covers(ns, a)
  }

  lemma CoversAppend(ns: seq<Network>, n: Network, a: nat)
    ensures Covers(ns + [n], a) <==> Covers(ns, a) || Contains(n, a)
  {
    if Covers(ns, a) {
      var i :| 0 <= i < |ns| && Contains(ns[i], a);
      assert (ns + [n])[i] == ns[i];
    }
    if Contains(n, a) {
      assert (ns + [n])[|ns|] == n;
    }
    if Covers(ns + [n], a) {
      var i :| 0 <= i < |ns + [n]| && Contains((ns + [n])[i], a);
      if i < |ns| {
        assert (ns + [n])[i] == ns[i];
      }
    }
  }

  lemma CoversCons(n: Network, ns: seq<Network>, a: nat)
    ensures Covers([n] + ns, a) <==> Contains(n, a) || Covers(ns, a)
  {
    if Covers(ns, a) {
      var i :| 0 <= i < |ns| && Contains(ns[i], a);
      assert ([n] + ns)[i + 1] == ns[i];
    }
    if Contains(n, a) {
      assert ([n] + ns)[0] == n;
    }
    if Covers([n] + ns, a) {
      var i :| 0 <= i < |[n] + ns| && Contains(([n] + ns)[i], a);
      if i > 0 {
        assert ([n] + ns)[i] == ns[i - 1];
      }
    }
  }

  lemma AbsorbsCons(m: Network, r: seq<Network>, n: Network)
    ensures Absorbs(r, n) ==> Absorbs([m] + r, n)
    ensures Within(n, m) ==> Absorbs([m] + r, n)
  {
    if Absorbs(r, n) {
      var k :| 0 <= k < |r| && Within(n, r[k]);
      assert ([m] + r)[k + 1] == r[k];
    }
    assert ([m] + r)[0] == m;
  }

  /** The case of Insert where `n` already lies inside the first network. */
  lemma InsertHeld(ns: seq<Network>, n: Network)
    requires |ns| > 0 && Within(n, ns[0])
    ensures SameAddresses(ns + [n], ns)
  {
    forall i | 0 <= i < |ns + [n]|
      ensures Absorbs(ns, (ns + [n])[i])
    {
      if i < |ns| {
        assert Within(ns[i], ns[i]);
      } else {
        assert Within((ns + [n])[i], ns[0]);
      }
    }
    forall k, a | 0 <= k < |ns| && Contains(ns[k], a)
      ensures Covers(ns + [n], a)
    {
      CoversAppend(ns, n, a);
    }
  }

  /** The case of Insert where `n` goes in front of `ns`. */
  lemma InsertFront(ns: seq<Network>, n: Network)
    requires Canonical(ns) && Valid(n)
    requires |ns| > 0 ==> End(n) <= ns[0].base && !Siblings(n, ns[0])
    ensures Canonical([n] + ns)
    ensures SameAddresses(ns + [n], [n] + ns)
  {
    var r := [n] + ns;
    forall i, j | 0 <= i < j < |r|
      ensures End(r[i]) <= r[j].base
    {
      if i == 0 && j > 1 {
        assert r[j] == ns[j - 1] && End(ns[0]) <= ns[j - 1].base;
      }
    }
    forall i | 0 < i < |r|
      ensures !Siblings(r[i - 1], r[i])
    {
      if i > 1 {
        assert r[i - 1] == ns[i - 2] && r[i] == ns[i - 1];
      }
    }
    forall i | 0 <= i < |ns + [n]|
      ensures Absorbs([n] + ns, (ns + [n])[i])
    {
      if i < |ns| {
        assert ([n] + ns)[i + 1] == ns[i] == (ns + [n])[i];
      } else {
        assert ([n] + ns)[0] == n == (ns + [n])[i];
      }
    }
    forall k, a | 0 <= k < |[n] + ns| && Contains(([n] + ns)[k], a)
      ensures Covers(ns + [n], a)
    {
      CoversCons(n, ns, a);
      CoversAppend(ns, n, a);
      assert Covers([n] + ns, a);
    }
  }

  /** The case of Insert where the first network of `ns` lies inside `n` and is dropped. */
  lemma InsertDrop(ns: seq<Network>, n: Network, r: seq<Network>)
    requires |ns| > 0 && Within(ns[0], n)
    requires SameAddresses(ns[1..] + [n], r)
    ensures SameAddresses(ns + [n], r)
  {
    var tail := ns[1..] + [n];
    assert ns + [n] == [ns[0]] + tail;
    assert tail[|tail| - 1] == n;
    assert Absorbs(r, n);
    forall i | 0 <= i < |ns + [n]|
      ensures Absorbs(r, (ns + [n])[i])
    {
      if i == 0 {
        var k :| 0 <= k < |r| && Within(n, r[k]);
        assert Within(ns[0], r[k]);
      } else {
        assert (ns + [n])[i] == tail[i - 1];
      }
    }
    forall k, a | 0 <= k < |r| && Contains(r[k], a)
      ensures Covers(ns + [n], a)
    {
      assert Covers(tail, a);
      CoversCons(ns[0], tail, a);
    }
  }

  /** The case of Insert where `n` and the first network of `ns` are merged into their supernet. */
  lemma InsertMerge(ns: seq<Network>, n: Network, r: seq<Network>)
    requires |ns| > 0 && Siblings(n, ns[0])
    requires SameAddresses(ns[1..] + [Supernet(n)], r)
    ensures SameAddresses(ns + [n], r)
  {
    var s := Supernet(n);
    var tail := ns[1..] + [s];
    assert tail[|tail| - 1] == s;
    var m :| 0 <= m < |r| && Within(s, r[m]);
    forall i | 0 <= i < |ns + [n]|
      ensures Absorbs(r, (ns + [n])[i])
    {
      if i == 0 || i == |ns| {
        assert Within((ns + [n])[i], r[m]);
      } else {
        assert (ns + [n])[i] == tail[i - 1];
      }
    }
    forall k, a | 0 <= k < |r| && Contains(r[k], a)
      ensures Covers(ns + [n], a)
    {
      var j :| 0 <= j < |tail| && Contains(tail[j], a);
      if j < |ns| - 1 {
        assert (ns + [n])[j + 1] == tail[j];
      } else {
        HalvesFill(n, ns[0], a);
        assert (ns + [n])[0] == ns[0] && (ns + [n])[|ns|] == n;
      }
    }
  }

  /**
    The case of Insert where the first network of `ns` is kept in front of
    the rest, but turns out to be a half of the same supernet as the first
    network of the rest, and the two are merged.
  */
  lemma KeepMerge(ns: seq<Network>, n: Network, rest: seq<Network>, r: seq<Network>)
    requires |ns| > 0 && |rest| > 0 && Siblings(ns[0], rest[0])
    requires SameAddresses(ns[1..] + [n], rest)
    requires SameAddresses(rest[1..] + [Supernet(ns[0])], r)
    ensures SameAddresses(ns + [n], r)
  {
    var s := Supernet(ns[0]);
    var tail := ns[1..] + [n];
    var tail2 := rest[1..] + [s];
    assert ns + [n] == [ns[0]] + tail;
    assert tail2[|tail2| - 1] == s;
    var m :| 0 <= m < |r| && Within(s, r[m]);
    forall i | 0 <= i < |ns + [n]|
      ensures Absorbs(r, (ns + [n])[i])
    {
      if i == 0 {
        assert Within(ns[0], r[m]);
      } else {
        assert (ns + [n])[i] == tail[i - 1];
        var k :| 0 <= k < |rest| && Within(tail[i - 1], rest[k]);
        if k == 0 {
          assert Within(tail[i - 1], r[m]);
        } else {
          assert rest[k] == tail2[k - 1];
          var q :| 0 <= q < |r| && Within(rest[k], r[q]);
          assert Within(tail[i - 1], r[q]);
        }
      }
    }
    forall k, a | 0 <= k < |r| && Contains(r[k], a)
      ensures Covers(ns + [n], a)
    {
      CoversCons(ns[0], tail, a);
      var j :| 0 <= j < |tail2| && Contains(tail2[j], a);
      if j < |rest| - 1 {
        assert rest[j + 1] == tail2[j];
        assert Covers(tail, a);
      } else {
        HalvesFill(ns[0], rest[0], a);
        if Contains(rest[0], a) {
          assert Covers(tail, a);
        }
      }
    }
  }

  /** The case of Insert where the first network of `ns` lies before `n` and is kept. */
  lemma InsertKeep(ns: seq<Network>, n: Network, rest: seq<Network>)
    requires Canonical(ns) && Valid(n) && |ns| > 0 && End(ns[0]) <= n.base
    requires Canonical(rest) && SameAddresses(ns[1..] + [n], rest)
    requires |rest| > 0 ==> !Siblings(ns[0], rest[0])
    ensures Canonical([ns[0]] + rest) && SameAddresses(ns + [n], [ns[0]] + rest)
  {
    var tail := ns[1..] + [n];
    var r := [ns[0]] + rest;
    assert ns + [n] == [ns[0]] + tail;
    forall j | 0 <= j < |rest|
      ensures End(ns[0]) <= rest[j].base
    {
      assert Contains(rest[j], rest[j].base);
      assert Covers(tail, rest[j].base);
      var i :| 0 <= i < |tail| && Contains(tail[i], rest[j].base);
      if i < |ns| - 1 {
        assert tail[i] == ns[i + 1];
      }
    }
    forall i | 0 <= i < |ns + [n]|
      ensures Absorbs(r, (ns + [n])[i])
    {
      if i == 0 {
        AbsorbsCons(ns[0], rest, ns[0]);
      } else {
        assert (ns + [n])[i] == tail[i - 1];
        AbsorbsCons(ns[0], rest, tail[i - 1]);
      }
    }
    forall k, a | 0 <= k < |r| && Contains(r[k], a)
      ensures Covers(ns + [n], a)
    {
      CoversCons(ns[0], tail, a);
      if k > 0 {
        assert r[k] == rest[k - 1];
        assert Covers(tail, a);
      }
    }
  }

  /**
    Adds `n` to a canonical list: drops what `n` holds, skips `n` when it is
    held already, and replaces two halves of one supernet by that supernet.
  */
  function Insert(ns: seq<Network>, n: Network): (r: seq<Network>)
    requires Canonical(ns) && Valid(n)
    ensures Canonical(r)
    ensures SameAddresses(ns + [n], r)
    ensures 0 < |r| <= |ns| + 1
    decreases |ns|
  {
    if ns == [] then
      InsertFront([], n);
      assert [] + [n] == [n] + [] == [n];
      [n]
    else if Within(n, ns[0]) then
      InsertHeld(ns, n);
      ns
    else if Within(ns[0], n) then
      var r := Insert(ns[1..], n);
      InsertDrop(ns, n, r);
      r
    else if Siblings(n, ns[0]) then
      var r := Insert(ns[1..], Supernet(n));
      InsertMerge(ns, n, r);
      r
    else if n.base < ns[0].base then
      NestedEitherWay(n, ns[0]);
      assert End(n) <= ns[0].base;
      InsertFront(ns, n);
      [n] + ns
    else
      NestedEitherWay(n, ns[0]);
      var rest := Insert(ns[1..], n);
      if Siblings(ns[0], rest[0]) then
        var r := Insert(rest[1..], Supernet(ns[0]));
        KeepMerge(ns, n, rest, r);
        r
      else
        InsertKeep(ns, n, rest);
        [ns[0]] + rest
  }

  /**
    `ipaddress.collapse_addresses`: the input networks as a canonical list,
    with nested networks dropped and adjacent halves merged.
  */
  function Collapse(ns: seq<Network>): (r: seq<Network>)
    requires AllValid(ns)
    ensures Canonical(r) && SameAddresses(ns, r)
  {
    if ns == [] then []
    else
      var init := ns[..|ns| - 1];
      assert ns == init + [ns[|ns| - 1]];
      var partial := Collapse(init);
      var r := Insert(partial, ns[|ns| - 1]);
      CollapseStep(init, ns[|ns| - 1], partial, r);
      r
  }

  lemma CollapseStep(init: seq<Network>, n: Network, partial: seq<Network>, r: seq<Network>)
    requires SameAddresses(init, partial) && SameAddresses(partial + [n], r)
    ensures SameAddresses(init + [n], r)
  {
    forall i | 0 <= i < |init + [n]|
      ensures Absorbs(r, (init + [n])[i])
    {
      if i < |init| {
        assert (init + [n])[i] == init[i];
        var k :| 0 <= k < |partial| && Within(init[i], partial[k]);
        assert (partial + [n])[k] == partial[k];
        var m :| 0 <= m < |r| && Within(partial[k], r[m]);
        assert Within(init[i], r[m]);
      } else {
        assert (partial + [n])[|partial|] == n == (init + [n])[i];
      }
    }
    forall k, a | 0 <= k < |r| && Contains(r[k], a)
      ensures Covers(init + [n], a)
    {
      assert Covers(partial + [n], a);
      CoversAppend(partial, n, a);
      CoversAppend(init, n, a);
      if Covers(partial, a) {
        var j :| 0 <= j < |partial| && Contains(partial[j], a);
      }
    }
  }

  /** In a canonical list the network that holds an address of some input contains that input. */
  lemma OutputHoldsInput(ns: seq<Network>, r: seq<Network>, k: nat)
    requires AllValid(ns) && Canonical(r) && SameAddresses(ns, r) && k < |r|
    ensures exists i :: 0 <= i < |ns| && Within(ns[i], r[k])
  {
    assert Contains(r[k], r[k].base);
    var i :| 0 <= i < |ns| && Contains(ns[i], r[k].base);
    var m :| 0 <= m < |r| && Within(ns[i], r[m]);
    assert m == k;
  }

  /** Every network of `r` lies inside `c` when every input does. */
  lemma OutputsInside(ns: seq<Network>, r: seq<Network>, c: Network)
    requires AllValid(ns) && Canonical(r) && SameAddresses(ns, r)
    requires forall i :: 0 <= i < |ns| ==> Within(ns[i], c)
    ensures forall k :: 0 <= k < |r| ==> Within(r[k], c)
  {
    forall k | 0 <= k < |r|
      ensures Within(r[k], c)
    {
      assert Contains(r[k], r[k].base) && Contains(r[k], End(r[k]) - 1);
      var i :| 0 <= i < |ns| && Contains(ns[i], r[k].base);
      var j :| 0 <= j < |ns| && Contains(ns[j], End(r[k]) - 1);
    }
  }

  // ---------------------------------------------------------------------
  // Only one canonical list holds a given set of addresses

  /** Every address of `x` is held by some network of `r`. */
  ghost predicate Filled(r: seq<Network>, x: Network)
  {
    forall a {:trigger Contains(x, a)} :: Contains(x, a) ==> Covers(r, a)
  }

  lemma FilledInside(r: seq<Network>, x: Network, y: Network)
    requires Filled(r, x) && Within(y, x)
    ensures Filled(r, y)
  {
    forall a | Contains(y, a)
      ensures Covers(r, a)
    {
      assert Contains(x, a);
    }
  }

  /** In a canonical list, a network that starts where another ends comes right after it. */
  lemma Abutting(r: seq<Network>, i: nat, j: nat)
    requires Canonical(r) && i < |r| && j < |r| && End(r[i]) == r[j].base
    ensures j == i + 1
  {
    if i + 1 < |r| {
      assert End(r[i]) <= r[i + 1].base;
    }
  }

  /** A network whose addresses a canonical list holds lies inside one network of that list. */
  lemma {:induction false} Fill(r: seq<Network>, x: Network)
    requires Canonical(r) && Valid(x) && Filled(r, x)
    ensures Absorbs(r, x)
    decreases 32 - x.prefix
  {
    assert Contains(x, x.base);
    if x.prefix == 32 {
      var k :| 0 <= k < |r| && Contains(r[k], x.base);
      assert Within(x, r[k]);
    } else {
      var lo, hi := Halves(x);
      FilledInside(r, x, lo);
      FilledInside(r, x, hi);
      Fill(r, lo);
      Fill(r, hi);
      var i :| 0 <= i < |r| && Within(lo, r[i]);
      var j :| 0 <= j < |r| && Within(hi, r[j]);
      if !Within(x, r[i]) && !Within(x, r[j]) {
        HalfOnly(x, lo, r[i]);
        HalfOnly(x, hi, r[j]);
        Abutting(r, i, j);
        assert false;
      }
    }
  }

  /** A network of a canonical list cannot be widened within the addresses the list holds. */
  lemma Maximal(r: seq<Network>, k: nat, m: Network)
    requires Canonical(r) && k < |r| && Valid(m) && Within(r[k], m) && Filled(r, m)
    ensures m == r[k]
  {
    Fill(r, m);
    var j :| 0 <= j < |r| && Within(m, r[j]);
    assert r[k].base < End(r[k]);
    assert j == k;
    WithinPrefix(m, r[k]);
    WithinPrefix(r[k], m);
  }

  /** Two lists hold the same addresses. */
  ghost predicate SameCover(r1: seq<Network>, r2: seq<Network>)
  {
    forall a :: Covers(r1, a) <==> Covers(r2, a)
  }

  lemma FilledByCover(r1: seq<Network>, r2: seq<Network>, j: nat)
    requires SameCover(r1, r2) && j < |r2|
    ensures Filled(r1, r2[j])
  {
    forall a | Contains(r2[j], a)
      ensures Covers(r1, a)
    {
      assert Covers(r2, a);
    }
  }

  /** Every network of a canonical list is a network of any other canonical list with the same addresses. */
  lemma SharedMember(r1: seq<Network>, r2: seq<Network>, k: nat)
    requires Canonical(r1) && Canonical(r2) && SameCover(r1, r2) && k < |r1|
    ensures r1[k] in r2
  {
    assert Contains(r1[k], r1[k].base);
    assert Covers(r1, r1[k].base);
    var j :| 0 <= j < |r2| && Contains(r2[j], r1[k].base);
    NestedEitherWay(r1[k], r2[j]);
    if Within(r1[k], r2[j]) {
      FilledByCover(r1, r2, j);
      Maximal(r1, k, r2[j]);
    } else {
      FilledByCover(r2, r1, k);
      Maximal(r2, j, r1[k]);
    }
  }

  /** Every network of `r1` is a network of `r2`. */
  ghost predicate MembersIn(r1: seq<Network>, r2: seq<Network>)
  {
    forall k :: 0 <= k < |r1| ==> r1[k] in r2
  }

  lemma CanonicalTail(r: seq<Network>)
    requires Canonical(r) && r != []
    ensures Canonical(r[1..])
  {
    var t := r[1..];
    forall i | 0 < i < |t|
      ensures !Siblings(t[i - 1], t[i])
    {
      assert t[i - 1] == r[i] && t[i] == r[i + 1];
    }
  }

  /** Dropping a common first network keeps the networks of one list among those of the other. */
  lemma MembersInTail(r1: seq<Network>, r2: seq<Network>)
    requires Canonical(r1) && r1 != [] && r2 != [] && r1[0] == r2[0] && MembersIn(r1, r2)
    ensures MembersIn(r1[1..], r2[1..])
  {
    var t1, t2 := r1[1..], r2[1..];
    forall k | 0 <= k < |t1|
      ensures t1[k] in t2
    {
      assert t1[k] == r1[k + 1];
      assert End(r1[0]) <= r1[k + 1].base;
      var m :| 0 <= m < |r2| && r2[m] == r1[k + 1];
      assert r2[m] == t2[m - 1];
    }
  }

  /** Two canonical lists with the same networks start with the same network. */
  lemma SameFirst(r1: seq<Network>, r2: seq<Network>)
    requires Canonical(r1) && Canonical(r2) && r1 != [] && r2 != []
    requires MembersIn(r1, r2) && MembersIn(r2, r1)
    ensures r1[0] == r2[0]
  {
    assert r1[0] in r2 && r2[0] in r1;
    var j :| 0 <= j < |r2| && r2[j] == r1[0];
    var i :| 0 <= i < |r1| && r1[i] == r2[0];
    assert r1[0].base <= r1[i].base;
    assert r2[0].base < End(r2[0]);
    assert j == 0;
  }

  /** Two canonical lists with the same networks are the same list. */
  lemma {:induction false} SameMembers(r1: seq<Network>, r2: seq<Network>)
    requires Canonical(r1) && Canonical(r2) && MembersIn(r1, r2) && MembersIn(r2, r1)
    ensures r1 == r2
    decreases |r1|
  {
    if r1 != [] {
      assert r1[0] in r2;
    }
    if r2 != [] {
      assert r2[0] in r1;
    }
    if r1 != [] && r2 != [] {
      SameFirst(r1, r2);
      CanonicalTail(r1);
      CanonicalTail(r2);
      MembersInTail(r1, r2);
      MembersInTail(r2, r1);
      SameMembers(r1[1..], r2[1..]);
      assert r1 == [r1[0]] + r1[1..] && r2 == [r2[0]] + r2[1..];
    }
  }

  /** Only one canonical list holds a given set of addresses. */
  lemma CanonicalUnique(r1: seq<Network>, r2: seq<Network>)
    requires Canonical(r1) && Canonical(r2) && SameCover(r1, r2)
    ensures r1 == r2
  {
    forall k | 0 <= k < |r1|
      ensures r1[k] in r2
    {
      SharedMember(r1, r2, k);
    }
    forall j | 0 <= j < |r2|
      ensures r2[j] in r1
    {
      SharedMember(r2, r1, j);
    }
    SameMembers(r1, r2);
  }

  /** A list with the addresses of the inputs holds exactly the addresses the inputs hold. */
  lemma SameAddressesCover(ns: seq<Network>, r: seq<Network>)
    requires SameAddresses(ns, r)
    ensures forall a :: Covers(ns, a) <==> Covers(r, a)
  {
    forall a | Covers(ns, a)
      ensures Covers(r, a)
    {
      var i :| 0 <= i < |ns| && Contains(ns[i], a);
      var k :| 0 <= k < |r| && Within(ns[i], r[k]);
    }
  }

  /**
    `Collapse` gives the one canonical list with the addresses of its input,
    so it agrees with any other collapse that returns a canonical list.
  */
  lemma CollapseUnique(ns: seq<Network>, r: seq<Network>)
    requires AllValid(ns) && Canonical(r) && SameAddresses(ns, r)
    ensures r == Collapse(ns)
  {
    SameAddressesCover(ns, r);
    SameAddressesCover(ns, Collapse(ns));
    CanonicalUnique(r, Collapse(ns));
  }

  /** 10.0.0.0/24 and 10.0.1.0/24 collapse to 10.0.0.0/23. */
  lemma CollapseMergesHalves()
    ensures Collapse([Network(0x0A00_0000, 24), Network(0x0A00_0100, 24)]) == [Network(0x0A00_0000, 23)]
  {
    var lo, hi := Network(0x0A00_0000, 24), Network(0x0A00_0100, 24);
    SizeValues();
    assert Size(23) == 512;
    assert Valid(lo) && Valid(hi);
    assert Supernet(lo) == Network(0x0A00_0000, 23);
    assert Supernet(hi) == Network(0x0A00_0000, 23);
    assert Collapse([lo]) == [lo];
    assert [lo, hi][..1] == [lo];
    assert Siblings(hi, lo);
    assert Insert([lo], hi) == Insert([], Supernet(hi));
  }

  // ---------------------------------------------------------------------
  // The specification: the smallest covering network

  /** Widens `n` one bit at a time until it holds `a`. */
  function Widen(n: Network, a: Address): (r: Network)
    requires Valid(n)
    ensures Valid(r) && Contains(r, a) && Within(n, r)
    decreases n.prefix
  {
    if Contains(n, a) then n
    else
      SizeValues();
      Widen(Supernet(n), a)
  }

  /** Widen stops at the first network that holds `a`: it stays inside every network that holds both. */
  lemma {:induction false} WidenLeast(n: Network, a: Address, m: Network)
    requires Valid(n) && Valid(m) && Within(n, m) && Contains(m, a)
    ensures Within(Widen(n, a), m)
    decreases n.prefix
  {
    if !Contains(n, a) {
      SupernetWithin(n, m);
      WidenLeast(Supernet(n), a, m);
    }
  }

  /** Reference definition: start from the /24 of the first address and widen for each further address. */
  function SmallestCover(ips: seq<Address>): (r: Network)
    requires |ips| > 0
    ensures Valid(r) && r.prefix <= 24
    ensures forall i :: 0 <= i < |ips| ==> Contains(r, ips[i])
  {
    if |ips| == 1 then Slash24(ips[0])
    else
      var init := SmallestCover(ips[..|ips| - 1]);
      var r := Widen(init, ips[|ips| - 1]);
      WithinPrefix(init, r);
      assert forall i :: 0 <= i < |ips| - 1 ==> ips[i] == ips[..|ips| - 1][i];
      r
  }

  /** A network of prefix length at most 24 that holds every address. */
  ghost predicate IsCover(n: Network, ips: seq<Address>)
  {
    Valid(n) && n.prefix <= 24 && forall i :: 0 <= i < |ips| ==> Contains(n, ips[i])
  }

  /** SmallestCover is a cover and lies inside every other cover. */
  lemma {:induction false} SmallestCoverIsLeast(ips: seq<Address>, m: Network)
    requires |ips| > 0 && IsCover(m, ips)
    ensures IsCover(SmallestCover(ips), ips) && Within(SmallestCover(ips), m)
    decreases |ips|
  {
    if |ips| == 1 {
      SharedAddress(Slash24(ips[0]), m, ips[0]);
    } else {
      var init := ips[..|ips| - 1];
      assert forall i :: 0 <= i < |init| ==> init[i] == ips[i];
      SmallestCoverIsLeast(init, m);
      WidenLeast(SmallestCover(init), ips[|ips| - 1], m);
    }
  }

  /** Only one network is a cover that lies inside every cover. */
  lemma LeastCoverUnique(ips: seq<Address>, n: Network, m: Network)
    requires IsCover(n, ips) && IsCover(m, ips)
    requires Within(n, m) && Within(m, n)
    ensures n == m
  {
    WithinPrefix(n, m);
    WithinPrefix(m, n);
  }

  // ---------------------------------------------------------------------
  // covering_cidr

  function Slash24s(ips: seq<Address>): (r: seq<Network>)
    ensures |r| == |ips| && AllValid(r)
    ensures forall i :: 0 <= i < |ips| ==> r[i] == Slash24(ips[i])
  {
    if ips == [] then [] else [Slash24(ips[0])] + Slash24s(ips[1..])
  }

  /**
    What holds of the list `networks` at each test of the widening loop: it
    is canonical and non-empty, every network in it lies inside the least
    cover and has a prefix of at most 24 bits, and together they hold every
    address.
  */
  ghost predicate LoopFacts(networks: seq<Network>, ips: seq<Address>, least: Network)
  {
    Canonical(networks) && |networks| >= 1 && AllInside(networks, least) && CoversAll(networks, ips)
  }

  ghost predicate AllInside(ns: seq<Network>, least: Network)
  {
    forall k :: 0 <= k < |ns| ==> ns[k].prefix <= 24 && Within(ns[k], least)
  }

  ghost predicate CoversAll(ns: seq<Network>, ips: seq<Address>)
  {
    forall i :: 0 <= i < |ips| ==> Covers(ns, ips[i])
  }

  /** One turn of the loop: the lowest network is replaced by its supernet and the list collapsed. */
  function WidenFirst(networks: seq<Network>): (r: seq<Network>)
    requires AllValid(networks) && |networks| >= 1 && networks[0].prefix >= 1
    ensures AllValid(r) && |r| == |networks|
    ensures r[0] == Supernet(networks[0]) && r[1..] == networks[1..]
  {
    [Supernet(networks[0])] + networks[1..]
  }

  /**
    The widening loop of `covering_cidr`: collapse the /24 networks of the
    addresses, then replace the lowest network by its supernet and collapse
    again until one network is left.
  */
  method CoveringCidr(ips: seq<Address>) returns (r: Network)
    requires |ips| > 0
    ensures r == SmallestCover(ips)
    ensures IsCover(r, ips)
  {
    ghost var least := SmallestCover(ips);
    var slash24s := Slash24s(ips);
    var networks := Collapse(slash24s);
    FirstCollapse(ips, slash24s, networks, least);
    while |networks| > 1
      invariant LoopFacts(networks, ips, least)
      decreases networks[0].prefix
    {
      ghost var before := networks[0].prefix;
      WidenStep(networks, ips, least);
      networks := Collapse(WidenFirst(networks));
      assert networks[0].prefix < before;
    }
    r := networks[0];
    LoopExit(networks, ips, least);
  }

  /** The list before the loop: the collapsed /24 networks of the addresses. */
  lemma FirstCollapse(ips: seq<Address>, slash24s: seq<Network>, networks: seq<Network>, least: Network)
    requires |ips| > 0 && least == SmallestCover(ips)
    requires slash24s == Slash24s(ips) && Canonical(networks) && SameAddresses(slash24s, networks)
    ensures LoopFacts(networks, ips, least)
  {
    forall i | 0 <= i < |slash24s|
      ensures Within(slash24s[i], least)
    {
      SharedAddress(slash24s[i], least, ips[i]);
    }
    OutputsInside(slash24s, networks, least);
    CoveredByCollapse(ips, slash24s, networks);
    assert Absorbs(networks, slash24s[0]);
    PrefixesAtMost24(slash24s, networks);
  }

  /** When one network is left it is the least cover. */
  lemma LoopExit(networks: seq<Network>, ips: seq<Address>, least: Network)
    requires |ips| > 0 && least == SmallestCover(ips)
    requires LoopFacts(networks, ips, least) && |networks| == 1
    ensures networks[0] == least && IsCover(least, ips)
  {
    var r := networks[0];
    forall i | 0 <= i < |ips|
      ensures Contains(r, ips[i])
    {
      var k :| 0 <= k < |networks| && Contains(networks[k], ips[i]);
    }
    SmallestCoverIsLeast(ips, r);
    LeastCoverUnique(ips, r, least);
  }

  /** A turn of the loop keeps its facts and shortens the prefix of the lowest network. */
  lemma WidenStep(networks: seq<Network>, ips: seq<Address>, least: Network)
    requires Valid(least) && LoopFacts(networks, ips, least) && |networks| > 1
    ensures networks[0].prefix >= 1
    ensures LoopFacts(Collapse(WidenFirst(networks)), ips, least)
    ensures Collapse(WidenFirst(networks))[0].prefix < networks[0].prefix
  {
    var first := networks[0];
    assert Within(networks[1], least);
    if first == least {
      assert false;
    }
    SupernetWithin(first, least);
    var widened := WidenFirst(networks);
    WidenedList(networks, widened, ips, least);
    AfterWiden(Collapse(widened), widened, ips, least, first);
  }

  lemma CoveredByCollapse(ips: seq<Address>, ins: seq<Network>, r: seq<Network>)
    requires |ins| == |ips| && forall i :: 0 <= i < |ips| ==> Contains(ins[i], ips[i])
    requires SameAddresses(ins, r)
    ensures CoversAll(r, ips)
  {
    forall i | 0 <= i < |ips|
      ensures Covers(r, ips[i])
    {
      var k :| 0 <= k < |r| && Within(ins[i], r[k]);
    }
  }

  lemma PrefixesAtMost24(ins: seq<Network>, r: seq<Network>)
    requires AllValid(ins) && Canonical(r) && SameAddresses(ins, r)
    requires forall i :: 0 <= i < |ins| ==> ins[i].prefix <= 24
    ensures forall k :: 0 <= k < |r| ==> r[k].prefix <= 24
  {
    forall k | 0 <= k < |r|
      ensures r[k].prefix <= 24
    {
      OutputHoldsInput(ins, r, k);
      var i :| 0 <= i < |ins| && Within(ins[i], r[k]);
      WithinPrefix(ins[i], r[k]);
    }
  }

  /** The list handed to `collapse` in one turn of the loop keeps the loop's facts. */
  lemma WidenedList(networks: seq<Network>, widened: seq<Network>, ips: seq<Address>, least: Network)
    requires Canonical(networks) && |networks| >= 1 && networks[0].prefix >= 1
    requires widened == WidenFirst(networks)
    requires Within(Supernet(networks[0]), least)
    requires AllInside(networks, least) && CoversAll(networks, ips)
    ensures forall k :: 1 <= k < |widened| ==> End(networks[0]) <= widened[k].base
    ensures AllInside(widened, least) && CoversAll(widened, ips)
  {
    forall k | 1 <= k < |widened|
      ensures widened[k] == networks[k]
    {
      assert widened[k] == widened[1..][k - 1];
    }
    forall i | 0 <= i < |ips|
      ensures Covers(widened, ips[i])
    {
      var k :| 0 <= k < |networks| && Contains(networks[k], ips[i]);
    }
  }

  /** After a turn of the loop the facts hold again and the lowest network has a shorter prefix. */
  lemma AfterWiden(networks: seq<Network>, widened: seq<Network>, ips: seq<Address>, least: Network, first: Network)
    requires Valid(first) && first.prefix >= 1 && |widened| >= 1 && widened[0] == Supernet(first)
    requires forall k :: 1 <= k < |widened| ==> End(first) <= widened[k].base
    requires AllValid(widened) && Canonical(networks) && SameAddresses(widened, networks)
    requires AllInside(widened, least) && CoversAll(widened, ips)
    ensures LoopFacts(networks, ips, least) && networks[0].prefix < first.prefix
  {
    OutputsInside(widened, networks, least);
    CoveredByCollapse2(ips, widened, networks);
    PrefixesAtMost24(widened, networks);
    assert Absorbs(networks, widened[0]);
    assert Contains(networks[0], networks[0].base);
    FirstShrinks(networks, widened, first);
  }

  /**
    The supernet that replaced the lowest network ends up inside the new
    lowest network, given that the supernet lies inside some output network
    and the lowest output address comes from some input network.
  */
  lemma FirstShrinks(networks: seq<Network>, widened: seq<Network>, first: Network)
    requires Valid(first) && first.prefix >= 1 && |widened| >= 1 && widened[0] == Supernet(first)
    requires forall k :: 1 <= k < |widened| ==> End(first) <= widened[k].base
    requires Canonical(networks) && |networks| >= 1
    requires Absorbs(networks, widened[0]) && Covers(widened, networks[0].base)
    ensures networks[0].prefix < first.prefix
  {
    var s := widened[0];
    var k :| 0 <= k < |networks| && Within(s, networks[k]);
    // every input network starts at or above the supernet, so the lowest
    // output address does too
    var j :| 0 <= j < |widened| && Contains(widened[j], networks[0].base);
    assert s.base <= first.base < End(first);
    assert s.base <= widened[j].base;
    assert s.base < End(networks[0]);
    assert k == 0;
    WithinPrefix(s, networks[0]);
  }

  lemma CoveredByCollapse2(ips: seq<Address>, ins: seq<Network>, r: seq<Network>)
    requires CoversAll(ins, ips)
    requires SameAddresses(ins, r)
    ensures CoversAll(r, ips)
  {
    forall i | 0 <= i < |ips|
      ensures Covers(r, ips[i])
    {
      var j :| 0 <= j < |ins| && Contains(ins[j], ips[i]);
      var k :| 0 <= k < |r| && Within(ins[j], r[k]);
    }
  }
}
