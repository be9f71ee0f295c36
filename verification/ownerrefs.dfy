/** Owner-reference lists of Kubernetes objects. */
module OwnerReferences {
  import opened Text

  datatype OwnerRef = OwnerRef(apiVersion: string, kind: string, name: string, uid: string)

  type Comparator = (OwnerRef, OwnerRef) -> bool

  predicate EqualKinds(a: OwnerRef, b: OwnerRef) {
    a.apiVersion == b.apiVersion && a.kind == b.kind
  }

  predicate EqualRefs(a: OwnerRef, b: OwnerRef) {
    EqualKinds(a, b) && a.name == b.name
  }

  predicate MatchesAny(same: Comparator, r: OwnerRef, refs: seq<OwnerRef>) {
    exists i | 0 <= i < |refs| :: same(r, refs[i])
  }

  /** The references that match none of `refs`, in their order. */
  function Without(same: Comparator, own: seq<OwnerRef>, refs: seq<OwnerRef>): seq<OwnerRef> {
    if own == [] then []
    else
      var front := Without(same, own[..|own| - 1], refs);
      var last := own[|own| - 1];
      if MatchesAny(same, last, refs) then front else front + [last]
  }

  function Ensured(same: Comparator, own: seq<OwnerRef>, ref: OwnerRef): seq<OwnerRef> {
    Without(same, own, [ref]) + [ref]
  }

  class Object {
    var ownerReferences: seq<OwnerRef>

    method RemoveOwnerReference(same: Comparator, refs: seq<OwnerRef>)
      modifies this
      ensures ownerReferences == Without(same, old(ownerReferences), refs)
    {
      var own := ownerReferences;
      var kept := [];
      for i := 0 to |own|
        invariant kept == Without(same, own[..i], refs)
      {
        var valid := true;
        var j := 0;
        while j < |refs| && valid
          invariant 0 <= j <= |refs|
          invariant valid ==> forall k :: 0 <= k < j ==> !same(own[i], refs[k])
          invariant !valid ==> MatchesAny(same, own[i], refs)
        {
          valid := !same(own[i], refs[j]);
          j := j + 1;
        }
        if valid {
          kept := kept + [own[i]];
        }
        assert own[..i + 1][..i] == own[..i];
      }
      assert own[..|own|] == own;
      ownerReferences := kept;
    }

    method EnsureOwnerReference(ref: OwnerRef)
      modifies this
      ensures ownerReferences == Ensured(EqualRefs, old(ownerReferences), ref)
    {
      RemoveOwnerReference(EqualRefs, [ref]);
      ownerReferences := ownerReferences + [ref];
    }

    method EnsureUniqueOwnerReference(ref: OwnerRef)
      modifies this
      ensures ownerReferences == Ensured(EqualKinds, old(ownerReferences), ref)
    {
      RemoveOwnerReference(EqualKinds, [ref]);
      ownerReferences := ownerReferences + [ref];
    }
  }

  // ---------- what the list operations mean ----------

  /** Positions `at[0] < at[1] < ...` of `own` whose references are, in that order, the kept ones. */
  ghost predicate KeptAt(own: seq<OwnerRef>, kept: seq<OwnerRef>, at: seq<nat>) {
    && |at| == |kept|
    && (forall i :: 0 <= i < |at| ==> at[i] < |own| && own[at[i]] == kept[i])
    && (forall i, j :: 0 <= i < j < |at| ==> at[i] < at[j])
  }

  /** The last reference is kept, or not. */
  lemma KeptSnoc(own: seq<OwnerRef>, kept: seq<OwnerRef>, at: seq<nat>)
    requires own != [] && KeptAt(own[..|own| - 1], kept, at)
    ensures KeptAt(own, kept, at) && KeptAt(own, kept + [own[|own| - 1]], at + [|own| - 1])
    ensures |own| - 1 !in at && forall p :: p in at + [|own| - 1] <==> p in at || p == |own| - 1
  {
    var n := |own| - 1;
    assert forall i :: 0 <= i < |at| ==> at[i] < n && own[at[i]] == own[..n][at[i]];
  }

  /** Removal keeps the other references in order and drops exactly the matching positions. */
  lemma {:induction false} WithoutExact(same: Comparator, own: seq<OwnerRef>, refs: seq<OwnerRef>)
    returns (at: seq<nat>)
    ensures KeptAt(own, Without(same, own, refs), at)
    ensures forall p :: 0 <= p < |own| ==> (p in at <==> !MatchesAny(same, own[p], refs))
  {
    if own == [] {
      at := [];
    } else {
      hide KeptAt;
      var n := |own| - 1;
      var front := WithoutExact(same, own[..n], refs);
      KeptSnoc(own, Without(same, own[..n], refs), front);
      at := if MatchesAny(same, own[n], refs) then front else front + [n];
      assert forall p :: 0 <= p < n ==> own[..n][p] == own[p];
    }
  }

  /** Exactly one reference of the kind is left, the given one, at the end; everything else stays, in order. */
  lemma EnsureUniqueExact(own: seq<OwnerRef>, ref: OwnerRef) returns (at: seq<nat>)
    ensures var r := Ensured(EqualKinds, own, ref);
            && r[|r| - 1] == ref
            && (forall i :: 0 <= i < |r| - 1 ==> r[i].apiVersion != ref.apiVersion || r[i].kind != ref.kind)
            && KeptAt(own, r[..|r| - 1], at)
    ensures forall p :: 0 <= p < |own| ==>
              (p in at <==> own[p].apiVersion != ref.apiVersion || own[p].kind != ref.kind)
  {
    at := WithoutExact(EqualKinds, own, [ref]);
    forall p | 0 <= p < |own| ensures MatchesAny(EqualKinds, own[p], [ref]) <==> EqualKinds(own[p], ref) {
      assert EqualKinds(own[p], ref) ==> EqualKinds(own[p], [ref][0]);
    }
    var kept := Without(EqualKinds, own, [ref]);
    forall i | 0 <= i < |kept| ensures !EqualKinds(kept[i], ref) { assert at[i] in at; }
    assert Ensured(EqualKinds, own, ref)[..|kept|] == kept;
  }

  /** The same by version, kind and name: references of the kind under another name stay. */
  lemma EnsureExact(own: seq<OwnerRef>, ref: OwnerRef) returns (at: seq<nat>)
    ensures var r := Ensured(EqualRefs, own, ref);
            && r[|r| - 1] == ref
            && (forall i :: 0 <= i < |r| - 1 ==>
                  r[i].apiVersion != ref.apiVersion || r[i].kind != ref.kind || r[i].name != ref.name)
            && KeptAt(own, r[..|r| - 1], at)
    ensures forall p :: 0 <= p < |own| ==>
              (p in at <==> own[p].apiVersion != ref.apiVersion || own[p].kind != ref.kind || own[p].name != ref.name)
  {
    at := WithoutExact(EqualRefs, own, [ref]);
    forall p | 0 <= p < |own| ensures MatchesAny(EqualRefs, own[p], [ref]) <==> EqualRefs(own[p], ref) {
      assert EqualRefs(own[p], ref) ==> EqualRefs(own[p], [ref][0]);
    }
    var kept := Without(EqualRefs, own, [ref]);
    forall i | 0 <= i < |kept| ensures !EqualRefs(kept[i], ref) { assert at[i] in at; }
    assert Ensured(EqualRefs, own, ref)[..|kept|] == kept;
  }

  lemma {:induction false} WithoutConcat(same: Comparator, own: seq<OwnerRef>, more: seq<OwnerRef>, refs: seq<OwnerRef>)
    ensures Without(same, own + more, refs) == Without(same, own, refs) + Without(same, more, refs)
  {
    if more == [] {
      assert own + more == own;
    } else {
      var n := |more| - 1;
      WithoutConcat(same, own, more[..n], refs);
      assert (own + more)[..|own| + n] == own + more[..n];
    }
  }

  lemma {:induction false} WithoutCommutes(same: Comparator, own: seq<OwnerRef>, xs: seq<OwnerRef>, ys: seq<OwnerRef>)
    ensures Without(same, Without(same, own, xs), ys) == Without(same, Without(same, own, ys), xs)
    ensures xs == ys ==> Without(same, Without(same, own, xs), ys) == Without(same, own, xs)
  {
    if own == [] {
    } else {
      var n := |own| - 1;
      var last := own[n];
      WithoutCommutes(same, own[..n], xs, ys);
      WithoutConcat(same, Without(same, own[..n], xs), [last], ys);
      WithoutConcat(same, Without(same, own[..n], ys), [last], xs);
      assert [last][..0] == [];
    }
  }

  lemma WithoutOne(same: Comparator, r: OwnerRef, ref: OwnerRef)
    ensures Without(same, [r], [ref]) == if same(r, ref) then [] else [r]
  {
    assert [r][..0] == [];
    assert same(r, ref) ==> same(r, [ref][0]);
  }

  lemma EnsureUniqueIdempotent(own: seq<OwnerRef>, ref: OwnerRef)
    ensures Ensured(EqualKinds, Ensured(EqualKinds, own, ref), ref) == Ensured(EqualKinds, own, ref)
  {
    WithoutConcat(EqualKinds, Without(EqualKinds, own, [ref]), [ref], [ref]);
    WithoutCommutes(EqualKinds, own, [ref], [ref]);
    WithoutOne(EqualKinds, ref, ref);
  }

  // ---------- sorting ----------

  predicate RefLess(a: OwnerRef, b: OwnerRef) {
    if a.apiVersion != b.apiVersion then Less(a.apiVersion, b.apiVersion)
    else if a.kind != b.kind then Less(a.kind, b.kind)
    else Less(a.name, b.name)
  }

  lemma RefLessTotal(a: OwnerRef, b: OwnerRef)
    ensures EqualRefs(a, b) || RefLess(a, b) || RefLess(b, a)
    ensures RefLess(a, b) ==> !EqualRefs(a, b) && !RefLess(b, a)
  {
    LessTotal(a.apiVersion, b.apiVersion);
    LessTotal(a.kind, b.kind);
    LessTotal(a.name, b.name);
  }

  /** Not greater is transitive. */
  lemma NotGreaterTransitive(a: OwnerRef, b: OwnerRef, c: OwnerRef)
    requires !RefLess(b, a) && !RefLess(c, b)
    ensures !RefLess(c, a)
  {
    RefLessTotal(a, b);
    RefLessTotal(b, c);
    RefLessTotal(a, c);
    if RefLess(a, b) && RefLess(b, c) && RefLess(c, a) {
      if a.apiVersion == b.apiVersion == c.apiVersion {
        if a.kind == b.kind == c.kind {
          LessTransitive(a.name, b.name, c.name);
          LessTotal(a.name, c.name);
        } else {
          Cycle(a.kind, b.kind, c.kind);
        }
      } else {
        Cycle(a.apiVersion, b.apiVersion, c.apiVersion);
      }
    }
  }

  lemma Cycle(a: string, b: string, c: string)
    requires !(a == b == c)
    ensures !((a == b || Less(a, b)) && (b == c || Less(b, c)) && (c == a || Less(c, a)))
  {
    LessTotal(a, b);
    LessTotal(b, c);
    LessTotal(a, c);
    if Less(a, b) && Less(b, c) { LessTransitive(a, b, c); }
  }

  ghost predicate Sorted(refs: seq<OwnerRef>) {
    forall i, j :: 0 <= i < j < |refs| ==> !RefLess(refs[j], refs[i])
  }

  /** Sorted by version, then by kind, then by name. */
  lemma SortedExact(refs: seq<OwnerRef>)
    ensures Sorted(refs) <==> forall i, j :: 0 <= i < j < |refs| ==>
              var a, b := refs[i], refs[j];
              || Less(a.apiVersion, b.apiVersion)
              || (a.apiVersion == b.apiVersion && Less(a.kind, b.kind))
              || (a.apiVersion == b.apiVersion && a.kind == b.kind && (a.name == b.name || Less(a.name, b.name)))
  {
    forall a, b ensures !RefLess(b, a) <==>
                        || Less(a.apiVersion, b.apiVersion)
                        || (a.apiVersion == b.apiVersion && Less(a.kind, b.kind))
                        || (&& a.apiVersion == b.apiVersion && a.kind == b.kind
                            && (a.name == b.name || Less(a.name, b.name)))
    {
      LessTotal(a.apiVersion, b.apiVersion);
      LessTotal(a.kind, b.kind);
      LessTotal(a.name, b.name);
    }
  }

  /** `SortOwnerReferences`; `sort.Slice` promises some sorted permutation, here reached by selection. */
  method SortOwnerReferences(refs: array<OwnerRef>)
    modifies refs
    ensures Sorted(refs[..])
    ensures multiset(refs[..]) == multiset(old(refs[..]))
  {
    for i := 0 to refs.Length
      invariant forall p, q :: 0 <= p < q < refs.Length && p < i ==> !RefLess(refs[q], refs[p])
      invariant multiset(refs[..]) == multiset(old(refs[..]))
    {
      var m := LeastFrom(refs, i);
      refs[i], refs[m] := refs[m], refs[i];
    }
  }

  method LeastFrom(refs: array<OwnerRef>, i: nat) returns (m: nat)
    requires i < refs.Length
    ensures i <= m < refs.Length
    ensures forall k :: i <= k < refs.Length ==> !RefLess(refs[k], refs[m])
  {
    m := i;
    RefLessTotal(refs[i], refs[i]);
    for j := i + 1 to refs.Length
      invariant i <= m < j
      invariant forall k :: i <= k < j ==> !RefLess(refs[k], refs[m])
    {
      RefLessTotal(refs[j], refs[m]);
      RefLessTotal(refs[j], refs[j]);
      if RefLess(refs[j], refs[m]) {
        forall k | i <= k < j ensures !RefLess(refs[k], refs[j]) {
          NotGreaterTransitive(refs[j], refs[m], refs[k]);
        }
        m := j;
      }
    }
  }

  ghost predicate DistinctKeys(refs: seq<OwnerRef>) {
    forall i, j :: 0 <= i < j < |refs| ==> !EqualRefs(refs[i], refs[j])
  }

  lemma SameHead(a: seq<OwnerRef>, b: seq<OwnerRef>)
    requires a != [] && b != [] && multiset(a) == multiset(b)
    requires Sorted(a) && Sorted(b) && DistinctKeys(a)
    ensures a[0] == b[0]
  {
    assert a[0] in multiset(b) && b[0] in multiset(a);
    var i :| 0 <= i < |b| && b[i] == a[0];
    var j :| 0 <= j < |a| && a[j] == b[0];
    RefLessTotal(a[0], a[j]);
  }

  lemma TailSorted(a: seq<OwnerRef>)
    requires a != [] && Sorted(a)
    ensures Sorted(a[1..]) && (DistinctKeys(a) ==> DistinctKeys(a[1..]))
  {
  }

  /** Two lists with the same elements have the same length, and without a common head still the same elements. */
  lemma TailElements(a: seq<OwnerRef>, b: seq<OwnerRef>)
    requires multiset(a) == multiset(b)
    ensures |a| == |b| && (a != [] && a[0] == b[0] ==> multiset(a[1..]) == multiset(b[1..]))
  {
    assert |a| == |multiset(a)| == |multiset(b)| == |b|;
    if a != [] {
      assert a == [a[0]] + a[1..] && b == [b[0]] + b[1..];
      assert multiset(a[1..]) == multiset(a) - multiset{a[0]} && multiset(b[1..]) == multiset(b) - multiset{b[0]};
    }
  }

  /** With distinct keys there is only one sorted order, so an unstable sort has one possible result. */
  lemma {:induction false} SortedUnique(a: seq<OwnerRef>, b: seq<OwnerRef>)
    requires multiset(a) == multiset(b)
    requires Sorted(a) && Sorted(b) && DistinctKeys(a)
    ensures a == b
  {
    TailElements(a, b);
    if a == [] {
    } else {
      hide Sorted, DistinctKeys;
      SameHead(a, b);
      TailSorted(a);
      TailSorted(b);
      SortedUnique(a[1..], b[1..]);
      assert a == [a[0]] + a[1..] && b == [b[0]] + b[1..];
    }
  }

  /** Ensuring references of two different kinds in either order gives, once sorted, the same list. */
  lemma EnsureUniqueCommutes(own: seq<OwnerRef>, x: OwnerRef, y: OwnerRef, xy: seq<OwnerRef>, yx: seq<OwnerRef>)
    requires !EqualKinds(x, y)
    requires Sorted(xy) && multiset(xy) == multiset(Ensured(EqualKinds, Ensured(EqualKinds, own, x), y))
    requires Sorted(yx) && multiset(yx) == multiset(Ensured(EqualKinds, Ensured(EqualKinds, own, y), x))
    requires DistinctKeys(xy)
    ensures xy == yx
  {
    var rest := Without(EqualKinds, Without(EqualKinds, own, [x]), [y]);
    WithoutCommutes(EqualKinds, own, [x], [y]);
    WithoutConcat(EqualKinds, Without(EqualKinds, own, [x]), [x], [y]);
    WithoutConcat(EqualKinds, Without(EqualKinds, own, [y]), [y], [x]);
    WithoutOne(EqualKinds, x, y);
    WithoutOne(EqualKinds, y, x);
    assert Ensured(EqualKinds, Ensured(EqualKinds, own, x), y) == rest + [x] + [y];
    assert Ensured(EqualKinds, Ensured(EqualKinds, own, y), x) == rest + [y] + [x];
    SortedUnique(xy, yx);
  }
}
