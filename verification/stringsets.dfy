/** The comma-joined UID set kept in the cleaned-up-loadbalancers annotation. */
module StringSets {
  import opened Text

  /** What can be stored as one element of the annotation. */
  predicate IsItem(x: string) {
    x != "" && ',' !in x
  }

  predicate AllItems(s: set<string>) {
    forall x :: x in s ==> IsItem(x)
  }

  function Parse(list: string): set<string> {
    set x | x in Split(list, ',') && x != ""
  }

  /** `encodeStringSet`. */
  function Encode(s: set<string>): string {
    Join(SortedList(s), ',')
  }

  /** `parseStringSet`, as the loop it is. */
  method ParseStringSet(list: string) returns (s: set<string>)
    ensures s == Parse(list)
  {
    var items := Split(list, ',');
    s := {};
    for i := 0 to |items|
      invariant s == set x | x in items[..i] && x != ""
    {
      assert items[..i + 1] == items[..i] + [items[i]];
      if |items[i]| > 0 {
        s := s + {items[i]};
      }
    }
    assert items[..|items|] == items;
  }

  /** The parsed set holds exactly the non-empty stretches between commas, each storable again. */
  lemma ParseExact(list: string, x: string)
    ensures x in Parse(list) <==> x != "" && HasField(list, x, ',')
    ensures AllItems(Parse(list))
  {
    SplitExact(list, x, ',');
    forall y | y in Parse(list) ensures IsItem(y) { SplitExact(list, y, ','); }
  }

  /** The encoded text has the elements as its comma-separated fields, once each and in ascending order. */
  lemma EncodeExact(s: set<string>)
    requires AllItems(s)
    ensures s == {} <==> Encode(s) == ""
    ensures s != {} ==> var fields := Split(Encode(s), ',');
                        Ascending(fields) && |fields| == |s| && forall x :: x in fields <==> x in s
  {
    var xs := SortedList(s);
    assert forall x :: x in xs <==> x in Elements(xs);
    if xs != [] {
      SplitJoin(xs, ',');
      assert xs[0] in xs;
      assert Split("", ',') == [""];
    }
  }

  /** Decoding undoes encoding. */
  lemma RoundTrip(s: set<string>)
    requires AllItems(s)
    ensures Parse(Encode(s)) == s
  {
    var xs := SortedList(s);
    assert forall x :: x in xs <==> x in Elements(xs);
    if xs != [] {
      SplitJoin(xs, ',');
    } else {
      assert s == Elements([]) == {};
    }
  }

  /** Encoding after parsing keeps the set, is idempotent, and identifies exactly the lists with the same set. */
  lemma EncodeNormalises(a: string, b: string)
    ensures Parse(Encode(Parse(a))) == Parse(a)
    ensures Encode(Parse(Encode(Parse(a)))) == Encode(Parse(a))
    ensures Encode(Parse(a)) == Encode(Parse(b)) <==> Parse(a) == Parse(b)
  {
    ParseExact(a, "");
    ParseExact(b, "");
    RoundTrip(Parse(a));
    RoundTrip(Parse(b));
  }

  /** The lister wait's substring test finds a UID exactly when it occurs inside some element. */
  lemma ContainsElement(s: set<string>, u: string)
    requires AllItems(s) && IsItem(u)
    ensures Contains(Encode(s), u) <==> exists x :: x in s && Contains(x, u)
  {
    var xs := SortedList(s);
    ContainsJoin(xs, ',', u);
    assert forall x :: x in xs <==> x in Elements(xs);
  }

  lemma ContainsSelf(u: string)
    ensures Contains(u, u)
  {
    assert OccursAt(u, u, 0) by { assert u[0..|u|] == u; }
  }

  /**
   The substring test is membership exactly when no other element has the UID inside it;
   UIDs of one length, such as the 36 characters of section 3 of RFC 4122, always qualify.
   */
  lemma ContainsIsMembership(s: set<string>, u: string)
    requires AllItems(s) && IsItem(u)
    ensures (Contains(Encode(s), u) <==> u in s) <==> (u in s || forall x :: x in s ==> !Contains(x, u))
    ensures (forall x :: x in s ==> |x| == |u|) ==> (Contains(Encode(s), u) <==> u in s)
  {
    ContainsElement(s, u);
    ContainsSelf(u);
    if forall x :: x in s ==> |x| == |u| {
      forall x | x in s && Contains(x, u) ensures x == u {
        var i :| 0 <= i <= |x| && OccursAt(x, u, i);
        assert x[0..|x|] == x;
      }
    }
  }

  /** Without one common length the wait can be satisfied by a longer element. */
  lemma ContainsFooled()
    ensures Contains(Encode({"ab"}), "a") && "a" !in {"ab"}
  {
    ContainsElement({"ab"}, "a");
    assert OccursAt("ab", "a", 0);
    assert Contains("ab", "a");
  }
}
