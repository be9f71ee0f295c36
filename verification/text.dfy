/** Go's string order and the `strings` functions the rest of the project leans on. */
module Text {

  // ---------- order ----------

  /** Go's `<` on strings. */
  predicate Less(a: string, b: string) {
    if b == "" then false
    else if a == "" then true
    else a[0] < b[0] || (a[0] == b[0] && Less(a[1..], b[1..]))
  }

  lemma {:induction false} LessTotal(a: string, b: string)
    ensures a == b || Less(a, b) || Less(b, a)
    ensures Less(a, b) ==> a != b && !Less(b, a)
  {
    if a != "" && b != "" && a[0] == b[0] {
      LessTotal(a[1..], b[1..]);
      assert a == [a[0]] + a[1..] && b == [b[0]] + b[1..];
    }
  }

  lemma {:induction false} LessTransitive(a: string, b: string, c: string)
    requires Less(a, b) && Less(b, c)
    ensures Less(a, c)
  {
    if a != "" && a[0] == b[0] == c[0] {
      LessTransitive(a[1..], b[1..], c[1..]);
    }
  }

  /** After `k` common characters `a` is at its end and `b` is not, or `a` goes on with the smaller one. */
  ghost predicate BelowAt(a: string, b: string, k: nat) {
    k <= |a| && k < |b| && a[..k] == b[..k] && (k == |a| || a[k] < b[k])
  }

  /** The order by characters: the shorter of two that agree comes first, otherwise the first difference decides. */
  lemma {:induction false} LessExact(a: string, b: string)
    ensures Less(a, b) <==> exists k: nat :: BelowAt(a, b, k)
  {
    if a == "" || b == "" || a[0] != b[0] {
      assert BelowAt(a, b, 0) <==> Less(a, b);
      forall k: nat | BelowAt(a, b, k) ensures k == 0 { BelowHead(a, b, k); }
    } else {
      LessExact(a[1..], b[1..]);
      forall k: nat ensures BelowAt(a[1..], b[1..], k) <==> BelowAt(a, b, k + 1) { BelowShift(a, b, k); }
      forall k: nat | BelowAt(a, b, k) ensures k > 0 && BelowAt(a[1..], b[1..], k - 1) {
        if k > 0 { BelowShift(a, b, k - 1); }
      }
    }
  }

  lemma BelowHead(a: string, b: string, k: nat)
    requires BelowAt(a, b, k)
    ensures k > 0 ==> a != "" && b != "" && a[0] == b[0]
  {
    if k > 0 { assert a[..k][0] == b[..k][0]; }
  }

  lemma BelowShift(a: string, b: string, k: nat)
    requires a != "" && b != "" && a[0] == b[0]
    ensures BelowAt(a[1..], b[1..], k) <==> BelowAt(a, b, k + 1)
  {
    if k + 1 <= |a| && k + 1 <= |b| {
      assert a[..k + 1] == [a[0]] + a[1..][..k] && b[..k + 1] == [b[0]] + b[1..][..k];
    }
  }

  ghost predicate Ascending(xs: seq<string>) {
    forall i, j :: 0 <= i < j < |xs| ==> Less(xs[i], xs[j])
  }

  ghost function Elements(xs: seq<string>): set<string> {
    set x | x in xs
  }

  predicate IsLeast(m: string, s: set<string>) {
    m in s && forall y :: y in s && y != m ==> Less(m, y)
  }

  lemma {:induction false} LeastExists(s: set<string>) returns (m: string)
    requires s != {}
    ensures IsLeast(m, s)
  {
    m :| m in s;
    if s != {m} {
      var k := LeastExists(s - {m});
      LessTotal(m, k);
      forall y | y in s && y != m && y != k ensures Less(if Less(m, k) then m else k, y) {
        if Less(m, k) { LessTransitive(m, k, y); }
      }
      m := if Less(m, k) then m else k;
    }
  }

  lemma LeastUnique(s: set<string>)
    requires s != {}
    ensures exists m :: IsLeast(m, s)
    ensures forall m, k :: IsLeast(m, s) && IsLeast(k, s) ==> m == k
  {
    var least := LeastExists(s);
    forall m, k | IsLeast(m, s) && IsLeast(k, s) ensures m == k { LessTotal(m, k); }
  }

  /** The elements of a set in ascending order, as `sets.String.List` returns them. */
  function SortedList(s: set<string>): (xs: seq<string>)
    ensures Ascending(xs) && Elements(xs) == s && |xs| == |s|
  {
    if s == {} then []
    else
      LeastUnique(s);
      var m :| IsLeast(m, s);
      var rest := SortedList(s - {m});
      AscendingCons(m, rest, s);
      [m] + rest
  }

  lemma AscendingCons(m: string, rest: seq<string>, s: set<string>)
    requires IsLeast(m, s) && Ascending(rest) && Elements(rest) == s - {m} && |rest| == |s - {m}|
    ensures Ascending([m] + rest) && Elements([m] + rest) == s && |[m] + rest| == |s|
  {
    assert forall j :: 0 <= j < |rest| ==> rest[j] in Elements(rest);
    forall x ensures x in Elements([m] + rest) <==> x in s {
      assert x in [m] + rest <==> x == m || x in rest;
      assert x in rest <==> x in Elements(rest);
    }
  }

  // ---------- separators ----------

  /** `strings.Split` at a one-character separator; the empty string has one, empty, field. */
  function Split(s: string, sep: char): (fields: seq<string>)
    ensures |fields| > 0
  {
    if s == "" then [""] else Push(s[0], sep, Split(s[1..], sep))
  }

  /** The fields after one more character in front. */
  function Push(c: char, sep: char, fields: seq<string>): (r: seq<string>)
    requires |fields| > 0
    ensures |r| > 0
  {
    if c == sep then [""] + fields else [[c] + fields[0]] + fields[1..]
  }

  /** `strings.Join`. */
  function Join(xs: seq<string>, sep: char): string {
    if xs == [] then ""
    else if |xs| == 1 then xs[0]
    else xs[0] + [sep] + Join(xs[1..], sep)
  }

  lemma {:induction false} SplitNone(s: string, sep: char)
    requires sep !in s
    ensures Split(s, sep) == [s]
  {
    if s != "" {
      SplitNone(s[1..], sep);
      assert s == [s[0]] + s[1..];
    }
  }

  lemma PushConcat(c: char, sep: char, fields: seq<string>, more: seq<string>)
    requires |fields| > 0
    ensures Push(c, sep, fields + more) == Push(c, sep, fields) + more
  {
    assert (fields + more)[1..] == fields[1..] + more;
  }

  /** Splitting distributes over a separator. */
  lemma {:induction false} SplitConcat(a: string, b: string, sep: char)
    ensures Split(a + [sep] + b, sep) == Split(a, sep) + Split(b, sep)
  {
    var s := a + [sep] + b;
    if a == "" {
      assert s[1..] == b;
    } else {
      SplitConcat(a[1..], b, sep);
      assert s[1..] == a[1..] + [sep] + b && s[0] == a[0];
      PushConcat(a[0], sep, Split(a[1..], sep), Split(b, sep));
    }
  }

  /** Split undoes Join on a non-empty list of separator-free strings. */
  lemma {:induction false} SplitJoin(xs: seq<string>, sep: char)
    requires xs != []
    requires forall x :: x in xs ==> sep !in x
    ensures Split(Join(xs, sep), sep) == xs
  {
    SplitNone(xs[0], sep);
    if |xs| > 1 {
      SplitJoin(xs[1..], sep);
      SplitConcat(xs[0], Join(xs[1..], sep), sep);
      assert xs == [xs[0]] + xs[1..];
    }
  }

  /** Join undoes Split. */
  lemma {:induction false} JoinSplit(s: string, sep: char)
    ensures Join(Split(s, sep), sep) == s
  {
    if s != "" {
      var rest := Split(s[1..], sep);
      JoinSplit(s[1..], sep);
      assert s == [s[0]] + s[1..];
      assert Push(s[0], sep, rest)[1..] == if s[0] == sep then rest else rest[1..];
    }
  }

  /** `x` stands in `s` between two separators or ends: the reference meaning of a field. */
  ghost predicate FieldAt(s: string, x: string, sep: char, i: nat) {
    && i + |x| <= |s| && s[i..i + |x|] == x && sep !in x
    && (i == 0 || s[i - 1] == sep)
    && (i + |x| == |s| || s[i + |x|] == sep)
  }

  ghost predicate HasField(s: string, x: string, sep: char) {
    exists i :: FieldAt(s, x, sep, i)
  }

  lemma FieldsCut(s: string, x: string, sep: char, k: nat)
    requires k < |s| && s[k] == sep && sep !in s[..k]
    ensures HasField(s, x, sep) <==> x == s[..k] || HasField(s[k + 1..], x, sep)
  {
    if x == s[..k] {
      assert FieldAt(s, x, sep, 0);
    }
    var b := s[k + 1..];
    forall i: nat | FieldAt(b, x, sep, i) ensures FieldAt(s, x, sep, k + 1 + i) { FieldShift(s, x, sep, k, i); }
    forall i: nat | FieldAt(s, x, sep, i) ensures x == s[..k] || HasField(b, x, sep) {
      if i > k {
        FieldShift(s, x, sep, k, i - k - 1);
      } else {
        FieldFirst(s, x, sep, k, i);
      }
    }
  }

  lemma FieldFirst(s: string, x: string, sep: char, k: nat, i: nat)
    requires k < |s| && s[k] == sep && sep !in s[..k]
    requires FieldAt(s, x, sep, i) && i <= k
    ensures x == s[..k]
  {
    assert forall j :: i <= j < i + |x| ==> s[j] == x[j - i];
    assert forall j :: 0 <= j < k ==> s[..k][j] == s[j];
  }

  /** Split returns exactly the maximal separator-free stretches of the string. */
  lemma {:induction false} SplitExact(s: string, x: string, sep: char)
    ensures x in Split(s, sep) <==> HasField(s, x, sep)
    decreases |s|
  {
    if sep !in s {
      SplitNone(s, sep);
      assert s[0..|s|] == s;
      assert FieldAt(s, s, sep, 0);
    } else {
      var k := FirstIndex(s, sep);
      var a, b := s[..k], s[k + 1..];
      assert s == a + [sep] + b;
      SplitConcat(a, b, sep);
      SplitNone(a, sep);
      SplitExact(b, x, sep);
      FieldsCut(s, x, sep, k);
    }
  }

  lemma FirstIndex(s: string, c: char) returns (k: nat)
    requires c in s
    ensures k < |s| && s[k] == c && c !in s[..k]
  {
    k := 0;
    while s[k] != c
      invariant k < |s| && c !in s[..k] && c in s[k..]
      decreases |s| - k
    {
      assert s[k..] == [s[k]] + s[k + 1..];
      assert s[..k + 1] == s[..k] + [s[k]];
      k := k + 1;
    }
  }

  lemma FieldShift(s: string, x: string, sep: char, k: nat, i: nat)
    requires k < |s| && s[k] == sep
    ensures FieldAt(s[k + 1..], x, sep, i) <==> FieldAt(s, x, sep, k + 1 + i)
  {
    if i + |x| <= |s| - k - 1 {
      assert s[k + 1..][i..i + |x|] == s[k + 1 + i..k + 1 + i + |x|];
    }
  }

  // ---------- substrings ----------

  predicate OccursAt(s: string, u: string, i: nat) {
    i + |u| <= |s| && s[i..i + |u|] == u
  }

  /** `strings.Contains`. */
  predicate Contains(s: string, u: string) {
    exists i | 0 <= i <= |s| :: OccursAt(s, u, i)
  }

  lemma OccursSlice(s: string, u: string, lo: nat, hi: nat, i: nat)
    requires lo + i + |u| <= hi <= |s|
    ensures OccursAt(s[lo..hi], u, i) <==> OccursAt(s, u, lo + i)
  {
    var t := s[lo..hi];
    assert |t| == hi - lo && forall j :: 0 <= j < |t| ==> t[j] == s[lo + j];
    assert t[i..i + |u|] == s[lo + i..lo + i + |u|];
  }

  /** A separator-free string cannot straddle a separator. */
  lemma ContainsConcat(a: string, b: string, sep: char, u: string)
    requires sep !in u
    ensures Contains(a + [sep] + b, u) <==> Contains(a, u) || Contains(b, u)
  {
    var s := a + [sep] + b;
    assert a == s[0..|a|] && b == s[|a| + 1..|s|] && s[|a|] == sep;
    if Contains(s, u) {
      var i :| 0 <= i <= |s| && OccursAt(s, u, i);
      assert forall j :: i <= j < i + |u| ==> s[j] == u[j - i];
      if i + |u| <= |a| {
        OccursSlice(s, u, 0, |a|, i);
      } else if i > |a| {
        OccursSlice(s, u, |a| + 1, |s|, i - |a| - 1);
      } else {
        assert false;
      }
    }
    if Contains(a, u) {
      var i :| 0 <= i <= |a| && OccursAt(a, u, i);
      OccursSlice(s, u, 0, |a|, i);
    }
    if Contains(b, u) {
      var i :| 0 <= i <= |b| && OccursAt(b, u, i);
      OccursSlice(s, u, |a| + 1, |s|, i);
    }
  }

  /** A separator-free string occurs in a joined list exactly when it occurs inside one item. */
  lemma {:induction false} ContainsJoin(xs: seq<string>, sep: char, u: string)
    requires sep !in u && u != ""
    ensures Contains(Join(xs, sep), u) <==> exists x :: x in xs && Contains(x, u)
  {
    if |xs| == 1 {
      assert xs[0] in xs;
    } else if |xs| > 1 {
      ContainsJoin(xs[1..], sep, u);
      ContainsConcat(xs[0], Join(xs[1..], sep), sep, u);
      assert xs[0] in xs;
      assert forall x :: x in xs <==> x == xs[0] || x in xs[1..];
    }
  }
}
