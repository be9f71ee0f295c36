/** Feature gates given as a comma-separated list of key=value items. */
module FeatureGates {
  import opened Options
  import opened Text

  datatype Error = MissingValue(item: string) | InvalidValue(value: string, key: string)

  datatype Item = Empty | Assign(key: string, enabled: bool) | Bad(error: Error)

  type Gates = map<string, bool>

  /** The Unicode White_Space characters, which `strings.TrimSpace` strips. */
  predicate IsSpace(c: char) {
    var n := c as int;
    9 <= n <= 13 || n == 0x20 || n == 0x85 || n == 0xA0 || n == 0x1680 || 0x2000 <= n <= 0x200A
    || n == 0x2028 || n == 0x2029 || n == 0x202F || n == 0x205F || n == 0x3000
  }

  lemma SpaceExact(c: char)
    ensures IsSpace(c) <==>
            || c in "\t\n\U{B}\U{C}\r \U{85}\U{A0}\U{1680}\U{2028}\U{2029}\U{202F}\U{205F}\U{3000}"
            || c in "\U{2000}\U{2001}\U{2002}\U{2003}\U{2004}\U{2005}\U{2006}\U{2007}\U{2008}\U{2009}\U{200A}"
  {
  }

  predicate Blank(s: string) {
    forall c :: c in s ==> IsSpace(c)
  }

  /** `strings.TrimSpace`. */
  function TrimSpace(s: string): string {
    if s == "" then s
    else if IsSpace(s[0]) then TrimSpace(s[1..])
    else if IsSpace(s[|s| - 1]) then TrimSpace(s[..|s| - 1])
    else s
  }

  /** Trimming cuts blanks only, and leaves none at either end. */
  lemma {:induction false} TrimExact(s: string) returns (front: string, back: string)
    ensures s == front + TrimSpace(s) + back && Blank(front) && Blank(back)
    ensures TrimSpace(s) != "" ==> !IsSpace(TrimSpace(s)[0]) && !IsSpace(TrimSpace(s)[|TrimSpace(s)| - 1])
    decreases |s|
  {
    front, back := "", "";
    if s != "" && IsSpace(s[0]) {
      front, back := TrimExact(s[1..]);
      assert s == [s[0]] + s[1..];
      front := [s[0]] + front;
    } else if s != "" && IsSpace(s[|s| - 1]) {
      front, back := TrimExact(s[..|s| - 1]);
      assert s == s[..|s| - 1] + [s[|s| - 1]];
      back := back + [s[|s| - 1]];
    }
  }

  /** `strconv.ParseBool`. */
  function ParseBool(v: string): Option<bool> {
    if v in ["1", "t", "T", "true", "TRUE", "True"] then Some(true)
    else if v in ["0", "f", "F", "false", "FALSE", "False"] then Some(false)
    else None
  }

  lemma BoolExact(v: string)
    ensures ParseBool(v) == Some(true) <==>
            v == "1" || v == "t" || v == "T" || v == "true" || v == "TRUE" || v == "True"
    ensures ParseBool(v) == Some(false) <==>
            v == "0" || v == "f" || v == "F" || v == "false" || v == "FALSE" || v == "False"
  {
  }

  /** One item of the list: cut at the first equals sign, both sides trimmed. */
  function ParseItem(s: string): Item {
    if s == "" then Empty
    else
      var parts := Split(s, '=');
      if |parts| < 2 then Bad(MissingValue(s))
      else
        var k, v := TrimSpace(parts[0]), TrimSpace(Join(parts[1..], '='));
        match ParseBool(v)
        case None => Bad(InvalidValue(v, k))
        case Some(b) => Assign(k, b)
  }

  /** An item is cut at its first equals sign and nowhere else; without one it is rejected. */
  lemma ItemCut(k: string, v: string)
    requires '=' !in k
    ensures ParseItem(k + "=" + v) ==
            match ParseBool(TrimSpace(v))
            case None => Bad(InvalidValue(TrimSpace(v), TrimSpace(k)))
            case Some(b) => Assign(TrimSpace(k), b)
    ensures ParseItem(k) == if k == "" then Empty else Bad(MissingValue(k))
  {
    SplitConcat(k, v, '=');
    SplitNone(k, '=');
    JoinSplit(v, '=');
    assert Split(k + "=" + v, '=')[1..] == Split(v, '=');
  }

  /** The items of a raw feature list. */
  function Items(s: string): (items: seq<Item>) {
    var raw := Split(s, ',');
    seq(|raw|, i requires 0 <= i < |raw| => ParseItem(raw[i]))
  }

  /** Comma-separated pieces are the items, one by one. */
  lemma ItemsExact(pieces: seq<string>)
    requires pieces != [] && forall i :: 0 <= i < |pieces| ==> ',' !in pieces[i]
    ensures var items := Items(Join(pieces, ','));
            |items| == |pieces| && forall i :: 0 <= i < |items| ==> items[i] == ParseItem(pieces[i])
  {
    SplitJoin(pieces, ',');
  }

  /** The map and error left after the items are processed from the left up to the first bad one. */
  function Process(gates: Gates, items: seq<Item>): (Gates, Option<Error>)
    decreases |items|
  {
    if items == [] then (gates, None)
    else match items[0]
      case Empty => Process(gates, items[1..])
      case Bad(e) => (gates, Some(e))
      case Assign(k, b) => Process(gates[k := b], items[1..])
  }

  class FeatureGate {
    var gates: Gates

    method Set(s: string) returns (err: Option<Error>)
      modifies this
      ensures (gates, err) == Process(old(gates), Items(s))
    {
      var raw := Split(s, ',');
      for i := 0 to |raw|
        invariant Process(gates, Items(s)[i..]) == Process(old(gates), Items(s))
      {
        assert Items(s)[i..][0] == ParseItem(raw[i]) && Items(s)[i..][1..] == Items(s)[i + 1..];
        match ParseItem(raw[i]) {
          case Empty =>
          case Bad(e) => return Some(e);
          case Assign(k, b) => gates := gates[k := b];
        }
      }
      err := None;
    }

    predicate Enabled(feature: string)
      reads this
    {
      feature in gates && gates[feature]
    }
  }

  lemma {:induction false} ProcessConcat(gates: Gates, xs: seq<Item>, ys: seq<Item>)
    ensures var (g, e) := Process(gates, xs);
            Process(gates, xs + ys) == if e.None? then Process(g, ys) else (g, e)
    decreases |xs|
  {
    if xs == [] {
      assert xs + ys == ys;
    } else {
      assert (xs + ys)[1..] == xs[1..] + ys;
      ProcessConcat(Step(gates, xs[0]), xs[1..], ys);
    }
  }

  /** The effect of one good item. */
  function Step(gates: Gates, item: Item): Gates {
    if item.Assign? then gates[item.key := item.enabled] else gates
  }

  /** Setting `a,b` is setting `a` and then, if that succeeded, `b`, down to the map left behind on an error. */
  lemma SetConcat(gates: Gates, a: string, b: string)
    ensures var (g, e) := Process(gates, Items(a));
            Process(gates, Items(a + "," + b)) == if e.None? then Process(g, Items(b)) else (g, e)
  {
    SplitConcat(a, b, ',');
    assert Items(a + "," + b) == Items(a) + Items(b);
    ProcessConcat(gates, Items(a), Items(b));
  }

  predicate Assigns(item: Item, k: string) {
    item.Assign? && item.key == k
  }

  /** `i` is the last of the first `n` items that assigns `k`. */
  ghost predicate LastAssignment(items: seq<Item>, n: nat, k: string, i: nat) {
    i < n <= |items| && Assigns(items[i], k) && forall j :: i < j < n ==> !Assigns(items[j], k)
  }

  /** What `k` stands for after the first `n` items: the last assignment counts, or else the prior value. */
  ghost predicate Decided(gates: Gates, items: seq<Item>, n: nat, k: string, result: Gates) {
    && (forall i: nat :: LastAssignment(items, n, k, i) ==> k in result && result[k] == items[i].enabled)
    && ((forall i :: 0 <= i < n <= |items| ==> !Assigns(items[i], k)) ==>
          (k in result <==> k in gates) && (k in gates ==> result[k] == gates[k]))
  }

  /** One more item in front decides only what no later one does. */
  lemma DecidedCons(gates: Gates, items: seq<Item>, n: nat, k: string, result: Gates)
    requires 0 < n <= |items| && Decided(Step(gates, items[0]), items[1..], n - 1, k, result)
    ensures Decided(gates, items, n, k, result)
  {
    var rest := items[1..];
    assert forall j :: 0 <= j < |rest| ==> rest[j] == items[j + 1];
    assert (forall j :: 0 < j < n ==> !Assigns(items[j], k)) ==> forall j :: 0 <= j < n - 1 ==> !Assigns(rest[j], k);
    forall i: nat | LastAssignment(items, n, k, i) ensures k in result && result[k] == items[i].enabled {
      assert i > 0 ==> LastAssignment(rest, n - 1, k, i - 1);
    }
  }

  /**
   The call fails exactly at the first bad item, with that item's error; the map then holds, for every key, the value
   of the last item before it (or of all items) that assigns the key, and the prior value if there is none.
   */
  lemma {:induction false} LastItemWins(gates: Gates, items: seq<Item>, n: nat, k: string)
    requires n <= |items|
    requires forall j :: 0 <= j < n ==> !items[j].Bad?
    requires n == |items| || items[n].Bad?
    ensures Process(gates, items).1 == if n == |items| then None else Some(items[n].error)
    ensures Decided(gates, items, n, k, Process(gates, items).0)
    decreases n
  {
    if n == 0 {
      assert Process(gates, items).0 == gates;
    } else {
      hide Decided;
      LastItemWins(Step(gates, items[0]), items[1..], n - 1, k);
      DecidedCons(gates, items, n, k, Process(gates, items).0);
    }
  }
}
