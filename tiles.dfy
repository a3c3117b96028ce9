/** Place-value tiles: the four tile kinds, tile lists (`Array<{ type }>`),
    per-kind tallies and the number a collection of tiles stands for. */
module Tiles {

  /** The tile kinds (`ValueType` in every component), smallest first. */
  datatype ValueType = Unidades | Decenas | Centenas | Miles

  /** The number one tile of kind `t` stands for. */
  function Weight(t: ValueType): (w: nat)
    ensures w > 0
  {
    match t
    case Unidades => 1
    case Decenas => 10
    case Centenas => 100
    case Miles => 1000
  }

  /** Position of `t` in the order of magnitude; Miles, the largest kind,
      is the only one at position 3. */
  function Rank(t: ValueType): (r: nat)
    ensures r <= 3
    ensures r == 3 <==> t == Miles
  {
    match t
    case Unidades => 0
    case Decenas => 1
    case Centenas => 2
    case Miles => 3
  }

  /** The kinds that ten tiles of can be exchanged for one larger tile. */
  predicate IsCarrySource(t: ValueType) {
    t != Miles
  }

  /** The next larger kind. */
  function NextType(t: ValueType): (n: ValueType)
    requires IsCarrySource(t)
    ensures Rank(n) == Rank(t) + 1
    ensures Weight(n) == 10 * Weight(t)
  {
    match t
    case Unidades => Decenas
    case Decenas => Centenas
    case Centenas => Miles
  }

  /** Number of tiles of kind `t` in a tile list
      (`values.filter(v => v.type === type).length`). */
  function CountOf(values: seq<ValueType>, t: ValueType): (n: nat)
    ensures n <= |values|
    ensures n > 0 <==> t in values
  {
    if values == [] then 0
    else (if values[0] == t then 1 else 0) + CountOf(values[1..], t)
  }

  lemma {:induction false} CountOfAppend(a: seq<ValueType>, b: seq<ValueType>, t: ValueType)
    ensures CountOf(a + b, t) == CountOf(a, t) + CountOf(b, t)
  {
    if a == [] {
      assert a + b == b;
    } else {
      assert (a + b)[1..] == a[1..] + b;
      CountOfAppend(a[1..], b, t);
    }
  }

  /** Because the kinds form a closed set of four, every tile is counted under
      exactly one of them. */
  lemma {:induction false} CountsCoverAll(values: seq<ValueType>)
    ensures CountOf(values, Unidades) + CountOf(values, Decenas)
          + CountOf(values, Centenas) + CountOf(values, Miles) == |values|
  {
    if values != [] {
      CountsCoverAll(values[1..]);
    }
  }

  /** The number a tile list stands for: the sum of its tiles' weights. */
  function TilesValue(values: seq<ValueType>): nat {
    if values == [] then 0 else Weight(values[0]) + TilesValue(values[1..])
  }

  lemma {:induction false} TilesValueAppend(a: seq<ValueType>, b: seq<ValueType>)
    ensures TilesValue(a + b) == TilesValue(a) + TilesValue(b)
  {
    if a == [] {
      assert a + b == b;
    } else {
      assert (a + b)[1..] == a[1..] + b;
      TilesValueAppend(a[1..], b);
    }
  }

  /** A list of `n` tiles of kind `t` (`Array(n).fill({ type: t })`, or `n`
      successive pushes of `{ type: t }`). */
  function Repeat(t: ValueType, n: nat): (r: seq<ValueType>)
    ensures |r| == n
    ensures forall i :: 0 <= i < n ==> r[i] == t
    ensures forall u :: CountOf(r, u) == if u == t then n else 0
    ensures TilesValue(r) == Weight(t) * n
  {
    if n == 0 then []
    else
      var prefix := Repeat(t, n - 1);
      CountOfAppendAll(prefix, [t]);
      TilesValueAppend(prefix, [t]);
      prefix + [t]
  }

  lemma CountOfAppendAll(a: seq<ValueType>, b: seq<ValueType>)
    ensures forall u :: CountOf(a + b, u) == CountOf(a, u) + CountOf(b, u)
  {
    forall u ensures CountOf(a + b, u) == CountOf(a, u) + CountOf(b, u) {
      CountOfAppend(a, b, u);
    }
  }

  /** Per-kind tile counts, the `{ unidades, decenas, centenas, miles }`
      records the components keep and index as `counts[type]`: every kind
      has a count, and no count is ever negative. */
  type Counts = m: map<ValueType, nat> | forall t :: t in m
    witness NoTiles()

  /** The four kinds are all the kinds there are. */
  lemma EveryKind(t: ValueType)
    ensures t == Unidades || t == Decenas || t == Centenas || t == Miles
  {
  }

  /** A map that has a count for each of the four kinds has one for every kind. */
  lemma CoversEveryKind(m: map<ValueType, nat>)
    requires Unidades in m && Decenas in m && Centenas in m && Miles in m
    ensures forall t :: t in m
  {
    forall t ensures t in m {
      EveryKind(t);
    }
  }

  /** The counts of a panel with no tiles. */
  function NoTiles(): (m: map<ValueType, nat>)
    ensures forall t :: t in m && m[t] == 0
  {
    var m := map[Unidades := 0, Decenas := 0, Centenas := 0, Miles := 0];
    CoversEveryKind(m);
    m
  }

  /** Number of tiles over all kinds. */
  function Total(c: Counts): nat {
    c[Unidades] + c[Decenas] + c[Centenas] + c[Miles]
  }

  /** The number the counted tiles stand for. */
  function Value(c: Counts): nat {
    c[Unidades] + 10 * c[Decenas] + 100 * c[Centenas] + 1000 * c[Miles]
  }

  /** Two tallies that differ in the count of one kind only differ in value
      by that kind's weight times the difference. */
  lemma ValueOfChange(a: Counts, b: Counts, t: ValueType)
    requires forall u :: u != t ==> a[u] == b[u]
    ensures Value(a) + Weight(t) * b[t] == Value(b) + Weight(t) * a[t]
  {
    match t
    case Unidades =>
    case Decenas =>
    case Centenas =>
    case Miles =>
  }

  /** Replacing the count of one kind changes the value by that kind's weight
      times the change. */
  lemma ValueOfUpdate(c: Counts, t: ValueType, n: nat)
    ensures Value(c[t := n]) + Weight(t) * c[t] == Value(c) + Weight(t) * n
  {
    ValueOfChange(c[t := n], c, t);
  }

  /** Adding `k` tiles of one kind adds `k` times that kind's weight. */
  lemma ValueOfIncrease(c: Counts, t: ValueType, k: nat)
    ensures Value(c[t := c[t] + k]) == Value(c) + Weight(t) * k
  {
    ValueOfUpdate(c, t, c[t] + k);
    assert Weight(t) * (c[t] + k) == Weight(t) * c[t] + Weight(t) * k;
  }

  /** The tallies of a tile list, one `countByType` per kind. */
  function CountAll(values: seq<ValueType>): (c: Counts)
    ensures forall t :: c[t] == CountOf(values, t)
  {
    var m := map[Unidades := CountOf(values, Unidades), Decenas := CountOf(values, Decenas),
                 Centenas := CountOf(values, Centenas), Miles := CountOf(values, Miles)];
    CoversEveryKind(m);
    m
  }

  /** The tallies of a tile list account for every tile in it. */
  lemma CountAllTotal(values: seq<ValueType>)
    ensures Total(CountAll(values)) == |values|
  {
    CountsCoverAll(values);
  }

  /** Counting a tile list per kind keeps the number it stands for. */
  lemma {:induction false} TilesValueByCounts(values: seq<ValueType>)
    ensures TilesValue(values) == Value(CountAll(values))
  {
    if values != [] {
      TilesValueByCounts(values[1..]);
      TilesValueStep(values);
    }
  }

  lemma TilesValueStep(values: seq<ValueType>)
    requires values != []
    requires TilesValue(values[1..]) == Value(CountAll(values[1..]))
    ensures TilesValue(values) == Value(CountAll(values))
  {
    var t, rest := values[0], values[1..];
    var c, c' := CountAll(values), CountAll(rest);
    assert c[Unidades] == (if t == Unidades then 1 else 0) + c'[Unidades];
    assert c[Decenas] == (if t == Decenas then 1 else 0) + c'[Decenas];
    assert c[Centenas] == (if t == Centenas then 1 else 0) + c'[Centenas];
    assert c[Miles] == (if t == Miles then 1 else 0) + c'[Miles];
    assert Value(c) == Value(c') + Weight(t);
  }

  /** `needsConversion`: some kind other than Miles has more than nine tiles. */
  function NeedsConversion(c: Counts): (b: bool)
    ensures b <==> exists t :: IsCarrySource(t) && c[t] > 9
  {
    assert IsCarrySource(Unidades) && IsCarrySource(Decenas) && IsCarrySource(Centenas);
    c[Unidades] > 9 || c[Decenas] > 9 || c[Centenas] > 9
  }

  /** Miles never trigger a conversion, however many there are. */
  lemma MilesNeverNeedConversion(c: Counts, n: nat)
    ensures NeedsConversion(c[Miles := n]) == NeedsConversion(c)
  {
  }
}
