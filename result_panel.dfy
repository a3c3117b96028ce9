/** The result panel (`ResultPanel`): the per-kind totals of both zones'
    tiles, shown in groups from Miles down to Unidades, and the sum of the
    two operands, hidden until the player asks for it. */
module Results {
  import opened Wrappers
  import opened Tiles

  /** The four `total*` tallies: each kind counted in zone 1 and in zone 2. */
  function Totals(zone1Values: seq<ValueType>, zone2Values: seq<ValueType>): (c: Counts)
    ensures forall t :: c[t] == CountOf(zone1Values, t) + CountOf(zone2Values, t)
  {
    var m := map[Unidades := CountOf(zone1Values, Unidades) + CountOf(zone2Values, Unidades),
                 Decenas := CountOf(zone1Values, Decenas) + CountOf(zone2Values, Decenas),
                 Centenas := CountOf(zone1Values, Centenas) + CountOf(zone2Values, Centenas),
                 Miles := CountOf(zone1Values, Miles) + CountOf(zone2Values, Miles)];
    CoversEveryKind(m);
    m
  }

  /** The totals account for every tile of both zones. */
  lemma TotalsCoverBothZones(zone1Values: seq<ValueType>, zone2Values: seq<ValueType>)
    ensures Total(Totals(zone1Values, zone2Values)) == |zone1Values| + |zone2Values|
  {
    CountsCoverAll(zone1Values);
    CountsCoverAll(zone2Values);
  }

  /** The totals stand for the number both zones' tiles stand for. */
  lemma TotalsValue(zone1Values: seq<ValueType>, zone2Values: seq<ValueType>)
    ensures Value(Totals(zone1Values, zone2Values)) == TilesValue(zone1Values) + TilesValue(zone2Values)
  {
    TilesValueByCounts(zone1Values);
    TilesValueByCounts(zone2Values);
  }

  /** One `TileGroup` element: a kind and how many of its tiles to draw. */
  datatype TileGroup = TileGroup(kind: ValueType, count: nat)

  /** The groups rendered for `kinds`, in that order, a kind with no tiles
      rendering nothing. */
  function Groups(kinds: seq<ValueType>, c: Counts): (gs: seq<TileGroup>)
    ensures |gs| <= |kinds|
    ensures forall i :: 0 <= i < |gs| ==> gs[i].count == c[gs[i].kind] && gs[i].count > 0
  {
    if kinds == [] then []
    else
      var rest := Groups(kinds[1..], c);
      var t := kinds[0];
      if c[t] == 0 then rest
      else
        var gs := [TileGroup(t, c[t])] + rest;
        assert forall i :: 0 <= i < |rest| ==> gs[i + 1] == rest[i];
        gs
  }

  /** The kinds of a list of groups, in order. */
  function GroupKinds(gs: seq<TileGroup>): (ks: seq<ValueType>)
    ensures |ks| == |gs| && forall i :: 0 <= i < |gs| ==> ks[i] == gs[i].kind
  {
    if gs == [] then [] else [gs[0].kind] + GroupKinds(gs[1..])
  }

  /** A kind of `kinds` gets a group exactly when it has tiles. */
  lemma {:induction false} GroupsCover(kinds: seq<ValueType>, c: Counts)
    ensures forall t :: t in GroupKinds(Groups(kinds, c)) <==> t in kinds && c[t] > 0
  {
    if kinds != [] {
      var tail := kinds[1..];
      GroupsCover(tail, c);
      assert kinds == [kinds[0]] + tail;
      if c[kinds[0]] > 0 {
        var rest := Groups(tail, c);
        assert GroupKinds(Groups(kinds, c)) == [kinds[0]] + GroupKinds(rest);
      }
    }
  }

  /** Kinds listed from the largest to the smallest. */
  ghost predicate Descending(kinds: seq<ValueType>) {
    forall i, j :: 0 <= i < j < |kinds| ==> Rank(kinds[i]) > Rank(kinds[j])
  }

  /** The groups are drawn in the order of `kinds`. */
  lemma {:induction false} GroupsFollowKinds(kinds: seq<ValueType>, c: Counts)
    requires Descending(kinds)
    ensures Descending(GroupKinds(Groups(kinds, c)))
  {
    if kinds != [] {
      var tail := kinds[1..];
      assert Descending(tail) by {
        assert forall i :: 0 <= i < |tail| ==> tail[i] == kinds[i + 1];
      }
      GroupsFollowKinds(tail, c);
      if c[kinds[0]] > 0 {
        var rest := Groups(tail, c);
        GroupsCover(tail, c);
        var ks := GroupKinds(rest);
        forall i | 0 <= i < |ks| ensures Rank(ks[i]) < Rank(kinds[0]) {
          assert ks[i] in GroupKinds(rest);
          TailBelowHead(kinds, ks[i]);
        }
        ConsDescending(kinds[0], ks);
        assert GroupKinds(Groups(kinds, c)) == [kinds[0]] + ks;
      }
    }
  }

  lemma TailBelowHead(kinds: seq<ValueType>, t: ValueType)
    requires Descending(kinds) && kinds != [] && t in kinds[1..]
    ensures Rank(t) < Rank(kinds[0])
  {
    var k :| 0 <= k < |kinds| - 1 && kinds[1..][k] == t;
    assert kinds[k + 1] == t;
  }

  lemma ConsDescending(t: ValueType, ks: seq<ValueType>)
    requires Descending(ks)
    requires forall i :: 0 <= i < |ks| ==> Rank(ks[i]) < Rank(t)
    ensures Descending([t] + ks)
  {
    var r := [t] + ks;
    assert forall i :: 0 < i < |r| ==> r[i] == ks[i - 1];
  }

  /** The group order of the panel: Miles, Centenas, Decenas, Unidades. */
  function GroupOrder(): (kinds: seq<ValueType>)
    ensures |kinds| == 4
    ensures Descending(kinds)
  {
    [Miles, Centenas, Decenas, Unidades]
  }

  /** The tile groups of the panel: exactly the kinds with a nonzero total,
      each with its total, largest kind first. */
  function VisibleGroups(c: Counts): (gs: seq<TileGroup>)
    ensures forall i :: 0 <= i < |gs| ==> gs[i].count == c[gs[i].kind] && gs[i].count > 0
    ensures forall t :: t in GroupKinds(gs) <==> c[t] > 0
    ensures Descending(GroupKinds(gs))
  {
    var kinds := GroupOrder();
    GroupsFollowKinds(kinds, c);
    GroupsCover(kinds, c);
    assert forall t :: t in kinds by {
      forall t ensures t in kinds {
        EveryKind(t);
      }
    }
    Groups(kinds, c)
  }

  class ResultPanel {
    const number1: int
    const number2: int
    const zone1Values: seq<ValueType>
    const zone2Values: seq<ValueType>
    /** Whether the player has asked to see the sum. */
    var showResult: bool

    /** Mounting the panel: the sum is hidden. */
    constructor (number1: int, number2: int, zone1Values: seq<ValueType>, zone2Values: seq<ValueType>)
      ensures this.number1 == number1 && this.number2 == number2
      ensures this.zone1Values == zone1Values && this.zone2Values == zone2Values
      ensures !showResult
    {
      this.number1 := number1;
      this.number2 := number2;
      this.zone1Values := zone1Values;
      this.zone2Values := zone2Values;
      showResult := false;
    }

    /** The "Revelar Resultado" button; nothing ever hides the sum again. */
    method Reveal()
      modifies this
      ensures showResult
    {
      showResult := true;
    }

    /** The tile groups drawn, from both zones' totals. */
    function ShownGroups(): (gs: seq<TileGroup>)
      ensures forall i :: 0 <= i < |gs| ==>
        gs[i].count == CountOf(zone1Values, gs[i].kind) + CountOf(zone2Values, gs[i].kind) && gs[i].count > 0
    {
      VisibleGroups(Totals(zone1Values, zone2Values))
    }

    /** The number shown under "El resultado es:", once revealed: the sum of
        the two operands, whatever the tiles. */
    function ShownResult(): (r: Option<int>)
      reads this
      ensures r.Some? <==> showResult
      ensures r.Some? ==> r.value == number1 + number2
    {
      if showResult then Some(number1 + number2) else None
    }

    /** When the two zones' tiles together stand for the two operands
        together (as the game reports them, and as the split after a
        conversion keeps them), the totals drawn stand for the sum revealed. */
    lemma TilesAgreeWithSum()
      requires TilesValue(zone1Values) + TilesValue(zone2Values) == number1 + number2
      ensures Value(Totals(zone1Values, zone2Values)) == number1 + number2
    {
      TotalsValue(zone1Values, zone2Values);
    }
  }
}
