/** The carry-conversion panel (`ConversionPanel`): tiles wait in four
    generators (`counts`); the player drags them one at a time into the
    conversion zone (`conversionZoneValues`); as soon as the zone holds ten
    or more tiles of a kind other than Miles they are exchanged for tiles of
    the next larger kind, which go back to that kind's generator; when no
    generator below Miles holds more than nine tiles and the zone is empty
    the panel hands the final tile list back. */
module Conversion {
  import opened Wrappers
  import opened Tiles

  /** The zone without its tiles of kind `t`
      (`conversionZoneValues.filter(v => v.type !== type)`). */
  function Without(values: seq<ValueType>, t: ValueType): (r: seq<ValueType>)
    ensures |r| + CountOf(values, t) == |values|
    ensures CountOf(r, t) == 0
    ensures forall u :: u != t ==> CountOf(r, u) == CountOf(values, u)
    ensures TilesValue(r) + Weight(t) * CountOf(values, t) == TilesValue(values)
  {
    if values == [] then []
    else
      var rest := Without(values[1..], t);
      if values[0] == t then rest
      else
        assert ([values[0]] + rest)[1..] == rest;
        [values[0]] + rest
  }

  /** The final tile list: all Unidades first, then Decenas, Centenas and
      Miles, as many of each as `c` counts. */
  function FinalValues(c: Counts): (r: seq<ValueType>)
    ensures |r| == Total(c)
    ensures forall t :: CountOf(r, t) == c[t]
  {
    var a, b, d, e := Repeat(Unidades, c[Unidades]), Repeat(Decenas, c[Decenas]),
                      Repeat(Centenas, c[Centenas]), Repeat(Miles, c[Miles]);
    CountOfAppendAll(a, b);
    CountOfAppendAll(a + b, d);
    CountOfAppendAll(a + b + d, e);
    a + b + d + e
  }

  /** The final tile list stands for the number the counts stand for. */
  lemma FinalValuesValue(c: Counts)
    ensures TilesValue(FinalValues(c)) == Value(c)
  {
    var r := FinalValues(c);
    TilesValueByCounts(r);
    assert CountAll(r) == c;
  }

  /** Every tile of `s` is at least as large as the tiles before it. */
  ghost predicate RankSorted(s: seq<ValueType>) {
    forall i, j :: 0 <= i < j < |s| ==> Rank(s[i]) <= Rank(s[j])
  }

  ghost predicate RanksAtMost(s: seq<ValueType>, k: nat) {
    forall i :: 0 <= i < |s| ==> Rank(s[i]) <= k
  }

  lemma AppendRepeatSorted(a: seq<ValueType>, t: ValueType, n: nat)
    requires RankSorted(a) && RanksAtMost(a, Rank(t))
    ensures RankSorted(a + Repeat(t, n)) && RanksAtMost(a + Repeat(t, n), Rank(t))
  {
    var r := a + Repeat(t, n);
    assert forall i :: 0 <= i < |r| ==> r[i] == if i < |a| then a[i] else t;
  }

  /** The final tile list is ordered from the smallest kind to the largest. */
  lemma FinalValuesSorted(c: Counts)
    ensures RankSorted(FinalValues(c))
  {
    var a := Repeat(Unidades, c[Unidades]);
    var b := Repeat(Decenas, c[Decenas]);
    var d := Repeat(Centenas, c[Centenas]);
    AppendRepeatSorted([], Unidades, c[Unidades]);
    assert [] + a == a;
    AppendRepeatSorted(a, Decenas, c[Decenas]);
    AppendRepeatSorted(a + b, Centenas, c[Centenas]);
    AppendRepeatSorted(a + b + d, Miles, c[Miles]);
  }

  /** The zone after converting kind `t`: the other kinds' tiles keep their
      order and `t` keeps only its `count % 10` leftover tiles, now at the
      end. */
  function ConvertedZone(zone: seq<ValueType>, t: ValueType): (r: seq<ValueType>)
    ensures CountOf(r, t) == CountOf(zone, t) % 10
    ensures forall u :: u != t ==> CountOf(r, u) == CountOf(zone, u)
    ensures |r| + 10 * (CountOf(zone, t) / 10) == |zone|
  {
    var kept, left := Without(zone, t), Repeat(t, CountOf(zone, t) % 10);
    CountOfAppendAll(kept, left);
    kept + left
  }

  /** `t` is the kind the conversion effect picks for `zone`: a kind below
      Miles with at least ten tiles in the zone, every smaller kind having
      fewer than ten. */
  ghost predicate IsFirstFull(zone: seq<ValueType>, t: ValueType) {
    && IsCarrySource(t)
    && CountOf(zone, t) >= 10
    && forall u :: IsCarrySource(u) && Rank(u) < Rank(t) ==> CountOf(zone, u) < 10
  }

  /** The kind the conversion effect picks: the first of Unidades, Decenas
      and Centenas (in that order) with at least ten tiles in the zone. */
  function FullKind(zone: seq<ValueType>): (k: Option<ValueType>)
    ensures k.None? <==> forall t :: IsCarrySource(t) ==> CountOf(zone, t) < 10
    ensures k.Some? ==> IsFirstFull(zone, k.value)
  {
    assert IsCarrySource(Unidades) && IsCarrySource(Decenas) && IsCarrySource(Centenas);
    if CountOf(zone, Unidades) >= 10 then Some(Unidades)
    else if CountOf(zone, Decenas) >= 10 then Some(Decenas)
    else if CountOf(zone, Centenas) >= 10 then Some(Centenas)
    else None
  }

  /** The generator counts after converting kind `t` of `zone`: the next
      kind is credited one tile per full group of ten. */
  function Credited(counts: Counts, zone: seq<ValueType>, t: ValueType): (c: Counts)
    requires IsCarrySource(t)
    ensures c[NextType(t)] == counts[NextType(t)] + CountOf(zone, t) / 10
    ensures forall u :: u != NextType(t) ==> c[u] == counts[u]
    ensures forall u :: c[u] >= counts[u]
    ensures c[Unidades] == counts[Unidades]
  {
    counts[NextType(t) := counts[NextType(t)] + CountOf(zone, t) / 10]
  }

  /** A conversion keeps the number the generators and the zone stand for
      together: the groups of ten taken out of the zone come back as tiles
      of the next kind. */
  lemma ConvertKeepsValue(counts: Counts, zone: seq<ValueType>, t: ValueType)
    requires IsCarrySource(t)
    ensures Value(Credited(counts, zone, t)) + TilesValue(ConvertedZone(zone, t))
         == Value(counts) + TilesValue(zone)
  {
    ConvertedZoneValue(zone, t);
    CreditedValue(counts, zone, t);
  }

  /** Converting kind `t` takes ten tiles of `t` out of the zone per credited
      tile. */
  lemma ConvertedZoneValue(zone: seq<ValueType>, t: ValueType)
    requires IsCarrySource(t)
    ensures TilesValue(ConvertedZone(zone, t)) + Weight(NextType(t)) * (CountOf(zone, t) / 10)
         == TilesValue(zone)
  {
    var zone' := ConvertedZone(zone, t);
    var count := CountOf(zone, t);
    TilesValueByCounts(zone);
    TilesValueByCounts(zone');
    ValueOfChange(CountAll(zone'), CountAll(zone), t);
    TensAndRest(Weight(t), count);
  }

  /** `w` times a count is `10 * w` per full group of ten plus `w` per
      leftover. */
  lemma TensAndRest(w: nat, count: nat)
    ensures w * count == (10 * w) * (count / 10) + w * (count % 10)
  {
    var q, r := count / 10, count % 10;
    assert count == 10 * q + r;
    calc {
      w * count;
      w * (10 * q + r);
      w * (10 * q) + w * r;
      (10 * w) * q + w * r;
    }
  }

  /** Each credited tile of the next kind is worth ten tiles of kind `t`. */
  lemma CreditedValue(counts: Counts, zone: seq<ValueType>, t: ValueType)
    requires IsCarrySource(t)
    ensures Value(Credited(counts, zone, t))
         == Value(counts) + Weight(NextType(t)) * (CountOf(zone, t) / 10)
  {
    ValueOfIncrease(counts, NextType(t), CountOf(zone, t) / 10);
  }

  /** What the conversion effect keeps about carry kind `t` from zone `z0`
      and generators `c0` to zone `z` and generators `c`: the zone's count of
      `t` modulo ten, and the count of `t` with every credited tile of the
      next kind taken as ten tiles of `t`. */
  ghost predicate Tracks(z0: seq<ValueType>, c0: Counts, z: seq<ValueType>, c: Counts, t: ValueType)
    requires IsCarrySource(t)
  {
    && CountOf(z, t) % 10 == CountOf(z0, t) % 10
    && 10 * c[NextType(t)] + CountOf(z, t) == 10 * c0[NextType(t)] + CountOf(z0, t)
  }

  ghost predicate TracksAll(z0: seq<ValueType>, c0: Counts, z: seq<ValueType>, c: Counts) {
    forall t :: IsCarrySource(t) ==> Tracks(z0, c0, z, c, t)
  }

  /** Converting kind `k` keeps what carry kind `k` tracks. */
  lemma ConvertTracksSame(z0: seq<ValueType>, c0: Counts, z: seq<ValueType>, c: Counts, k: ValueType)
    requires IsCarrySource(k) && Tracks(z0, c0, z, c, k)
    ensures Tracks(z0, c0, ConvertedZone(z, k), Credited(c, z, k), k)
  {
    var n := CountOf(z, k);
    var q, r := n / 10, n % 10;
    DivMod10(n);
    assert CountOf(ConvertedZone(z, k), k) == r;
    assert Credited(c, z, k)[NextType(k)] == c[NextType(k)] + q;
  }

  lemma DivMod10(n: nat)
    ensures n == 10 * (n / 10) + n % 10
    ensures (n % 10) % 10 == n % 10
  {
  }

  /** Converting kind `k` keeps what every other carry kind tracks: its
      zone count and its next kind's generator are untouched. */
  lemma ConvertTracksOther(z0: seq<ValueType>, c0: Counts, z: seq<ValueType>, c: Counts, k: ValueType, t: ValueType)
    requires IsCarrySource(k) && IsCarrySource(t) && t != k && Tracks(z0, c0, z, c, t)
    ensures Tracks(z0, c0, ConvertedZone(z, k), Credited(c, z, k), t)
  {
    assert Rank(NextType(t)) != Rank(NextType(k));
    assert CountOf(ConvertedZone(z, k), t) == CountOf(z, t);
    assert Credited(c, z, k)[NextType(t)] == c[NextType(t)];
  }

  /** One conversion keeps what all carry kinds track. */
  lemma ConvertTracks(z0: seq<ValueType>, c0: Counts, z: seq<ValueType>, c: Counts, k: ValueType)
    requires IsCarrySource(k) && TracksAll(z0, c0, z, c)
    ensures TracksAll(z0, c0, ConvertedZone(z, k), Credited(c, z, k))
  {
    forall t | IsCarrySource(t)
      ensures Tracks(z0, c0, ConvertedZone(z, k), Credited(c, z, k), t)
    {
      if t == k {
        ConvertTracksSame(z0, c0, z, c, k);
      } else {
        ConvertTracksOther(z0, c0, z, c, k, t);
      }
    }
  }

  /** Once fewer than ten tiles of kind `t` are left, the tracked facts
      give the final zone count `CountOf(z0, t) % 10` and the credit
      `CountOf(z0, t) / 10` to the next kind's generator. */
  lemma SettledTracks(z0: seq<ValueType>, c0: Counts, z: seq<ValueType>, c: Counts, t: ValueType)
    requires IsCarrySource(t) && Tracks(z0, c0, z, c, t) && CountOf(z, t) < 10
    ensures CountOf(z, t) == CountOf(z0, t) % 10
    ensures c[NextType(t)] == c0[NextType(t)] + CountOf(z0, t) / 10
  {
    DivMod10(CountOf(z0, t));
    DivMod10(CountOf(z, t));
  }

  /** The new zone of a conversion: the zone filtered of kind `t`, then
      one tile of kind `t` pushed per leftover. */
  method ConvertZoneValues(zone: seq<ValueType>, t: ValueType) returns (newZoneValues: seq<ValueType>)
    ensures newZoneValues == ConvertedZone(zone, t)
  {
    var remaining := CountOf(zone, t) % 10;
    newZoneValues := Without(zone, t);
    for k := 0 to remaining
      invariant newZoneValues == Without(zone, t) + Repeat(t, k)
    {
      newZoneValues := newZoneValues + [t];
    }
  }

  class ConversionPanel {
    /** The pooled tiles the panel was opened with (its `allValues` prop). */
    const allValues: seq<ValueType>
    /** Tiles still in the generators, one count per kind. */
    var counts: Counts
    /** Tiles in the conversion zone, in the order they arrived. */
    var conversionZoneValues: seq<ValueType>

    /** Tiles only ever move between the generators and the zone or are
        exchanged at a rate of ten to one, so together they always stand for
        the number the pooled tiles stand for. */
    ghost predicate Valid()
      reads this
    {
      Value(counts) + TilesValue(conversionZoneValues) == TilesValue(allValues)
    }

    /** Mounting the panel: every generator holds the pooled tiles of its
        kind and the zone is empty. */
    constructor (allValues: seq<ValueType>)
      ensures this.allValues == allValues
      ensures forall t :: counts[t] == CountOf(allValues, t)
      ensures conversionZoneValues == []
      ensures Valid()
    {
      this.allValues := allValues;
      new;
      counts := CountAll(allValues);
      conversionZoneValues := [];
      TilesValueByCounts(allValues);
    }

    /** `handleTileDrop`: a tile of kind `t` dropped on the zone. It is
        refused when its generator is empty; otherwise it leaves the
        generator and joins the end of the zone. */
    method HandleTileDrop(t: ValueType) returns (accepted: bool)
      requires Valid()
      modifies this
      ensures Valid()
      ensures accepted <==> old(counts[t]) > 0
      ensures accepted ==>
        counts == old(counts)[t := old(counts[t]) - 1] && conversionZoneValues == old(conversionZoneValues) + [t]
      ensures !accepted ==>
        counts == old(counts) && conversionZoneValues == old(conversionZoneValues)
    {
      if counts[t] <= 0 {
        return false;
      }
      var zone, remaining := conversionZoneValues + [t], counts[t := counts[t] - 1];
      TilesValueAppend(conversionZoneValues, [t]);
      ValueOfUpdate(counts, t, counts[t] - 1);
      conversionZoneValues := zone;
      counts := remaining;
      accepted := true;
    }

    /** One run of the conversion effect: scan Unidades, Decenas, Centenas
        in that order and convert the first kind with ten or more tiles in
        the zone (only that one): its zone tiles drop to `count % 10` (moved
        to the end of the zone) and `count / 10` tiles are credited to the
        next kind's generator. Miles are never converted. */
    method ConversionPass() returns (converted: Option<ValueType>)
      requires Valid()
      modifies this
      ensures Valid()
      ensures converted == FullKind(old(conversionZoneValues))
      ensures converted.None? ==>
        counts == old(counts) && conversionZoneValues == old(conversionZoneValues)
      ensures converted.Some? ==>
        && conversionZoneValues == ConvertedZone(old(conversionZoneValues), converted.value)
        && counts == Credited(old(counts), old(conversionZoneValues), converted.value)
        && |conversionZoneValues| < |old(conversionZoneValues)|
    {
      var types := [Unidades, Decenas, Centenas];
      converted := None;
      var i := 0;
      while i < |types|
        invariant 0 <= i <= |types|
        invariant i >= 1 ==> CountOf(conversionZoneValues, Unidades) < 10
        invariant i >= 2 ==> CountOf(conversionZoneValues, Decenas) < 10
        invariant i >= 3 ==> CountOf(conversionZoneValues, Centenas) < 10
        invariant converted == None
        invariant counts == old(counts) && conversionZoneValues == old(conversionZoneValues)
      {
        var t := types[i];
        var count := CountOf(conversionZoneValues, t);
        if count >= 10 {
          Convert(t);
          converted := Some(t);
          return;
        }
        i := i + 1;
      }
    }

    /** The body of a conversion: the zone keeps the other kinds' tiles and
        `count % 10` tiles of kind `t`, and the generator of the next kind is
        credited `count / 10` tiles. */
    method Convert(t: ValueType)
      requires Valid() && IsCarrySource(t)
      modifies this
      ensures Valid()
      ensures conversionZoneValues == ConvertedZone(old(conversionZoneValues), t)
      ensures counts == Credited(old(counts), old(conversionZoneValues), t)
    {
      var zone := conversionZoneValues;
      var newZoneValues := ConvertZoneValues(zone, t);
      var newCounts := Credited(counts, zone, t);
      ConvertKeepsValue(counts, zone, t);
      conversionZoneValues := newZoneValues;
      counts := newCounts;
    }

    /** The conversion effect re-runs whenever it changed the zone, so after
        an event it goes on converting until no kind below Miles has ten
        tiles in the zone. Each conversion shrinks the zone, so this ends. */
    method RunConversionEffect() returns (conversions: nat)
      requires Valid()
      modifies this
      ensures Valid()
      ensures forall t :: IsCarrySource(t) ==> CountOf(conversionZoneValues, t) < 10
      ensures |conversionZoneValues| + conversions <= |old(conversionZoneValues)|
      ensures conversions == 0 ==>
        counts == old(counts) && conversionZoneValues == old(conversionZoneValues)
      ensures CountOf(conversionZoneValues, Miles) == CountOf(old(conversionZoneValues), Miles)
      ensures FullKind(old(conversionZoneValues)).None? ==> conversions == 0
      ensures counts[Unidades] == old(counts[Unidades])
      ensures forall t :: counts[t] >= old(counts[t])
      ensures forall t :: IsCarrySource(t) ==>
        CountOf(conversionZoneValues, t) == CountOf(old(conversionZoneValues), t) % 10
      ensures forall t :: IsCarrySource(t) ==>
        counts[NextType(t)] == old(counts[NextType(t)]) + CountOf(old(conversionZoneValues), t) / 10
    {
      ghost var z0, c0 := conversionZoneValues, counts;
      conversions := 0;
      var converted := ConversionPass();
      if converted.Some? {
        ConvertTracks(z0, c0, z0, c0, converted.value);
      }
      while converted.Some?
        invariant Valid()
        invariant converted.None? ==>
          forall t :: IsCarrySource(t) ==> CountOf(conversionZoneValues, t) < 10
        invariant |conversionZoneValues| + conversions + (if converted.Some? then 1 else 0)
                  <= |old(conversionZoneValues)|
        invariant conversions == 0 && converted.None? ==>
          counts == old(counts) && conversionZoneValues == old(conversionZoneValues)
        invariant CountOf(conversionZoneValues, Miles) == CountOf(old(conversionZoneValues), Miles)
        invariant FullKind(old(conversionZoneValues)).None? ==> conversions == 0 && converted.None?
        invariant counts[Unidades] == old(counts[Unidades])
        invariant forall t :: counts[t] >= old(counts[t])
        invariant TracksAll(z0, c0, conversionZoneValues, counts)
        decreases |conversionZoneValues| + (if converted.Some? then 1 else 0)
      {
        conversions := conversions + 1;
        ghost var z, c := conversionZoneValues, counts;
        converted := ConversionPass();
        if converted.Some? {
          ConvertTracks(z0, c0, z, c, converted.value);
        }
      }
      forall t | IsCarrySource(t)
        ensures CountOf(conversionZoneValues, t) == CountOf(z0, t) % 10
        ensures counts[NextType(t)] == c0[NextType(t)] + CountOf(z0, t) / 10
      {
        SettledTracks(z0, c0, conversionZoneValues, counts, t);
      }
    }

    /** The completion effect: once no generator below Miles holds more than
        nine tiles and the zone is empty, the panel reports the final tile
        list, which counts exactly what the generators hold and stands for
        the same number as the pooled tiles. */
    method CompletionEffect() returns (finalValues: Option<seq<ValueType>>)
      requires Valid()
      ensures finalValues.Some? <==> !NeedsConversion(counts) && conversionZoneValues == []
      ensures finalValues.Some? ==> finalValues.value == FinalValues(counts)
      ensures finalValues.Some? ==> TilesValue(finalValues.value) == TilesValue(allValues)
      ensures finalValues.Some? ==>
        forall t :: IsCarrySource(t) ==> CountOf(finalValues.value, t) < 10
    {
      if !NeedsConversion(counts) && |conversionZoneValues| == 0 {
        FinalValuesValue(counts);
        finalValues := Some(FinalValues(counts));
      } else {
        finalValues := None;
      }
    }
  }
}
