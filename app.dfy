/** The top-level component (`App`): which panel is on screen, the stored
    game configuration and game result, the hand-offs between the setup,
    game, conversion and result panels, and which view each state shows. */
module Orchestrator {
  import opened Wrappers
  import opened Tiles
  import opened Config
  import Conversion

  /** `currentPanel`. */
  datatype Panel = SetupScreen | GameScreen | ConversionScreen | ResultScreen

  /** What a finished game reports: the two operands and the tiles each
      operand's zone ended up with. */
  datatype GameResult = GameResult(number1: int, number2: int,
                                   zone1Values: seq<ValueType>, zone2Values: seq<ValueType>)

  /** The element `App` renders, with the props it passes down. */
  datatype View =
    | SetupView
    | GameView(config: GameConfig)
    | ConversionView(allValues: seq<ValueType>)
    | ResultView(result: GameResult)
    | FallbackView

  /** Both zones' tiles in one list, zone 1 first
      (`[...zone1Values, ...zone2Values]`). */
  function Pooled(result: GameResult): (all: seq<ValueType>)
    ensures |all| == |result.zone1Values| + |result.zone2Values|
    ensures forall t :: CountOf(all, t) == CountOf(result.zone1Values, t) + CountOf(result.zone2Values, t)
    ensures TilesValue(all) == TilesValue(result.zone1Values) + TilesValue(result.zone2Values)
  {
    CountOfAppendAll(result.zone1Values, result.zone2Values);
    TilesValueAppend(result.zone1Values, result.zone2Values);
    result.zone1Values + result.zone2Values
  }

  /** The routing test of `handleGameComplete`: more than nine Unidades,
      Decenas or Centenas among the pooled tiles. */
  function RoutesToConversion(allValues: seq<ValueType>): (b: bool)
    ensures b <==> exists t :: IsCarrySource(t) && CountOf(allValues, t) > 9
  {
    assert IsCarrySource(Unidades) && IsCarrySource(Decenas) && IsCarrySource(Centenas);
    CountOf(allValues, Unidades) > 9 || CountOf(allValues, Decenas) > 9
      || CountOf(allValues, Centenas) > 9
  }

  /** The routing test agrees with the conversion panel's own
      `needsConversion` on the counts it mounts with, so the panel is
      entered exactly when it has work to do and is never entered already
      complete. */
  lemma RoutingAgreesWithPanel(allValues: seq<ValueType>)
    ensures RoutesToConversion(allValues) <==> NeedsConversion(CountAll(allValues))
  {
  }

  /** Adding Miles tiles, however many, never changes the routing. */
  lemma {:induction false} MilesNeverRoute(allValues: seq<ValueType>, n: nat)
    ensures RoutesToConversion(allValues + Repeat(Miles, n)) == RoutesToConversion(allValues)
  {
    CountOfAppendAll(allValues, Repeat(Miles, n));
  }

  /** `Math.ceil(n / 2)` for a tile count `n`: the smallest `h` with
      `2 * h >= n`. */
  function CeilHalf(n: nat): (h: nat)
    ensures n <= 2 * h <= n + 1
  {
    (n + 1) / 2
  }

  /** `CeilHalf` is the only number with its contract: the split point is
      determined by the bound alone. */
  lemma CeilHalfUnique(n: nat, h: nat)
    requires n <= 2 * h <= n + 1
    ensures h == CeilHalf(n)
  {
  }

  /** The stored result after conversion: the operands unchanged, zone 1
      the first half (rounded up) of the final tiles, zone 2 the rest. */
  function SplitResult(result: GameResult, finalValues: seq<ValueType>): (r: GameResult)
    ensures r.number1 == result.number1 && r.number2 == result.number2
    ensures r.zone1Values + r.zone2Values == finalValues
    ensures |r.zone1Values| == CeilHalf(|finalValues|)
    ensures |r.zone2Values| <= |r.zone1Values| <= |r.zone2Values| + 1
  {
    var h := CeilHalf(|finalValues|);
    assert finalValues[..h] + finalValues[h..] == finalValues;
    GameResult(result.number1, result.number2, finalValues[..h], finalValues[h..])
  }

  /** Splitting the final tiles keeps the number they stand for. */
  lemma SplitKeepsValue(result: GameResult, finalValues: seq<ValueType>)
    ensures TilesValue(SplitResult(result, finalValues).zone1Values)
          + TilesValue(SplitResult(result, finalValues).zone2Values) == TilesValue(finalValues)
  {
    var r := SplitResult(result, finalValues);
    TilesValueAppend(r.zone1Values, r.zone2Values);
  }

  class App {
    var currentPanel: Panel
    var gameConfig: Option<GameConfig>
    var gameResult: Option<GameResult>

    /** The initial state: the setup panel, nothing stored. */
    constructor ()
      ensures currentPanel == SetupScreen && gameConfig == None && gameResult == None
    {
      currentPanel := SetupScreen;
      gameConfig := None;
      gameResult := None;
    }

    /** `handleStartGame`: store the configuration and show the game. */
    method HandleStartGame(config: GameConfig)
      modifies this
      ensures gameConfig == Some(config) && currentPanel == GameScreen
      ensures gameResult == old(gameResult)
    {
      gameConfig := Some(config);
      currentPanel := GameScreen;
    }

    /** `handleGameComplete`: store the result, then show the conversion
        panel when the pooled tiles need carrying, the result panel
        otherwise. */
    method HandleGameComplete(result: GameResult)
      modifies this
      ensures gameResult == Some(result)
      ensures currentPanel == if RoutesToConversion(Pooled(result)) then ConversionScreen else ResultScreen
      ensures gameConfig == old(gameConfig)
    {
      gameResult := Some(result);
      var allValues := result.zone1Values + result.zone2Values;
      var needsConversion := CountOf(allValues, Unidades) > 9
        || CountOf(allValues, Decenas) > 9 || CountOf(allValues, Centenas) > 9;
      currentPanel := if needsConversion then ConversionScreen else ResultScreen;
    }

    /** `handleConversionComplete`: replace the stored result's zones by the
        two halves of the final tiles (only when a result is stored) and
        show the result panel either way. */
    method HandleConversionComplete(finalValues: seq<ValueType>)
      modifies this
      ensures currentPanel == ResultScreen
      ensures old(gameResult).None? ==> gameResult == None
      ensures old(gameResult).Some? ==> gameResult == Some(SplitResult(old(gameResult).value, finalValues))
      ensures gameConfig == old(gameConfig)
    {
      if gameResult.Some? {
        var half := CeilHalf(|finalValues|);
        gameResult := Some(gameResult.value.(zone1Values := finalValues[..half],
                                              zone2Values := finalValues[half..]));
      }
      currentPanel := ResultScreen;
    }

    /** `handlePlayAgain`: forget the configuration and the result and go
        back to the setup panel. */
    method HandlePlayAgain()
      modifies this
      ensures gameConfig == None && gameResult == None && currentPanel == SetupScreen
    {
      gameConfig := None;
      gameResult := None;
      currentPanel := SetupScreen;
    }

    /** The render: each panel is shown only when the state it needs is
        stored, and the fallback heading is shown otherwise. */
    function CurrentView(): (v: View)
      reads this
      ensures v == SetupView <==> currentPanel == SetupScreen
      ensures v.GameView? <==> currentPanel == GameScreen && gameConfig.Some?
      ensures v.GameView? ==> v.config == gameConfig.value
      ensures v.ConversionView? <==> currentPanel == ConversionScreen && gameResult.Some?
      ensures v.ConversionView? ==> v.allValues == Pooled(gameResult.value)
      ensures v.ResultView? <==> currentPanel == ResultScreen && gameResult.Some?
      ensures v.ResultView? ==> v.result == gameResult.value
      ensures v == FallbackView <==>
        (currentPanel == GameScreen && gameConfig.None?)
        || (currentPanel in {ConversionScreen, ResultScreen} && gameResult.None?)
    {
      match currentPanel
      case SetupScreen => SetupView
      case GameScreen => if gameConfig.Some? then GameView(gameConfig.value) else FallbackView
      case ConversionScreen =>
        if gameResult.Some? then ConversionView(Pooled(gameResult.value)) else FallbackView
      case ResultScreen => if gameResult.Some? then ResultView(gameResult.value) else FallbackView
    }

    /** The conversion round as the two components play it together: with
        the conversion panel mounted on this state's pooled tiles, its
        completion effect either reports nothing yet or hands its final
        tiles to `handleConversionComplete`. In the second case the result
        panel is shown and the stored zones stand for the same number as
        the zones the game reported. */
    method FinishConversion(panel: Conversion.ConversionPanel) returns (finished: bool)
      requires panel.Valid()
      requires currentPanel == ConversionScreen && gameResult.Some?
      requires panel.allValues == Pooled(gameResult.value)
      modifies this
      ensures finished ==> currentPanel == ResultScreen && gameResult.Some?
      ensures finished ==>
        gameResult == Some(SplitResult(old(gameResult).value, Conversion.FinalValues(old(panel.counts))))
        && gameConfig == old(gameConfig)
      ensures finished <==> !NeedsConversion(old(panel.counts)) && old(panel.conversionZoneValues) == []
      ensures finished ==>
        TilesValue(gameResult.value.zone1Values) + TilesValue(gameResult.value.zone2Values)
        == TilesValue(old(gameResult).value.zone1Values) + TilesValue(old(gameResult).value.zone2Values)
      ensures finished ==>
        gameResult.value.number1 == old(gameResult).value.number1
        && gameResult.value.number2 == old(gameResult).value.number2
      ensures !finished ==>
        currentPanel == old(currentPanel) && gameResult == old(gameResult) && gameConfig == old(gameConfig)
    {
      var finalValues := panel.CompletionEffect();
      if finalValues.None? {
        return false;
      }
      var stored := gameResult.value;
      SplitKeepsValue(stored, finalValues.value);
      HandleConversionComplete(finalValues.value);
      finished := true;
    }
  }
}
