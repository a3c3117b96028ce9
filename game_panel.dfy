/** The game panel (`GamePanel`) as far as it exists: it resolves the
    configuration it receives into the two operands it displays, drawing
    them at random in random mode. */
module Game {
  import opened Wrappers
  import opened Config
  import opened JsParseInt
  import Setup

  /** The two operands a configuration resolves to. `draw1` and `draw2`
      stand for `Math.floor(Math.random() * 100)`, a whole number below 100;
      random operands are one more than their draw, predefined ones are the
      configured numbers or 0 when absent (`config.number1 || 0`). */
  function ResolveOperands(config: GameConfig, draw1: nat, draw2: nat): (r: (int, int))
    requires draw1 < 100 && draw2 < 100
    ensures config.mode == Random ==> 1 <= r.0 <= 100 && 1 <= r.1 <= 100
    ensures config.mode == Random ==> r.0 == draw1 + 1 && r.1 == draw2 + 1
    ensures config.mode == Predefined ==>
      r.0 == config.number1.GetOr(0) && r.1 == config.number2.GetOr(0)
  {
    match config.mode
    case Random => (draw1 + 1, draw2 + 1)
    case Predefined => (config.number1.GetOr(0), config.number2.GetOr(0))
  }

  /** Every operand from 1 to 100 can be drawn in random mode. */
  lemma EveryRandomOperandReachable(config: GameConfig, n1: int, n2: int)
    requires config.mode == Random
    requires 1 <= n1 <= 100 && 1 <= n2 <= 100
    ensures exists d1: nat, d2: nat :: d1 < 100 && d2 < 100 && ResolveOperands(config, d1, d2) == (n1, n2)
  {
    var d1: nat, d2: nat := n1 - 1, n2 - 1;
    assert ResolveOperands(config, d1, d2) == (n1, n2);
  }

  /** Numbers typed as decimal text in the setup form are the operands the
      game shows, whatever the draws. */
  lemma TypedNumbersBecomeOperands(n1: int, n2: int, draw1: nat, draw2: nat)
    requires draw1 < 100 && draw2 < 100
    ensures ResolveOperands(Setup.BuildConfig(Predefined, DecimalString(n1), DecimalString(n2)), draw1, draw2)
         == (n1, n2)
  {
    Setup.DecimalFieldsRoundTrip(n1, n2);
  }

  /** The mode line of the panel. */
  function ModeLabel(mode: NumberMode): (text: string)
    ensures text == "Aleatorio" <==> mode == Random
    ensures text == "Predefinido" <==> mode == Predefined
  {
    match mode
    case Random => "Aleatorio"
    case Predefined => "Predefinido"
  }

  class GamePanel {
    /** The `config` prop. */
    var config: GameConfig
    var num1: int
    var num2: int

    /** Mounting the panel: both operands start at 0, before the
        configuration effect has run. */
    constructor (config: GameConfig)
      ensures this.config == config && num1 == 0 && num2 == 0
    {
      this.config := config;
      num1 := 0;
      num2 := 0;
    }

    /** The configuration effect: assign both operands from the
        configuration. */
    method ConfigEffect(draw1: nat, draw2: nat)
      requires draw1 < 100 && draw2 < 100
      modifies this
      ensures (num1, num2) == ResolveOperands(config, draw1, draw2)
      ensures config == old(config)
    {
      if config.mode == Random {
        num1 := draw1 + 1;
        num2 := draw2 + 1;
      } else if config.mode == Predefined {
        num1 := config.number1.GetOr(0);
        num2 := config.number2.GetOr(0);
      }
    }

    /** A render with a `config` prop: the effect runs again only when the
        configuration differs from the one it last ran for, so otherwise the
        operands stay as they were. */
    method ReceiveConfig(newConfig: GameConfig, draw1: nat, draw2: nat)
      requires draw1 < 100 && draw2 < 100
      modifies this
      ensures config == newConfig
      ensures newConfig == old(config) ==> num1 == old(num1) && num2 == old(num2)
      ensures newConfig != old(config) ==> (num1, num2) == ResolveOperands(newConfig, draw1, draw2)
    {
      if newConfig != config {
        config := newConfig;
        ConfigEffect(draw1, draw2);
      }
    }
  }
}
