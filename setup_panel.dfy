/** The setup form (`SetupPanel`): a choice between random and predefined
    operands, two text fields for the predefined ones, and the start button
    that turns the form into a game configuration. */
module Setup {
  import opened Wrappers
  import opened Config
  import opened JsParseInt

  /** `parseInt(text) || 0`: the parsed integer, or 0 when the text holds no
      number (NaN is falsy, and so is 0 itself). */
  function NumberOrZero(text: string): (n: int)
    ensures ParseInt(text).None? ==> n == 0
    ensures ParseInt(text).Some? ==> n == ParseInt(text).value
  {
    ParseInt(text).GetOr(0)
  }

  /** The configuration `handleStartGame` builds: the mode, and only in
      predefined mode the two numbers read from the fields. */
  function BuildConfig(mode: NumberMode, number1: string, number2: string): (config: GameConfig)
    ensures config.mode == mode
    ensures config.number1.None? <==> mode == Random
    ensures config.number2.None? <==> mode == Random
    ensures mode == Predefined ==>
      config.number1 == Some(NumberOrZero(number1)) && config.number2 == Some(NumberOrZero(number2))
  {
    match mode
    case Predefined => GameConfig(mode, Some(NumberOrZero(number1)), Some(NumberOrZero(number2)))
    case Random => GameConfig(mode, None, None)
  }

  /** `isPredefinedValid`: the start button is enabled in random mode, and
      in predefined mode once both fields hold some text. */
  predicate StartEnabled(mode: NumberMode, number1: string, number2: string) {
    mode == Random || (number1 != "" && number2 != "")
  }

  /** The button is disabled exactly when a field is still empty in
      predefined mode, that is when starting would silently use 0 for an
      operand nobody typed. */
  lemma DisabledOnlyForEmptyField(mode: NumberMode, number1: string, number2: string)
    ensures !StartEnabled(mode, number1, number2) <==>
      mode == Predefined && (number1 == "" || number2 == "")
    ensures !StartEnabled(mode, number1, number2) ==>
      NumberOrZero(number1) == 0 || NumberOrZero(number2) == 0
  {
    if !StartEnabled(mode, number1, number2) {
      if number1 == "" {
        ParseIntWithoutDigits(number1);
      } else {
        ParseIntWithoutDigits(number2);
      }
    }
  }

  /** Predefined numbers typed as decimal text (as the number inputs hold
      them) reach the configuration unchanged. */
  lemma DecimalFieldsRoundTrip(n1: int, n2: int)
    ensures BuildConfig(Predefined, DecimalString(n1), DecimalString(n2))
         == GameConfig(Predefined, Some(n1), Some(n2))
  {
    ParseIntOfDecimalString(n1);
    ParseIntOfDecimalString(n2);
  }

  class SetupPanel {
    var mode: NumberMode
    var number1: string
    var number2: string

    /** The form as first shown: random mode, both fields empty. */
    constructor ()
      ensures mode == Random && number1 == "" && number2 == ""
    {
      mode := Random;
      number1 := "";
      number2 := "";
    }

    /** The radio group's `setMode`; the typed text is kept. */
    method SetMode(m: NumberMode)
      modifies this
      ensures mode == m && number1 == old(number1) && number2 == old(number2)
    {
      mode := m;
    }

    /** The first field's `setNumber1(e.target.value)`. */
    method SetNumber1(text: string)
      modifies this
      ensures number1 == text && mode == old(mode) && number2 == old(number2)
    {
      number1 := text;
    }

    /** The second field's `setNumber2(e.target.value)`. */
    method SetNumber2(text: string)
      modifies this
      ensures number2 == text && mode == old(mode) && number1 == old(number1)
    {
      number2 := text;
    }

    /** A click on "Comenzar Juego": nothing while the button is disabled,
        otherwise the configuration passed to `onStartGame`. */
    method ClickStart() returns (config: Option<GameConfig>)
      ensures config.Some? <==> StartEnabled(mode, number1, number2)
      ensures config.Some? ==> config.value == BuildConfig(mode, number1, number2)
    {
      var isPredefinedValid := mode == Random || (number1 != "" && number2 != "");
      if !isPredefinedValid {
        return None;
      }
      var c := if mode == Predefined
        then GameConfig(mode, Some(ParseInt(number1).GetOr(0)), Some(ParseInt(number2).GetOr(0)))
        else GameConfig(mode, None, None);
      config := Some(c);
    }
  }
}
