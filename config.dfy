/** The game configuration the setup form produces and the game panel reads
    (`NumberMode`, `GameConfig`). */
module Config {
  import opened Wrappers

  datatype NumberMode = Random | Predefined

  /** `{ mode, number1?, number2? }`: in random mode both numbers are absent. */
  datatype GameConfig = GameConfig(mode: NumberMode, number1: Option<int>, number2: Option<int>)
}
