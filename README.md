# Place-value game: a verified model

This project models the core of *didactic-math*, a browser game that teaches addition in place value. The player sets up two operands (random or typed), and their tiles — Unidades, Decenas, Centenas, Miles (ones, tens, hundreds, thousands) — are pooled. When the pool holds ten or more tiles of a kind below Miles, the player carries by hand in the conversion panel: each tile is dragged from its generator into a conversion zone, and every ten tiles of one kind are exchanged for one tile of the next kind. When no generator below Miles holds more than nine tiles and the zone is empty, the result panel shows the tiles grouped by kind and, on request, the sum.

Modules:

- `Tiles` (`tiles.dfy`) holds the tile kinds, their weights 1/10/100/1000, per-kind counts (`Counts`, a map with an entry for every kind) and the number a list of tiles or a tally stands for.
- `Conversion` (`conversion_panel.dfy`) holds the conversion panel as a class. Its fields are `counts`, the generators, and `conversionZoneValues`, the zone. It has the drop handler, the conversion effect (one pass, and the re-running loop) and the completion effect. The invariant `Valid()` is preserved by every operation: generators plus zone always stand for the number the pooled tiles stand for.
- `Orchestrator` (`app.dfy`) holds the `App` component as a class. Its fields are `currentPanel`, `gameConfig` and `gameResult`. It has the four handlers, the render guards (`CurrentView`), the routing test and the rounded-up split of the final tiles.
- `Results` (`result_panel.dfy`) holds the result panel's tallies over both zones, the visible tile groups (Miles first, empty kinds omitted), and the `showResult` flag with the revealed sum.
- `Setup` (`setup_panel.dfy`) holds the setup form: `mode`, the two text fields, configuration building with `parseInt(text) || 0`, and the enable rule of the start button.
- `Game` (`game_panel.dfy`) holds the game panel's resolution of a configuration into the two operands.
- `JsParseInt` (`parse_int.dfy`) holds the global `parseInt` of ECMA-262 (section 19.2.5) with no radix argument.
- `Config` (`config.dfy`) holds the configuration datatypes.
- `Wrappers` (`wrappers.dfy`) holds `Option`.

Inputs that come from outside the program are parameters:

- the random draws `Math.floor(Math.random() * 100)`, each any whole number below 100;
- the dropped tile's kind;
- the text typed in the fields;
- the props each component receives.

Three facts about the code shape the model:

- Random operands are drawn from 1 to 100 (GamePanel.tsx lines 23-24).
- Carrying is not automatic. A conversion only happens to tiles the player has dragged into the zone, one kind per pass.
- Predefined operands may be negative: `parseInt("-5")` gives -5.

A consequence of the code that the model makes visible: a tile leaves the conversion zone only through a conversion of a kind below Miles. So a Miles tile dropped into the zone stays there for good. The completion effect needs an empty zone, so once that happens it can never fire. Three contracts show this:

- `RunConversionEffect` keeps the zone's Miles count.
- `ConvertedZone` leaves the count of every other kind untouched.
- `HandleTileDrop` only appends.

## Model

| member | source | states |
|---|---|---|
| Tiles.CountOf | src/components/ConversionPanel.tsx:167-168 | a kind's count is at most the list's length, and nonzero exactly when the kind occurs in the list |
| Tiles.CountAll | src/components/ConversionPanel.tsx:167-175 | each kind's tally is the number of tiles of that kind in the list (`countByType`) |
| Tiles.CountAllTotal | src/components/ConversionPanel.tsx:7 | because the tile kinds are a closed set of four, the four tallies add up to the length of the list |
| Tiles.TilesValueByCounts | src/components/ConversionPanel.tsx:167-175 | tallying a list keeps the number it stands for: the sum of tile weights equals units + 10·tens + 100·hundreds + 1000·thousands of the tallies |
| Tiles.NextType | src/components/ConversionPanel.tsx:274-280 | the next kind of Unidades, Decenas, Centenas is one rank up and weighs exactly ten times as much; Miles has none |
| Tiles.Repeat | src/components/ConversionPanel.tsx:285-287 | n tiles of one kind: length n, contains that kind n times and no other kind, and stands for n times its weight |
| Tiles.NeedsConversion | src/components/ConversionPanel.tsx:194-198 | true exactly when some kind other than Miles has more than nine tiles in the generators |
| Tiles.MilesNeverNeedConversion | src/components/ConversionPanel.tsx:194-198 | changing the Miles count never changes `needsConversion` |
| Tiles.ValueOfUpdate | src/components/ConversionPanel.tsx:211-215 | replacing one kind's count changes the value by that kind's weight times the change |
| Conversion.Without | src/components/ConversionPanel.tsx:283 | filtering a kind out of the zone leaves none of its tiles, keeps every other kind's count, and lowers the zone's value by the kind's weight times its count before the filter |
| Conversion.ConvertedZone | src/components/ConversionPanel.tsx:283-288 | after converting kind t, t has `count % 10` tiles in the zone, every other kind keeps its count, and the zone is shorter by ten per full group |
| Conversion.ConvertZoneValues | src/components/ConversionPanel.tsx:283-288 | the filter followed by the push loop of the leftovers builds exactly `ConvertedZone` |
| Conversion.FullKind | src/components/ConversionPanel.tsx:265-269 | the kind a pass picks is the first of Unidades, Decenas, Centenas with at least ten zone tiles (every smaller one has fewer than ten); none exactly when all three have fewer than ten; never Miles |
| Conversion.Credited | src/components/ConversionPanel.tsx:291-294 | the next kind's generator gains `Math.floor(count / 10)` tiles and every other generator is unchanged |
| Conversion.ConvertKeepsValue | src/components/ConversionPanel.tsx:271-294 | a conversion keeps generators + zone standing for the same number |
| Conversion.ConvertedZoneValue | src/components/ConversionPanel.tsx:283-288 | the zone loses the value of one next-kind tile per group of ten converted |
| Conversion.CreditedValue | src/components/ConversionPanel.tsx:291-294 | the generators gain the value of one next-kind tile per credited tile |
| Conversion.FinalValues | src/components/ConversionPanel.tsx:317-322 | the final list has `Total(counts)` tiles and holds each kind exactly as often as its generator count |
| Conversion.FinalValuesValue | src/components/ConversionPanel.tsx:317-322 | the final list stands for the number the counts stand for |
| Conversion.FinalValuesSorted | src/components/ConversionPanel.tsx:317-322 | the final list is ordered Unidades, then Decenas, Centenas, Miles |
| Conversion.ConversionPanel.constructor | src/components/ConversionPanel.tsx:167-191 | each generator holds the pooled count of its kind, the zone is empty, and the value invariant holds |
| Conversion.ConversionPanel.HandleTileDrop | src/components/ConversionPanel.tsx:201-215 | a drop is refused (nothing changes) iff that kind's generator is at 0; an accepted drop lowers exactly that count by 1 and appends exactly one tile of that kind to the zone; value is kept |
| Conversion.ConversionPanel.ConversionPass | src/components/ConversionPanel.tsx:260-311 | one effect run converts exactly the kind `FullKind` picks (only one per run, with the break), or changes nothing when there is none; the new zone and counts are `ConvertedZone`/`Credited`, the zone strictly shrinks, value is kept |
| Conversion.ConversionPanel.Convert | src/components/ConversionPanel.tsx:271-294 | the body of one conversion: zone becomes `ConvertedZone`, counts become `Credited`, value is kept |
| Conversion.ConversionPanel.RunConversionEffect | src/components/ConversionPanel.tsx:260-311 | re-running the effect while it changes the zone ends with fewer than ten zone tiles of each kind below Miles; each kind below Miles ends with its old zone count `% 10` tiles in the zone and its next kind's generator gains its old zone count `/ 10`; a zone that already has fewer than ten of each such kind sees no conversion; each conversion shrinks the zone by at least one tile; Miles tiles in the zone are untouched; the Unidades generator is kept and no generator ever loses tiles; value is kept |
| Conversion.ConvertTracks | src/components/ConversionPanel.tsx:271-294 | a conversion of any kind keeps, for every kind below Miles, its zone count modulo ten and its zone count plus ten times its next kind's generator |
| Conversion.SettledTracks | src/components/ConversionPanel.tsx:260-311 | once a kind has fewer than ten zone tiles, those facts pin its zone count to the starting count `% 10` and its next kind's credit to the starting count `/ 10` |
| Conversion.ConversionPanel.CompletionEffect | src/components/ConversionPanel.tsx:314-322 | the final tiles are reported iff `needsConversion` is false and the zone is empty; they are `FinalValues(counts)`, stand for the pooled tiles' number, and hold fewer than ten tiles of each kind below Miles |
| Orchestrator.Pooled | src/App.tsx:38 | the pooled list is zone 1 followed by zone 2: its length, per-kind counts and value are the sums of the two zones' |
| Orchestrator.RoutesToConversion | src/App.tsx:41-48 | true exactly when some kind other than Miles has more than nine pooled tiles |
| Orchestrator.RoutingAgreesWithPanel | src/App.tsx:44-50 | the routing test equals the conversion panel's `needsConversion` on the counts it mounts with, so the panel is entered exactly when it has work to do |
| Orchestrator.MilesNeverRoute | src/App.tsx:44-48 | adding any number of Miles tiles to the pool never changes the routing |
| Orchestrator.CeilHalf | src/App.tsx:58-59 | `Math.ceil(n / 2)`: n ≤ 2h ≤ n + 1 |
| Orchestrator.CeilHalfUnique | src/App.tsx:58-59 | that bound determines the split point uniquely |
| Orchestrator.SplitResult | src/App.tsx:56-60 | the operands are unchanged, zone 1 ++ zone 2 is the final list, zone 1 has ⌈n/2⌉ tiles and is at most one tile longer than zone 2 |
| Orchestrator.SplitKeepsValue | src/App.tsx:56-60 | the two halves together stand for the number the final list stands for |
| Orchestrator.App.constructor | src/App.tsx:25-27 | the app starts on the setup panel with no configuration and no result |
| Orchestrator.App.HandleStartGame | src/App.tsx:29-32 | the configuration is stored and the game panel is shown; the result is untouched |
| Orchestrator.App.HandleGameComplete | src/App.tsx:34-51 | the result is stored; the panel is the conversion panel iff the pooled tiles need carrying, the result panel otherwise; the configuration is untouched |
| Orchestrator.App.HandleConversionComplete | src/App.tsx:53-63 | a stored result gets the split final tiles as its zones, with its operands unchanged; no stored result stays absent; the result panel is shown either way |
| Orchestrator.App.HandlePlayAgain | src/App.tsx:65-69 | configuration and result are cleared and the setup panel is shown |
| Orchestrator.App.CurrentView | src/App.tsx:71-124 | each panel's view is rendered iff its panel is current and the state it needs is stored, with that state (the pooled tiles for the conversion panel); the fallback is shown in exactly the remaining cases |
| Orchestrator.App.FinishConversion | src/App.tsx:53-63 | the conversion panel's completion feeding `handleConversionComplete`: it reports exactly when no generator below Miles holds more than nine tiles and the zone is empty; then the result is the stored one with the panel's `FinalValues` split into its zones, the same operands, zones standing for the same number as those the game reported, the configuration kept and the result panel shown; otherwise nothing changes |
| Results.Totals | src/components/ResultPanel.tsx:25-32 | each kind's total is its count in zone 1 plus its count in zone 2 |
| Results.TotalsCoverBothZones | src/components/ResultPanel.tsx:29-32 | the four totals add up to the number of tiles in both zones |
| Results.TotalsValue | src/components/ResultPanel.tsx:29-32 | the totals stand for the number both zones' tiles stand for |
| Results.Groups | src/components/ResultPanel.tsx:55 | every rendered group has a nonzero count equal to its kind's total (a zero count renders nothing) |
| Results.GroupsCover | src/components/ResultPanel.tsx:55 | a listed kind gets a group exactly when its count is nonzero |
| Results.GroupsFollowKinds | src/components/ResultPanel.tsx:122-125 | for kinds listed largest first, the groups' kinds are listed largest first too |
| Results.GroupOrder | src/components/ResultPanel.tsx:122-125 | the four kinds listed from the largest to the smallest |
| Results.VisibleGroups | src/components/ResultPanel.tsx:122-125 | the groups shown are exactly the kinds with a nonzero total, each with its total, Miles first down to Unidades |
| Results.ResultPanel.constructor | src/components/ResultPanel.tsx:16-23 | the panel keeps its props and starts with the sum hidden |
| Results.ResultPanel.Reveal | src/components/ResultPanel.tsx:136-137 | the reveal button shows the sum; no operation hides it again |
| Results.ResultPanel.ShownGroups | src/components/ResultPanel.tsx:121-126 | each group drawn counts its kind over both zones and is never empty |
| Results.ResultPanel.ShownResult | src/components/ResultPanel.tsx:35 | a number is shown iff the sum was revealed, and it is `number1 + number2`, independent of the tiles |
| Results.ResultPanel.TilesAgreeWithSum | src/components/ResultPanel.tsx:29-35 | when the two zones' tiles together stand for `number1 + number2` (as after the split that follows a conversion), the totals drawn stand for the revealed sum |
| Setup.NumberOrZero | src/components/SetupPanel.tsx:29-30 | `parseInt(text) \|\| 0`: the parsed integer, or 0 on NaN |
| Setup.BuildConfig | src/components/SetupPanel.tsx:26-32 | the config carries the mode; its numbers are absent iff the mode is random, and in predefined mode they are the fields read by `NumberOrZero` |
| Setup.StartEnabled | src/components/SetupPanel.tsx:37 | `isPredefinedValid`: random mode, or both fields non-empty (its contract is stated by `DisabledOnlyForEmptyField` and `ClickStart`) |
| Setup.DisabledOnlyForEmptyField | src/components/SetupPanel.tsx:37 | the start button is disabled exactly in predefined mode with an empty field, which would otherwise be read as operand 0 |
| Setup.DecimalFieldsRoundTrip | src/components/SetupPanel.tsx:28-31 | integers typed as decimal text reach the configuration unchanged |
| Setup.SetupPanel.constructor | src/components/SetupPanel.tsx:21-23 | the form starts in random mode with both fields empty |
| Setup.SetupPanel.SetMode | src/components/SetupPanel.tsx:52 | the mode changes and the typed text is kept |
| Setup.SetupPanel.SetNumber1 | src/components/SetupPanel.tsx:77 | the first field changes; mode and second field are kept |
| Setup.SetupPanel.SetNumber2 | src/components/SetupPanel.tsx:87 | the second field changes; mode and first field are kept |
| Setup.SetupPanel.ClickStart | src/components/SetupPanel.tsx:25-37 | a configuration is produced iff the button is enabled (random mode, or both fields non-empty), and it is `BuildConfig` of the form |
| Game.ResolveOperands | src/components/GamePanel.tsx:19-30 | random mode gives draw + 1, so both operands lie in [1, 100]; predefined mode gives the configured numbers, or 0 when absent |
| Game.EveryRandomOperandReachable | src/components/GamePanel.tsx:23-24 | every pair of operands in [1, 100] comes from some pair of draws |
| Game.TypedNumbersBecomeOperands | src/components/GamePanel.tsx:25-28 | integers typed in the setup form are the operands the game panel shows, whatever the draws |
| Game.ModeLabel | src/components/GamePanel.tsx:37 | the label is "Aleatorio" iff the mode is random and "Predefinido" iff it is predefined |
| Game.GamePanel.constructor | src/components/GamePanel.tsx:15-17 | both operands start at 0 |
| Game.GamePanel.ConfigEffect | src/components/GamePanel.tsx:19-29 | the effect sets the operands to `ResolveOperands` of the configuration and nothing else |
| Game.GamePanel.ReceiveConfig | src/components/GamePanel.tsx:19-30 | the operands are recomputed only for a different configuration; for the same one they are unchanged |
| JsParseInt.ParseInt | src/components/SetupPanel.tsx:29-30 | `parseInt(text)`: text of white space only, the empty text included, gives NaN; a number is read only from text that holds a decimal digit |
| JsParseInt.ParseSigned | src/components/SetupPanel.tsx:29-30 | a number read from trimmed text starts at its first character or right after one sign; a negative result needs a leading '-'; a sign followed by a nonzero digit gives a number whose sign is that sign |
| JsParseInt.ParseMagnitude | src/components/SetupPanel.tsx:29-30 | a magnitude is read only from text that starts with a decimal digit; text that starts with a nonzero digit gives a positive magnitude |
| JsParseInt.TrimStart | src/components/SetupPanel.tsx:29-30 | the trimmed text is a suffix; everything cut is white space and the rest does not start with white space |
| JsParseInt.DigitRun | src/components/SetupPanel.tsx:29-30 | the digit run is the longest prefix of digits in the radix |
| JsParseInt.ParseIntOfDecimalString | src/components/SetupPanel.tsx:29-30 | `parseInt` reads back the decimal text of every integer, negative ones included |
| JsParseInt.ParseIntIgnoresLeadingWhiteSpace | src/components/SetupPanel.tsx:29-30 | leading white space never changes the result |
| JsParseInt.ParseIntStopsAtNonDigit | src/components/SetupPanel.tsx:29-30 | the result is the value of the leading digits; reading stops at the first non-digit (e.g. "12.7" gives 12), unless the text starts "0x" |
| JsParseInt.SignedStopsAtNonDigit | src/components/SetupPanel.tsx:29-30 | a '+' or '-' before the leading digits gives their value with that sign, stopping at the first non-digit ("-12.7" gives -12, "-007" gives -7, "+5" gives 5, "-0" gives 0) |
| JsParseInt.ParseIntWithoutDigits | src/components/SetupPanel.tsx:29-30 | text with no decimal digit, the empty text included, gives NaN |
| JsParseInt.NatDigitsValue | src/components/SetupPanel.tsx:72-77 | the decimal digits of a natural number denote it |

## Left out

- The drag-and-drop machinery of the conversion panel is not modelled: pointer hit-testing against bounding rectangles, z-index scanning, and the `activeTiles` ids built from `Date.now()`. A drop is modelled as a call with the dropped kind.
- Confetti, toasts and animations are left out. They are presentation with timers and randomness.
- The one-second `setTimeout` before `onConversionComplete` is left out. The completion effect returns the final tiles instead of calling back later.
- React's scheduling is not modelled. State updates are applied in order, and the effect's re-run after a zone change is the loop in `RunConversionEffect`.
- Repeated firing of the completion effect is not modelled. `FinishConversion` models one completion.
- Conversion.ConversionPanel.RunConversionEffect: the exact number of re-runs is not modelled. It states an upper bound (the zone shrinks by at least one tile per conversion), not the exact count.
- Game.GamePanel.ReceiveConfig: compares configurations by value, where React compares the `config` prop by object identity. A new object with equal fields re-runs the effect in the source but not in the model.
- The game round is not modelled: decomposition, placement into the two zones, and `onGameComplete`. The game panel is a placeholder that never reports a result (GamePanel.tsx lines 11-13 and 41). `HandleGameComplete` takes the result as a parameter.
- `Math.random()` is not modelled. Each draw is a parameter below 100.
- Rendering, styling and motion props are left out. `CurrentView` names only the element chosen and its props.
- Results.ResultPanel.ShownResult: `number1 + number2` is a JavaScript number addition, which rounds both the operands and the sum to the nearest double once they pass 2^53. The model adds exact integers.
- JsParseInt.ParseInt: numbers are exact integers. It does not model rounding to the nearest double above 2^53, negative zero, or UTF-16 surrogate pairs (text is a sequence of Unicode scalar values).
- The radix-deduction path of `parseInt` is modelled only as a prefix test: "0x"/"0X" selects radix 16. An explicit radix argument never occurs in the source.
- The service worker (public/sw.js), the entry point (src/main.tsx) and the build configuration (vite.config.ts) are not part of this model. They are cache and network I/O, environment lookup and build settings.
- `number1`/`number2` in a configuration can be any integer from `parseInt`. The input's `type="number"` restriction is browser behaviour and is not modelled.
