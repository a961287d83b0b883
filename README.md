# WaterFlask in Dafny

A verified model of the water flask behind the WaterFlask desktop program. A flask holds
water at a temperature (degrees Celsius, no bounds) with a capacity of 500 ml and a current
volume. Four operations change it: heat and cool add or subtract a temperature delta; fill
and drink add or remove volume, saturating at the capacity and at zero. The window shows a
picture of the flask labelled with one of five temperature bands (ICE, COOL, ROOM TEMP,
WARM, HOT!). It hides the Fill button when the flask is full and the Drink button when it
is empty. Java `double`s are modelled as mathematical reals.

The files:

- `flask_spec.dfy`, module `FlaskSpec`: the flask's state as a value (`FlaskState`). It
  holds the clamping arithmetic (`NewFlask`, `FillVolume`, `DrinkVolume`), the four
  operations as commands (`Command`, `Apply`), runs of several commands (`Run`), the
  button-visibility conditions (`FillHidden`, `DrinkHidden`) and the lemmas about them.
- `bands.dfy`, module `Bands`: the five temperature bands, the interval each covers
  (`InBand`) and the label each shows.
- `water_flask_gui.dfy`, module `WaterFlaskGui`: class `WaterFlask` has the three fields
  and the operations that update them in place. Each method's contract ties the new
  fields to the functions of `FlaskSpec`. Class `Window` holds the flask and the
  visibility of the two buttons. `Press` is one button press: the operation, then
  `UpdateDisplay`. `FillAndDrinkScenario` is a client of these contracts. It starts from
  the opening flask (25 degrees, 250 ml), fills 300 ml, drinks 500 ml, then drinks 10 ml.
  Using only the contracts, it shows that the volume ends at 500, 0 and 0, and which
  buttons are hidden after each step.

The volume range `0 <= currentVolume <= capacity` is not an invariant of the code. It is
enforced only when callers pass non-negative amounts:

- The constructor caps the initial volume at the capacity but does not floor it at zero.
  `NewFlask` states that the range holds exactly when the initial volume is non-negative.
- A negative fill can drive the volume below zero (`NegativeFillUnderflows`).
- A negative drink can push it above the capacity (`NegativeDrinkOverflows`).
- With non-negative fill and drink amounts, every sequence of operations keeps the range
  (`RunPreservesRange`, `NewFlaskStaysInRange`).

The model follows the code here. It does not follow the reading that the range always
holds.

`getCurrentVolume` and `getCapacity` (src/WaterFlaskGUI.java:222-228) are modelled as the
reading functions `WaterFlask.GetCurrentVolume` and `WaterFlask.GetCapacity`. They have
no contract of their own. `UpdateDisplay` uses them exactly as the source does.

## Model

| member | source | states |
|---|---|---|
| `FlaskSpec.NewFlask` | src/WaterFlaskGUI.java:130-138 | The temperature is the initial temperature and the capacity is 500. The volume is min(initialVolume, 500). The volume is in range iff initialVolume >= 0, because there is no lower clamp. |
| `FlaskSpec.FillVolume` | src/WaterFlaskGUI.java:151-157 | The result is min(current + amount, capacity), stated as a lower bound on both plus equality with one of them. A non-negative amount never lowers a volume that is at most the capacity. |
| `FlaskSpec.DrinkVolume` | src/WaterFlaskGUI.java:160-166 | The result is max(current - amount, 0), stated as an upper bound on both plus equality with one of them. A non-negative amount never raises a non-negative volume. |
| `FlaskSpec.FillFullStaysFull` | src/WaterFlaskGUI.java:151-157 | Filling a full flask with a non-negative amount leaves it full. |
| `FlaskSpec.DrinkEmptyStaysEmpty` | src/WaterFlaskGUI.java:160-166 | Drinking a non-negative amount from an empty flask leaves it at 0. |
| `FlaskSpec.NegativeFillUnderflows` | src/WaterFlaskGUI.java:152-153 | From an in-range volume, a negative fill larger than the volume makes the volume negative. |
| `FlaskSpec.NegativeDrinkOverflows` | src/WaterFlaskGUI.java:161-162 | From an in-range volume, a negative drink can leave the volume above capacity. |
| `FlaskSpec.Apply` | src/WaterFlaskGUI.java:140-166 | No operation changes the capacity. Heat and cool leave the volume unchanged. Fill and drink leave the temperature unchanged. Each operation keeps the volume in range when fill and drink amounts are non-negative. |
| `FlaskSpec.Run` | src/WaterFlaskGUI.java:125-166 | No sequence of operations changes the capacity. |
| `FlaskSpec.RunPreservesRange` | src/WaterFlaskGUI.java:151-166 | From an in-range state, any sequence of operations with non-negative fill and drink amounts ends in range. |
| `FlaskSpec.NewFlaskStaysInRange` | src/WaterFlaskGUI.java:130-166 | A flask built with a non-negative initial volume has capacity 500. It stays in range through any such sequence. |
| `FlaskSpec.RunTemperature` | src/WaterFlaskGUI.java:141-148 | The temperature is never clamped. After any sequence of operations it equals the start temperature plus the heats minus the cools. |
| `FlaskSpec.HeatThenCoolRestores` | src/WaterFlaskGUI.java:141-148 | Heating by d and then cooling by d restores the whole state exactly. |
| `FlaskSpec.OverflowingFillHidesFill` | src/WaterFlaskGUI.java:108-112 | A fill that would overflow leaves the volume at capacity, so the Fill button is hidden. |
| `FlaskSpec.UnderflowingDrinkHidesDrink` | src/WaterFlaskGUI.java:114-118 | A drink that would underflow leaves the volume at 0, so the Drink button is hidden. |
| `FlaskSpec.HiddenInRange` | src/WaterFlaskGUI.java:104-119 | For an in-range flask, Fill is hidden iff the flask is full and Drink is hidden iff it is empty. Both are hidden only when the capacity is zero. |
| `Bands.BandsDisjoint` | src/WaterFlaskGUI.java:173-218 | No temperature lies in two bands. |
| `Bands.BandExamples` | src/WaterFlaskGUI.java:173-218 | -5 is ICE. 0 and 20 are COOL. 20.0001 and 25 are ROOM TEMP. 40 is WARM. 40.0001 is HOT!. |
| `Bands.Label` | src/WaterFlaskGUI.java:173-218 | Every band has a non-empty label (ICE, COOL, ROOM TEMP, WARM, HOT!). |
| `Bands.LabelsDistinct` | src/WaterFlaskGUI.java:173-218 | Different bands show different labels. |
| `WaterFlaskGui.WaterFlask.constructor` | src/WaterFlaskGUI.java:130-138 | The new fields are exactly `NewFlask(initialTemperature, initialVolume)`. |
| `WaterFlaskGui.WaterFlask.Heat` | src/WaterFlaskGUI.java:141-143 | The temperature rises by `degrees`. Capacity and volume are unchanged. |
| `WaterFlaskGui.WaterFlask.Cool` | src/WaterFlaskGUI.java:146-148 | The temperature falls by `degrees`. Capacity and volume are unchanged. |
| `WaterFlaskGui.WaterFlask.Fill` | src/WaterFlaskGUI.java:151-157 | The volume becomes `FillVolume` of the old volume, the capacity and the amount. Temperature and capacity are unchanged. |
| `WaterFlaskGui.WaterFlask.Drink` | src/WaterFlaskGUI.java:160-166 | The volume becomes `DrinkVolume` of the old volume and the amount. Temperature and capacity are unchanged. |
| `WaterFlaskGui.WaterFlask.DisplayBand` | src/WaterFlaskGUI.java:169-220 | The band the picture shows is the band whose interval holds the temperature. Together with `BandsDisjoint`, every temperature gets exactly one band. |
| `WaterFlaskGui.Window.constructor` | src/WaterFlaskGUI.java:13-102 | The window opens on a fresh flask at 25 degrees with 250 ml. The display and the button visibility match that flask. |
| `WaterFlaskGui.Window.UpdateDisplay` | src/WaterFlaskGUI.java:104-119 | The shown band holds the temperature. Fill is visible iff volume < capacity. Drink is visible iff volume > 0. |
| `WaterFlaskGui.Window.Press` | src/WaterFlaskGUI.java:60-94 | The flask's new state is `Apply` of its old state and the pressed command. The display and visibility are then recomputed from the new state. |

## Left out

- Swing construction, layout, fonts, button sizes and `main` (src/WaterFlaskGUI.java:16-57, 96-101, 121-123) are UI plumbing with no logic.
- Parsing the input fields with `Double.parseDouble`, and the `NumberFormatException` on malformed text, are library calls. Each button press takes the already-parsed number as its argument.
- The exact display text is not modelled: Java's `Double.toString` of the numbers, the HTML `<br>`/`&nbsp;` markup and the ASCII-art lines. Only the chosen band and its label are modelled.
- IEEE-754 behaviour is not modelled: rounding, NaN and infinities. Over doubles, heat-then-cool need not restore the temperature exactly, and a NaN temperature falls through the band chain to HOT!. Neither is claimed here.
