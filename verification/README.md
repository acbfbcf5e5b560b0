# Heparin adjustment calculator — Dafny model

The calculator takes a patient's weight, the current infusion-pump rate, the
latest PTT (partial thromboplastin time) and the way the heparin bag was mixed.
From these it recommends a heparin bolus and a new pump rate. Its logic sits
inside `main()` of `app.py`, mixed in with the Streamlit form. This project
lifts that logic out as pure functions over `real` and proves what it does.

- **Choices from the form** (`selection.dfy`, `substring.dfy`). The
  concentration is 100 units/ml when the radio button's label contains
  `"100"`, and 500 units/ml otherwise. The protocol is the weight-scaled
  high-intensity table when the select box's label contains `"High"`, and the
  fixed-dose standard/low-intensity table otherwise. Python's `in` on strings
  is modelled as `Substring.Contains`, with its meaning stated as "some index
  starts an occurrence".
- **Rule chains** (`nomogram.dfy`). `HighIntensityAdvice` and
  `StandardLowAdvice` follow the `if`/`elif`/`else` chains branch for branch.
  Each branch overwrites the initial advice: no bolus, no change, blue, no
  message. The high-intensity guards use whole-number bounds (`<= 49` /
  `>= 50`, `<= 70` / `>= 71`). So a PTT strictly between 49 and 50, or
  strictly between 70 and 71, matches no guard. It ends in the final branch
  (hold the infusion and lower the rate by 3 units/kg/hr), as a PTT above 90
  does. The model keeps this behaviour as written.
- **Reference table** (`rule_table.dfy`). The same nomogram is written as
  data: rows of PTT guards and per-kg or fixed doses, read first match first.
  `AdviseFollowsTable` proves the chains and the tables agree on every input.
- **Conversion and clamp** (`nomogram.dfy`). Units become millilitres by
  dividing by the concentration. This applies to both the rate change and the
  bolus volume. The new pump rate is the current rate plus the change,
  raised to 0 when it would be negative. `Evaluate` composes the whole
  calculation into one `Recommendation`.
- **Properties** (`properties.dfy`, `scenarios.dfy`). These cover bucket
  membership with its boundaries and gaps, the direction of each adjustment,
  the ordering of doses as the PTT rises, and worked cases.

Facts about `app.py` that shape the model:

- The high-intensity guards leave two open gaps, (49, 50) and (70, 71)
  (app.py:64-76). A PTT in a gap gets the hold-infusion advice of the final
  branch (app.py:82-86).
- The code has no error path for bad inputs. The form's `min_value` settings
  (app.py:36, 39-40) keep the rate and the PTT at 0 or more and the weight
  at 1 or more. These are the `requires` of `Evaluate`.
- The code sets colour strings (app.py:62-104), modelled as `Colour`.

## Model

| member | source | states |
|---|---|---|
| Substring.Contains | app.py:22 | Python's substring test: true exactly when some index of the text starts an occurrence of the pattern |
| Nomogram.Concentration.UnitsPerMl | app.py:22-25 | a bag holds either 100 or 500 units per ml, so every division by the concentration is by a positive number |
| Selection.SelectConcentration | app.py:22-25 | the concentration is 100 units/ml exactly when the label contains "100", and 500 units/ml exactly when it does not |
| Selection.StandardLabelSelects | app.py:13-25 | the "Standard (100 units : 1 ml)" label selects 100 units/ml |
| Selection.ConcentrateLabelSelects | app.py:13-25 | the "Concentrate (500 units : 1 ml)" label does not contain "100", so it selects 500 units/ml |
| Selection.SelectProtocol | app.py:53 | the weight-scaled table is used exactly when the protocol label contains "High" |
| Selection.ProtocolLabels | app.py:35-53 | each of the two select-box labels picks the table it names |
| Nomogram.HighIntensityAdvice | app.py:57-86 | each high-intensity message is produced by exactly its PTT range (below 35, 35 to 49, 50 to 70, 71 to 90, and hold-infusion for above 90 or the gaps) and carries 80/+4, 40/+2, 0/0, 0/-2 or 0/-3 units per kg with red, orange, green, orange or red |
| Nomogram.StandardLowAdvice | app.py:92-104 | each standard/low message is produced by exactly PTT below 35, 35 to 70, or above 70, and carries 5000/+200 red, 0/0 green or 0/-200 orange |
| Nomogram.Advise | app.py:45-104 | every path overwrites the initial blue colour and empty message; for weight at least 1 the bolus is never negative, a bolus comes only with a rate increase, and the colour is green exactly when the rate is unchanged; a green result carries no bolus; the fixed-dose bolus is 0 or 5000 |
| Nomogram.ToMl | app.py:110 | the millilitres times the concentration give back the units, and the millilitres have the sign of the units |
| Nomogram.ClampedRate | app.py:111-114 | the new rate is never negative, never below current rate plus change, and is either 0 or exactly current rate plus change |
| Nomogram.Evaluate | app.py:45-130 | from the form's inputs: the colour is red, orange or green; bolus, bolus volume and new rate are non-negative; both volumes convert back to their units; a bolus implies a rate increase; green exactly when the change is 0; the rate is unchanged exactly when the change is 0 or a cut meets a rate already at 0; the new rate is max(0, current rate + change); bolus, rate change, message and colour are those of the selected rule chain for the weight and PTT |
| RuleTable.Lookup | app.py:57-104 | first-match reading of an elif chain: the action of the first row whose guard admits the PTT, or the fallback when none does |
| RuleTable.AdviseFollowsTable | app.py:53-104 | for every protocol, weight and PTT, the rule chain prescribes exactly what the table lookup prescribes |
| RuleTable.RowsAreDisjoint | app.py:57-104 | no PTT satisfies two guards of the same protocol, so the order of the branches does not matter |
| RuleTable.HighIntensityUncovered | app.py:57-86 | no high-intensity guard admits the PTT exactly when it is above 90 or strictly inside (49, 50) or (70, 71) |
| RuleTable.StandardLowUncovered | app.py:92-104 | no standard/low-intensity guard admits the PTT exactly when it is above 70 |
| NomogramProperties.BoundaryValues | app.py:57-104 | 35 and 49 are in the second high-intensity bucket, 50 and 70 in the target range, 71 and 90 in the fourth, 49.5 and 70.5 get hold-infusion; 35 and 70 keep the fixed-dose rate |
| NomogramProperties.RateChangeDirection | app.py:53-104 | for weight at least 1, the rate goes up, stays or goes down exactly on the stated PTT ranges of each protocol |
| NomogramProperties.BolusNonIncreasing | app.py:53-104 | a higher PTT never gives a larger bolus |
| NomogramProperties.RateChangeNonIncreasing | app.py:53-104 | a higher PTT never gives a larger rate change when neither PTT lies in a high-intensity gap |
| NomogramProperties.GapReversesOrder | app.py:64-86 | inside the gap the order fails: a PTT of 49.5 lowers the rate while 50 leaves it |
| NomogramProperties.ToMlInverse | app.py:110 | converting units to millilitres and millilitres to units are inverse in both directions |
| NomogramProperties.ClampedRateUnchanged | app.py:111-114 | with a non-negative current rate, the pump rate stays the same exactly when the change is 0, or when the rate is 0 and the change is a cut |
| Scenarios.SubTherapeuticHighIntensity | app.py:57-130 | 70 kg, PTT 30, 100 units/ml, 20 ml/hr: bolus 5600 units (56 ml), +280 units/hr (+2.8 ml/hr), new rate 22.8, red |
| Scenarios.ElevatedStandardLow | app.py:92-130 | fixed dose, PTT 80, 500 units/ml, 10 ml/hr: no bolus, -200 units/hr (-0.4 ml/hr), new rate 9.6, orange |
| Scenarios.HoldHighIntensity | app.py:82-114 | 60 kg, PTT 100, 100 units/ml, 5 ml/hr: -180 units/hr (-1.8 ml/hr), new rate 3.2, red, hold infusion |
| Scenarios.ClampAtZero | app.py:82-114 | 50 kg, PTT 95, 100 units/ml, 0.5 ml/hr: -1.5 ml/hr would go negative, so the new rate is 0 |

## Left out

- The Streamlit page: page settings, title, widgets, button, columns, metrics and captions (app.py:4-43, 116-134). These are user interface and I/O. The widgets' minimum values appear only as the `requires` of `Evaluate`.
- The mapping from colour to banner kind (red to error, orange to warning, anything else to success; app.py:118-123). This is presentation.
- Number formatting: `int()` truncation of the bolus, one-decimal and signed rendering, thousands separators (app.py:129-134). This is presentation.
- The Thai and English message texts. `Message` names each outcome by meaning. The two "PTT very low" texts of the two protocols are both `VeryLow`.
- `current_dose_units_hr` (app.py:55). It is computed and never used.
- Floating point rounding. All quantities are `real`, so scenario values such as 22.8 are exact.
