# Rule-based farm recommendation engine in Dafny

This project models `generateRecommendation` from `server/engine/recommender.js`. It is the
engine that turns one farm's state into a single recommendation record. Its inputs are:

- a farm (soil type, current crop);
- an optional IoT reading (water level);
- an optional drone detection (disease label);
- two knowledge-base tables: crop rules keyed by soil type, and disease rules keyed by disease name.

The record has eight string fields. The engine starts from a default template. It then
overwrites fields through three independent rules:

- **Crop.** With no crop planted (the crop is exactly `"None"` or `""`), the suggestion names
  the crop of the first crop rule for the farm's soil. It stays "Keep monitoring" when no rule
  fits. With a crop planted, it names the current crop.
- **Water.** With a reading, the level gives the code `water_low` (below 5.0), `water_high`
  (above 10.0) or `water_optimal` (from 5.0 to 10.0 inclusive).
- **Disease.** With a detection, its label is copied into `disease_detected`. The label is then
  normalised (ASCII lower-case, `_` to space, trim). The first disease rule whose normalised name
  equals the label, contains it, or is contained in it supplies the five treatment fields.
  Without a match, any label other than exactly `"Healthy"` gets "Consult local expert" and
  dosage "N/A".

Layout:

- `wrappers.dfy`: `Option`, for the absent inputs and the search result.
- `text.dfy`: the normaliser and its parts, plus `String.prototype.includes`.
- `search.dfy`: `Array.prototype.find` as `FindFirst`, which returns the position of the first match.
- `recommender.dfy`: the records, the three rules as declarative predicates, the method
  `GenerateRecommendation`, and lemmas about the rules.

`GenerateRecommendation` follows the source's step-by-step updates of one local record. Its
postconditions are the three rule predicates. Those predicates state first-match selection
through `IsFirstMatch`/`NoMatch`, with no reference to the search the method runs.
`RecommendationDetermined` shows that the three predicates fix every field. So the engine is
a function of its inputs: two calls with the same inputs give equal records.

Some behaviour of the code that is easy to miss:

- The "Healthy" exception is an exact, case-sensitive comparison with the raw label. It is not
  a case-insensitive test on the normalised label (`HealthyTestIsCaseSensitive`).
- The code does not check that the farm has a soil type, and raises no error for a missing one.
  In the model the soil type is a plain string, compared exactly.
- With no reading and no detection, the crop suggestion still depends on the farm. Only the
  other seven fields are the defaults (`AbsentInputsKeepDefaults`).
- The comment above the lookup (recommender.js:40-41) speaks of trying an exact match first, and
  then looser ones. The code does not do that. It takes the first rule in table order that
  satisfies any of the three tests. So an earlier, shorter name contained in the label beats a later exact name
  (`EarlierContainedNameWins`).

## Model

| member | source | states |
|---|---|---|
| Recommender.GenerateRecommendation | server/engine/recommender.js:3-64 | The record it returns satisfies the crop rule, the water rule and the disease rule. With no crop (`"None"` or `""`): "Recommended: " + the crop of the first table entry whose soil equals the farm's, or "Keep monitoring" when no entry does. Otherwise: "Current Crop: " + the crop. Without a reading: "Check water levels". With one: each code exactly when the level is in its band. Without a detection: disease "None" and treatment defaults. With one: the label verbatim, then one of three outcomes. (a) The treatment of the lowest-index matching rule. (b) With no match and a label other than "Healthy": "Consult local expert"/"N/A" with the other fields "None". (c) With no match and "Healthy": the defaults. |
| Recommender.HasNoCrop | server/engine/recommender.js:16 | The definition of the "no crop planted" test: the crop is exactly "None" or "", case-sensitively. `CropRuleHolds` and `GenerateRecommendation` both use it. It has no contract of its own. |
| Recommender.SoilIs | server/engine/recommender.js:17 | The definition of the crop lookup's callback: the entry's soil type equals the farm's, compared exactly. `CropRuleHolds` and `GenerateRecommendation` both use it. It has no contract of its own. |
| Recommender.NameMatches | server/engine/recommender.js:45-49 | The disease lookup's callback accepts a rule exactly when its normalised name equals the normalised label, or one of the two occurs as a contiguous slice of the other. |
| Recommender.RecommendationDetermined | server/engine/recommender.js:3-64 | Any two records satisfying the three rules for the same inputs are equal: every output field is fixed by the inputs. |
| Recommender.AbsentInputsKeepDefaults | server/engine/recommender.js:4-13 | With no reading and no detection, the record is the default template `DefaultRecommendation` ("Keep monitoring", "Check water levels", "None" ×5, dosage "N/A") except for the crop suggestion. |
| Recommender.PlantedCropIgnoresTable | server/engine/recommender.js:16-23 | With a crop planted, the suggestion is "Current Crop: " + the crop, for any crop table. |
| Recommender.LoamySoilExample | server/engine/recommender.js:16-20 | An empty crop on loamy soil, with the table [loamy→Paddy], gives "Recommended: Paddy". |
| Recommender.WaterBoundaryExamples | server/engine/recommender.js:26-34 | The levels 4.999, 5.0, 10.0 and 10.001 give water_low, water_optimal, water_optimal and water_high. |
| Recommender.FirstMatchingRuleIsCopied | server/engine/recommender.js:45-56 | When position k holds the first rule matching the normalised label, all five treatment fields are copied from that rule. |
| Recommender.DeadHeartTreatmentExample | server/engine/recommender.js:37-56 | The label "Dead Heart" against a table with the rule "dead heart" reports the label and copies that rule's five treatment fields verbatim. |
| Recommender.EarlierContainedNameWins | server/engine/recommender.js:45-49 | For the label "Dead Heart" with the table ["Heart", "Dead Heart"], both rules match, and the earlier, merely contained "Heart" supplies the treatment. |
| Recommender.HealthyTestIsCaseSensitive | server/engine/recommender.js:57-60 | A lower-case "healthy" label that matches no rule gets "Consult local expert" and "N/A": only the exact "Healthy" is exempt. |
| Recommender.SnakeCaseAndSpacedNamesAgree | server/engine/recommender.js:42 | "dead_heart" and "Dead Heart" have the same normal form. This is one case of `NormalizeIgnoresUnderscores` and `NormalizeIgnoresCase`. |
| Recommender.SnakeCaseLabelMatchesSpacedName | server/engine/recommender.js:42-48 | The snake-case label "dead_heart" matches a rule named "Dead Heart", for any treatment fields. |
| Recommender.DeadHeartNormalForm | server/engine/recommender.js:42 | "Dead Heart" normalises to "dead heart". The other "Dead Heart" lemmas cite this fact. |
| Recommender.HeartNormalForm | server/engine/recommender.js:42 | "Heart" normalises to "heart". |
| Text.Includes | server/engine/recommender.js:47-48 | `String.prototype.includes`: the empty needle is contained in every string, and a needle is only ever found in a haystack at least as long. `IncludesIff` gives the full characterisation. |
| Recommender.EmptyLabelSelectsFirstRule | server/engine/recommender.js:43-56 | A detection whose label normalises to "" (as `""` or `"__"` do) takes its treatment from the rule at position 0 of any non-empty disease table. |
| Recommender.UnderscoresNormaliseToEmpty | server/engine/recommender.js:42 | "__" normalises to the empty string. |
| Recommender.EmptyRuleNameMatchesEveryLabel | server/engine/recommender.js:45-48 | A rule whose name normalises to "" matches every detected label. |
| Search.FindFirst | server/engine/recommender.js:17 | The `find` lookup (used for both tables, here and at lines 45-49): a returned position holds an element satisfying the predicate, and no earlier element does. None means no element satisfies it. |
| Search.FirstMatchUnique | server/engine/recommender.js:45-49 | The first matching position is unique. |
| Text.LowerCase | server/engine/recommender.js:42 | Same length and no capitals left. Every non-capital is kept, and every ASCII capital becomes the letter 32 code points above it (its small letter). |
| Text.ToLower | server/engine/recommender.js:42 | The character step of `toLowerCase`: an ASCII capital becomes the small letter at the same offset from 'a' as the capital from 'A'. Every other character is kept. The result is never a capital. |
| Text.ReplaceUnderscores | server/engine/recommender.js:42 | Same length and no underscore left. Every underscore becomes a space, and every other character is kept. |
| Text.SkipLeadingSpaces | server/engine/recommender.js:42 | The first position at or after the start that does not hold whitespace: everything skipped is whitespace and the stop is a non-space or the end. |
| Text.SkipTrailingSpaces | server/engine/recommender.js:42 | The end of a range once trailing whitespace is dropped: everything dropped is whitespace, and the new end follows a non-space or meets the range start. |
| Text.Trim | server/engine/recommender.js:42 | The result is a slice of the input with whitespace only outside it, and no whitespace at either end. It holds only characters of the input. An already-trimmed input is returned unchanged. |
| Text.Normalize | server/engine/recommender.js:42 | The normalised string is no longer than the input, has no capitals and no underscores, and has no whitespace at either end. |
| Text.LoweredWithoutUnderscores | server/engine/recommender.js:42 | After lower-casing and replacing underscores, no character is a capital or an underscore. |
| Text.NormalizeFixesNormalForm | server/engine/recommender.js:42 | A string with no capitals, no underscores and no whitespace at its ends normalises to itself. |
| Text.NormalizeIdempotent | server/engine/recommender.js:42 | Normalising twice gives the same string as normalising once. |
| Text.NormalizeIgnoresCase | server/engine/recommender.js:42 | Lower-casing a string first does not change its normal form, so matching is case-insensitive for every label. |
| Text.NormalizeIgnoresUnderscores | server/engine/recommender.js:42 | Replacing underscores by spaces first does not change the normal form, so an underscore and a space are interchangeable in every label. |
| Text.IncludesIff | server/engine/recommender.js:47-48 | `includes` holds exactly when the needle occurs as a contiguous slice at some position of the haystack. `IncludesIffEverywhere` states the same for all pairs at once, and `NameMatches` uses it. |

## Left out

- Unicode behaviour of `toLowerCase` and `trim`: only ASCII capitals are lowered, and only ASCII whitespace (tab, line feed, vertical tab, form feed, carriage return, space) is trimmed. Non-ASCII whitespace such as U+00A0 and U+FEFF is not trimmed.
- JavaScript truthiness of `if (iot)` / `if (drone)` (recommender.js:26, 37): the two inputs are `Option` values. The model gives no meaning to a `null`, `undefined` or other falsy `iot`/`drone` (all absent in JavaScript). It also gives none to a truthy value that is not a record, which JavaScript lets into the branch.
- Null or undefined fields: JavaScript renders a null crop as "Current Crop: null". It throws a `TypeError` for a null label, and for a null rule name when the scan reaches that rule. Every field is a string here, so none of these paths is modelled.
- NaN water levels: the level is a `real`, so the JavaScript case where a NaN gives `water_optimal` is not modelled.
- The HTTP endpoint that loads the records and the tables, the authentication middleware (an unconditional pass-through), the image-validation script and the React client are not part of this model. None of them takes part in the engine's decisions.
