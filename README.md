# Zetamac trainer: analysis and session set-up in Dafny

This project models the two scripts of the Zetamac arithmetic trainer that make decisions.

- `scripts/popup-debug.js` reads recorded results. Each result is a problem text such as `"7 × 8"` plus the time taken. The script:
  - parses every problem with the regular expression `(\d+)\s*(\S)\s*(\d+)`;
  - normalises the operator glyph;
  - folds the results into buckets per operator, per operand number and per pattern (`*_n`, `/_n`, `sub_borrow`);
  - picks the slowest bucket of each analysis with `findSlowest`;
  - turns the slowest pattern into the training goal.
- `scripts/settings_tweaker.js` runs on the game's start page. From the stored training type it:
  - clears the four operation checkboxes and ticks the one the training needs;
  - fills the custom-problem field with a generated list, or the number range with the range around the trained number.

The modules follow the program's structure:

- `Text`: decimal digits, `String(n)`, `parseInt`, `join` and `split`.
- `ProblemParser`: the regular-expression matcher and `normalizeOperator`.
- `CodeUnits`: the UTF-16 code units the browser runs the regular expression over, and the proof that the matcher reads them as the browser does.
- `JsObject`: a JavaScript object as a map plus its `Object.keys` order.
  - Array-index keys ascend, and come before the other keys in creation order.
  - `Put` is `obj[k] = v`.
- `Buckets`: the `{ c, t }` buckets.
  - `Tally` is the fold every analysis performs.
  - Lemmas give the count, total, key set and key order of any fold.
- `Selection`: named selections of the results. Examples are "the parsed results whose operator normalises to `*` and whose first number is 7". Their sizes and summed times are the reference the analyses are proved against.
- `Analysis`: `analyzeByOperator`, `analyzeByNumber` and `analyzeByPattern`.
- `Detailed`: `analyzeByOperatorDetailed` and `analyzeByNumberDetailed`.
- `PatternDebug`: `analyzeByPatternDebug`, with its counters and samples.
- `Slowest`: `findSlowest`.
- `Naming`: `getOperationName` and `getPatternName`.
- `Popup`: the summary thresholds, the ten-result gate and `runOriginalAnalysis`.
- `ParserExamples`: the parser on concrete problems, among them the popup's built-in test strings.
- `Generators`, `BorrowGenerator` and `GeneratorReadback`: the custom problem lists of the settings tweaker, and how the popup's parser reads them back.
- `SettingsTweaker`: the start-page form as a class whose fields the script assigns. `ApplyTraining` is the script; `Configure` is the configuration it must leave.

Every mutating loop of the source is a `method` with a `while` loop. Each method is proved equal to a specification function, such as a fold or a list description. Lemmas about those functions state what the source promises.

The matcher is proved to be the regular expression's, as the browser runs it. `FindMatch` works on the characters of a problem and reports a match exactly when one exists. The match it reports is the one a backtracking engine reports: leftmost start, then each greedy quantifier longest first.

The pattern has no `u` flag, so the browser runs it over UTF-16 code units, not characters. A character above the Basic Multilingual Plane is two code units, and `(\S)` can take only the first of them. The second is neither a space nor a digit, so the match fails there. The model's `(\S)` class therefore leaves such characters out. `CodeUnits.FindMatchOnCodeUnits` proves the result: on every string, `FindMatch` finds a match exactly when the pattern matches the code units. The match it finds is then the one the browser reports, and every code unit of it is the character `FindMatch` reads at the same place.

The analyses are proved against the selections. For example, the bucket of `*_7` counts the multiplications whose first number is 7 plus those whose second number is 7.

Inputs the scripts take from the browser are parameters:

- the stored results;
- the stored goal and training type;
- the controls the start page has;
- the order the random shuffle produces.

### Division in the two pattern analyses

The two pattern analyses treat a division differently.

- `analyzeByPattern` counts both operands of a division, as it does for a multiplication (`scripts/popup-debug.js:425-433`). This is `Analysis.OperandBucket`.
- `analyzeByPatternDebug` counts only the divisor (`scripts/popup-debug.js:332-340`). This is `PatternDebug.DebugOperandBucket`.

`PatternDebug.DivisionVariantsDiffer` gives a division on which the two analyses fill different buckets.

## Model

| member | source | states |
|---|---|---|
| ProblemParser.FindMatchIsFirst | scripts/popup-debug.js:262 | on the characters of a problem, the matcher finds a match of `(\d+)\s*(OP)\s*(\d+)` exactly when one exists, and then the leftmost one with greedy quantifiers, i.e. the one a backtracking engine reports |
| CodeUnits.FindMatchOnCodeUnits | scripts/popup-debug.js:262 | the matcher finds a match exactly when the pattern matches the UTF-16 code units of the problem, and then the match the browser reports there, whose every unit is the character the matcher reads, so both read the same groups |
| CodeUnits.FirstMatchOnUnits | scripts/popup-debug.js:262 | the first match on the characters, moved to code-unit positions, is the first match on the code units |
| CodeUnits.AstralOperatorNoMatch | scripts/popup-debug.js:262 | a digit, a character above the Basic Multilingual Plane and a digit (`"5😀7"`) have no match on the characters |
| CodeUnits.AstralOperatorDoesNotMatch | scripts/popup-debug.js:262 | such a problem does not parse, and the pattern has no match on its code units either |
| ProblemParser.MatchFromIsFirst | scripts/popup-debug.js:386 | trying start positions in turn yields the first match from a position on, and none only when no match starts there |
| ProblemParser.MatchAtLengthIsFirst | scripts/popup-debug.js:299 | backtracking over the length of the first `\d+` yields the first match at a start whose first number has at most that many digits |
| ProblemParser.MatchRestIsFirst | scripts/popup-debug.js:262 | once the first number is fixed, both `\s*` take the whole run of spaces and the last `\d+` every following digit, and that match exists whenever any does |
| ProblemParser.FallbackFailsExactlyWhenPlainFails | scripts/popup-debug.js:224-233 | the three-pattern chain of the detailed operator analysis fails on exactly the problems the plain pattern fails on |
| ProblemParser.ParseSpaced | scripts/popup-debug.js:262 | a problem written `a op b` with single spaces parses back into `a`, `op` and `b` under every operator class that admits `op` |
| ProblemParser.NoDigitNoParse | scripts/popup-debug.js:262-263 | a problem without a digit does not parse, so every analysis skips it |
| ProblemParser.NormalizeOperatorTable | scripts/popup-debug.js:354-360 | `× x X *` become `*`, `÷ /` become `/`, en dash, hyphen and minus sign become `-`, `+` stays; exactly these glyphs become canonical and every other character is returned unchanged |
| ProblemParser.NormalizeOperatorIdempotent | scripts/popup-debug.js:354-360 | normalising twice is normalising once |
| ParserExamples.BuiltInTestProblemsParse | scripts/popup-debug.js:565-579 | each of the eight built-in test problems parses and its operator normalises to one of `+ - * /` |
| ParserExamples.SampleTimes | scripts/popup-debug.js:566 | `5 × 7` reads as 5, `×`, 7 |
| ParserExamples.SampleObelus | scripts/popup-debug.js:566 | `12 ÷ 3` reads as 12, `÷`, 3 |
| ParserExamples.SampleHyphen | scripts/popup-debug.js:566 | `45 - 28` reads as 45, `-`, 28 |
| ParserExamples.SamplePlus | scripts/popup-debug.js:566 | `67 + 19` reads as 67, `+`, 19 |
| ParserExamples.SampleLetterX | scripts/popup-debug.js:567 | `8 x 9` reads as 8, `x`, 9 |
| ParserExamples.SampleSlash | scripts/popup-debug.js:567 | `56 / 8` reads as 56, `/`, 8 |
| ParserExamples.SampleEnDash | scripts/popup-debug.js:567 | `23 – 17` reads as 23, en dash, 17 |
| ParserExamples.SampleStar | scripts/popup-debug.js:567 | `4 * 6` reads as 4, `*`, 6 |
| ParserExamples.SpacedSample | scripts/popup-debug.js:572 | any problem written `a op b`, with `op` one code unit other than a space, reads back as `a`, `op`, `b` |
| ParserExamples.DigitAsOperator | scripts/popup-debug.js:262 | `\S` accepts a digit: three digits read as the first digit, the middle digit as operator, and the last digit |
| ParserExamples.OneTwoThree | scripts/popup-debug.js:262 | `"123"` reads as 1, `'2'`, 3 |
| ParserExamples.MatchOfThreeDigits | scripts/popup-debug.js:262 | on three digits the greedy first number backs off to one digit |
| ParserExamples.FirstNumberChoices | scripts/popup-debug.js:262 | a first number of three or two digits leaves no operator and second number; one digit does |
| ParserExamples.LetterThenTimesPlainMatch | scripts/popup-debug.js:262 | on `5a6 × 7` the plain pattern takes `a` as the operator |
| ParserExamples.LetterStopsGlyphMatch | scripts/popup-debug.js:224 | the hyphen class fails at the first digit of `5a6 × 7` |
| ParserExamples.GlyphMatchAtTwo | scripts/popup-debug.js:224 | from index 2 the hyphen class matches `6 × 7` |
| ParserExamples.LetterThenTimesGlyphMatch | scripts/popup-debug.js:224 | the hyphen class skips the letter and matches `6 × 7` |
| ParserExamples.FallbackDiffersFromPlain | scripts/popup-debug.js:224-233 | the fallback chain is not the plain pattern: on `5a6 × 7` one reads 5, `a`, 6 and the other 6, `×`, 7 |
| ParserExamples.TextWithoutDigits | scripts/popup-debug.js:262-263 | `"not a problem"` does not parse |
| Text.SplitJoin | scripts/popup-debug.js:374 | `split` yields one piece more than there are separators, no piece holds one, and joining the pieces restores the key |
| JsObject.Put | scripts/popup-debug.js:407 | `obj[k] = v` replaces the value; a new key keeps `Object.keys` order: after the smaller indices, before larger indices and names, or last among the names |
| JsObject.InsertIndex | scripts/popup-debug.js:407 | a new array-index key goes among the keys so that the order stays indices ascending then names |
| JsObject.NumberKeyInjective | scripts/popup-debug.js:407 | different operand numbers use different property keys |
| JsObject.UpdatedAll | scripts/popup-debug.js:278-282 | after `Object.keys(stats).forEach` rewrites every bucket, each holds the rewrite of its old value and the keys and order are unchanged |
| Buckets.Bump | scripts/popup-debug.js:407-409 | creating a missing `{ c: 0, t: 0 }` and adding one and the time changes that key's count and total only, and adds the key |
| Buckets.BumpAllBuckets | scripts/popup-debug.js:406-410 | bumping the list `[n1, n2]` adds to each key one per occurrence in the list and the time as often |
| Buckets.TallyBuckets | scripts/popup-debug.js:400-411 | any fold adds to a key's count the increments the results give it and their times to its total; the bucket exists exactly when it existed before or some result fed it |
| Buckets.TallySums | scripts/popup-debug.js:400-411 | over all buckets a fold adds one per increment and each result's time once per increment |
| Buckets.TallyKeys | scripts/popup-debug.js:400-411 | a fold creates exactly the buckets of the keys the results feed |
| Buckets.TallyKeepsOrder | scripts/popup-debug.js:384-393 | a fold that only feeds keys it starts with keeps those keys and their order |
| Buckets.TallyNameOrder | scripts/popup-debug.js:427-430 | a fold from `{}` that feeds only name keys lists them in the order the results first fed them |
| Analysis.AnalyzeByOperator | scripts/popup-debug.js:383-396 | the loop computes the fold of the results into the `+ - * /` buckets by normalised operator |
| Analysis.OperatorOrder | scripts/popup-debug.js:384 | the operator buckets are exactly `+ - * /` in that order, whatever the results: other operators are dropped |
| Analysis.OperatorBuckets | scripts/popup-debug.js:385-393 | the bucket of each of `+ - * /` counts the parsed results whose operator normalises to it and adds up their times |
| Analysis.OperatorKeysCount | scripts/popup-debug.js:387-392 | a result feeds an operator bucket once when its operator normalises to that symbol, and never otherwise |
| Analysis.AnalyzeByNumber | scripts/popup-debug.js:398-413 | the loop computes the fold of the results into one bucket per operand number |
| Analysis.NumberBuckets | scripts/popup-debug.js:400-411 | a number's bucket counts the results with it as first number plus those with it as second, so `7 × 7` counts twice, and adds their times the same way; it exists exactly when some result uses the number |
| Analysis.NumberKeyCount | scripts/popup-debug.js:406-410 | a result feeds number `n` once for each of its operands equal to `n` |
| Analysis.NumberSums | scripts/popup-debug.js:403-410 | the counts of all number buckets add up to twice the parsed results and the totals to twice their time |
| Analysis.NumberOrder | scripts/popup-debug.js:398-413 | with operands that are array indices, `Object.keys` lists the number buckets in increasing numeric order |
| Analysis.AnalyzeByPattern | scripts/popup-debug.js:415-444 | the loop computes the fold of the results into the pattern buckets |
| Analysis.PatternBucketShape | scripts/popup-debug.js:425-441 | every bucket the pattern analysis fills is `sub_borrow`, or `*_n` / `/_n` with `n` in 2..12 |
| Analysis.PatternKeysShape | scripts/popup-debug.js:425-441 | a result feeds at most two buckets, each `sub_borrow` or `*_n` / `/_n` with `n` in 2..12, and `sub_borrow` exactly when it is a borrowing subtraction |
| Analysis.OperandBucket | scripts/popup-debug.js:425-433 | `op_n` counts the results with that operator and first number `n` plus those with second number `n`, and adds their times; numbers outside 2..12 get no bucket |
| Analysis.BorrowBucket | scripts/popup-debug.js:436-441 | `sub_borrow` counts the subtractions whose first ones digit is below the second's and adds up their times |
| Analysis.PatternOrder | scripts/popup-debug.js:415-444 | `Object.keys` lists the pattern buckets in the order the results first fed them |
| Detailed.AnalyzeByOperatorDetailed | scripts/popup-debug.js:214-256 | the two passes leave exactly the `+ - * /` buckets in that order, each the finalised summary of the results whose operator, read by the fallback chain, normalises to it |
| Detailed.RecordOperator | scripts/popup-debug.js:222-243 | one iteration of the first pass records the result in the bucket of its operator and leaves the others as they were |
| Detailed.FinalizeOperators | scripts/popup-debug.js:246-253 | the second pass sets the average of every used bucket and turns a minimum still at `Infinity` into 0 |
| Detailed.SummaryFacts | scripts/popup-debug.js:237-252 | a finalised bucket's count and total are its results'; an unused bucket shows average, minimum and maximum 0; a used one the exact average, a minimum that is one of its times and no larger than any, and a maximum no smaller than any time that is one of them or the starting 0 |
| Detailed.SummaryOrdered | scripts/popup-debug.js:237-252 | in every finalised bucket `min <= avg <= max` |
| Detailed.OperatorDetailedBucket | scripts/popup-debug.js:214-256 | each operator row gives the count of its results, 0 for average, minimum and maximum when unused, and otherwise `avg = total / count`, `min <= avg <= max`, with the minimum the time of one of its results |
| Detailed.AccumulateFacts | scripts/popup-debug.js:236-241 | the first pass over a bucket's results counts them, sums their times, keeps the smallest time as minimum and the largest time, or 0, as maximum |
| Detailed.MeanWithin | scripts/popup-debug.js:248 | the average of times that all lie between two bounds lies between them |
| Detailed.AnalyzeByNumberDetailed | scripts/popup-debug.js:258-285 | the result has the keys and order of the number analysis; every bucket has that analysis's count and total, a positive count, and `avg = total / count` |
| Detailed.AverageNumbers | scripts/popup-debug.js:277-282 | the averaging pass sets the average of every bucket with a positive count and changes nothing else |
| PatternDebug.AnalyzeByPatternDebug | scripts/popup-debug.js:287-351 | the loop computes the debug pattern buckets, and counters equal to the number of results, of multiplications, of divisions, of borrowing subtractions and of unparsed problems, plus the sample list |
| PatternDebug.RecordResult | scripts/popup-debug.js:298-348 | one iteration takes the buckets and counters of the first `i` results to those of the first `i + 1` |
| PatternDebug.RecordDebug | scripts/popup-debug.js:301-342 | one result raises each counter whose test it passes by one and may add a sample |
| PatternDebug.RecordPatterns | scripts/popup-debug.js:321-347 | one result bumps the buckets of both multiplication operands, of a divisor, or of `sub_borrow` |
| PatternDebug.DebugAfterStep | scripts/popup-debug.js:301-342 | one more result moves every counter by whether that result passes its test and offers it as a sample |
| PatternDebug.DebugOperandBucket | scripts/popup-debug.js:321-340 | under `*` a number's bucket counts the multiplications with it as either operand; under `/` only the divisions with it as divisor; times follow the same rule |
| PatternDebug.DebugOperandKeyCount | scripts/popup-debug.js:324-339 | a result feeds `*_n` once per operand equal to `n` and `/_n` only through its divisor |
| PatternDebug.DivisionVariantsDiffer | scripts/popup-debug.js:332-340 | a division whose dividend is in 2..12 and differs from the divisor feeds the dividend's bucket in the original analysis and not in the debug one |
| PatternDebug.CountersBounded | scripts/popup-debug.js:301-347 | each result raises at most one counter, so the four counters add up to at most the number of problems |
| PatternDebug.SamplesShape | scripts/popup-debug.js:303-319 | at most ten samples are kept, a NO_MATCH sample only among the first five, and every sample records what the parser read from one of the problems |
| PatternDebug.FirstSamples | scripts/popup-debug.js:303-319 | while fewer than five samples are held every problem is sampled, so the first five results are the first samples |
| Slowest.Threshold | scripts/popup-debug.js:447 | the threshold defaults to 1: an absent or zero threshold becomes 1, any other is kept |
| Slowest.FindSlowest | scripts/popup-debug.js:446-463 | null exactly when no bucket seen at least the threshold times has an average above -1; otherwise the first key in `Object.keys` order with the highest such average, and that average |
| Slowest.FirstSlowestUnique | scripts/popup-debug.js:455 | the strict `>` makes the winner unique: there is only one first key with the highest average |
| Slowest.WinnerWhenNonNegative | scripts/popup-debug.js:449-458 | with non-negative times a winner exists exactly when some bucket qualifies |
| Naming.OperationName | scripts/popup-debug.js:362-370 | the name is "Unknown" exactly for keys other than `+ - * /` (keys naming inherited properties aside; see "Left out") |
| Naming.PatternNameOfOperandKey | scripts/popup-debug.js:372-378 | the key `op_n` reads as `<operation name> with ns` |
| Naming.PatternNameOfOtherKeys | scripts/popup-debug.js:372-380 | a key with no `_` or several of them is shown unchanged |
| Naming.MultiplicationPatternExample | scripts/popup-debug.js:375-377 | `*_7` reads "Multiplication with 7s" |
| Naming.DivisionPatternExample | scripts/popup-debug.js:375-377 | `/_12` reads "Division with 12s" |
| Popup.Summarize | scripts/popup-debug.js:31-49 | no data for 0 results, "need at least 10" below 10, "more data" below 50, "good amount" from 50 |
| Popup.ShowPopup | scripts/popup-debug.js:195-201 | the summary always follows the number of results, and the original analysis runs exactly from ten results on |
| Popup.RunOriginalAnalysis | scripts/popup-debug.js:465-511 | the three winners are findSlowest of the operator, number and pattern analyses with thresholds 1, 3 and 3; the names shown are theirs; the train button is enabled, with the pattern winner's key as goal, exactly when there is a pattern winner |
| Popup.SlowestOperationIsCanonical | scripts/popup-debug.js:466-470 | the slowest operation is one of `+ - * /`, so its name is never "Unknown" |
| Popup.PatternWinnerShape | scripts/popup-debug.js:480-482 | the pattern winner is `sub_borrow`, or `*_n` / `/_n` with `n` in 2..12 |
| Popup.TrainingGoalShape | scripts/popup-debug.js:480-498 | every stored training goal is `sub_borrow` or `*_n` / `/_n` with `n` in 2..12, shown under the matching name, and then the train button is enabled |
| Popup.TroubleNumberTieBreak | scripts/popup-debug.js:473-477 | with index operands, every smaller number seen at least three times has a strictly lower average than the trouble number, so ties go to the smaller number |
| Popup.IndexTieBreak | scripts/popup-debug.js:451-460 | over buckets keyed by ascending indices, the winner's average is strictly above that of every smaller qualifying key |
| Generators.MultiplyProblems | scripts/settings_tweaker.js:51-55 | the loop builds the times table: `num × i` then `i × num` for `i` from 2 to 12 |
| Generators.MultiplyOpsAt | scripts/settings_tweaker.js:52-55 | entry `k` of the table is `num × i` at even `k` and `i × num` at odd `k`, with `i = k / 2 + 2` |
| Generators.DivideProblems | scripts/settings_tweaker.js:70-73 | the loop builds the division table: `(num·i) ÷ num` for `i` from 1 to 12 |
| Generators.DivideOpsAt | scripts/settings_tweaker.js:71-73 | entry `k` of the table is `(num·(k+1)) ÷ num` |
| Generators.DivisionTableExact | scripts/settings_tweaker.js:71-73 | for a positive number every division of the table is exact, with quotient `k + 1` at entry `k` |
| GeneratorReadback.MultiplyListReadsBack | scripts/settings_tweaker.js:53-54 | each of the 22 entries reads back as a multiplication of `num` and a factor in 2..12, feeding `*_num` when `num` is in 2..12 |
| GeneratorReadback.DivideListReadsBack | scripts/settings_tweaker.js:72 | each of the 12 entries reads back as the division of `num·(k+1)` by `num`, feeding `/_num` when `num` is in 2..12 |
| BorrowGenerator.BorrowRow | scripts/settings_tweaker.js:90-96 | the innermost loop yields the row of pairs for one `tens` and `ones1` |
| BorrowGenerator.BorrowBlock | scripts/settings_tweaker.js:89-97 | the loop over `ones1` yields the 35 pairs for one `tens` |
| BorrowGenerator.BorrowProblems | scripts/settings_tweaker.js:86-98 | the three loops yield the 280 borrow subtractions in loop order |
| BorrowGenerator.PairAtIsBorrow | scripts/settings_tweaker.js:91-93 | every generated pair satisfies the borrow rule and has a first number above the second and a second of at least 10, so the filter never rejects one |
| BorrowGenerator.BorrowPairsMembers | scripts/settings_tweaker.js:88-97 | the loops produce exactly the pairs with first number in 20..94 and ones digit at most 4, and second number in the decade below with a larger ones digit |
| BorrowGenerator.BorrowListDistinct | scripts/settings_tweaker.js:88-97 | the 280 problems are pairwise different |
| BorrowGenerator.BorrowListMembers | scripts/settings_tweaker.js:88-97 | a subtraction is in the list exactly when its operands form such a pair |
| BorrowGenerator.BorrowListReadsBack | scripts/settings_tweaker.js:94 | each problem reads back as a subtraction whose first ones digit is below the second's, which the popup counts under `sub_borrow` |
| BorrowGenerator.BorrowPickFacts | scripts/settings_tweaker.js:100 | whatever order the shuffle leaves, 30 problems are kept, all different, each from the list |
| BorrowGenerator.Take | scripts/settings_tweaker.js:100 | `slice(0, n)` keeps the first `n` items, or all when there are fewer |
| SettingsTweaker.StartForm.constructor | scripts/settings_tweaker.js:15-25 | the form holds the controls the page has, as found |
| SettingsTweaker.StartForm.ApplyTraining | scripts/settings_tweaker.js:5-114 | the script leaves the form in the configuration `Configure` describes for the stored goal, training type and shuffle order |
| SettingsTweaker.NothingWithoutGoalOrControls | scripts/settings_tweaker.js:5-30 | without a goal, a training type or any of the four checkboxes nothing changes |
| SettingsTweaker.CheckboxOutcome | scripts/settings_tweaker.js:33-111 | otherwise all four checkboxes end set and at most one ticked: mul for `specific_number` or general `*`, div for `specific_number` or general `/`, sub for `borrow` or general `-`, add for general `+` |
| SettingsTweaker.FieldsWrittenOnlyByTheirBranches | scripts/settings_tweaker.js:39-114 | a missing control stays missing; the range changes only for multiplication without a custom field, the custom field only for multiplication, division and borrow |
| SettingsTweaker.GeneralTouchesOnlyCheckboxes | scripts/settings_tweaker.js:106-114 | the general branch leaves the range and the custom field as they were |
| SettingsTweaker.MultiplyOutcome | scripts/settings_tweaker.js:45-62 | with a custom field it holds the times table joined by `", "`; without one but with both range inputs they hold `max(2, num-2)` and `min(12, num+2)`; with neither only the checkbox changes |
| SettingsTweaker.RangeAroundNumber | scripts/settings_tweaker.js:60-61 | for `num` in 2..12 the range holds `num`, stays within 2..12 and spans at most two either side |
| SettingsTweaker.DivideOutcome | scripts/settings_tweaker.js:65-75 | division fills only the custom field, with the division table joined by `", "`; the range is never touched |
| SettingsTweaker.BorrowOutcome | scripts/settings_tweaker.js:80-102 | borrow fills the custom field with 30 different problems of the borrow list joined by `", "` and leaves the range alone |

## Left out

- HTML rendering is not modelled: the table and message strings, `Math.round` for display, the "Actual slowest" line over the detailed operator table, the top-ten sort of the number table, the sample lines and the last twenty problems (`scripts/popup-debug.js:29-192`, `469-484`). The model keeps the values those lines show.
- Browser I/O is not modelled: `chrome.storage`, `chrome.tabs.create`, button cloning and listeners, JSON and CSV export, `location.reload`, `confirm` and `alert`. The stored results, goal and training type are parameters; the train button is a flag and its goal a value.
- Timing in the settings tweaker is not modelled: the two `setTimeout` delays, the auto-click of the start button, and the removal of the stored goal (`scripts/settings_tweaker.js:13`, `117-126`).
- `console.log` and the `try`/`catch` wrappers are not modelled; nothing in the model throws.
- Floating point is not modelled. Times are exact reals and averages exact quotients. `Infinity` appears only as the starting minimum of the detailed operator buckets. NaN and missing `time` fields do not occur.
- `parseInt` is exact on every digit string. Precision loss above 2^53, which could merge the buckets of two huge operands, is not modelled.
- The shuffle `sort(() => Math.random() - 0.5)` is not an algorithm here: the order it leaves is a parameter, any permutation of the 280 indices.
- BorrowGenerator.Shuffle: states only the length of its result. What the borrow list needs from it, 30 different problems of the list, is `BorrowPickFacts`.
- The mapping from a pattern key such as `*_7` to a stored training type is not part of either script. The settings-tweaker model takes the training type as input.
- The training type's `number` is an integer. A non-integer or non-numeric value is not modelled.
- Results are records with a problem string and a time. The default to an empty list when no results are stored is not modelled.
- No key an analysis uses names an inherited property of `Object.prototype`, so `if (stats[k])` is modelled as key membership.
- Naming.OperationName: for an argument naming an inherited property of `Object.prototype` (`constructor`, `toString`, `valueOf`, `hasOwnProperty`, `__proto__` and the like), `names[op] || 'Unknown'` yields that inherited property, where the model yields "Unknown". No caller passes such a name. Every caller passes an operator key, which is one character, or the part of a pattern key before its `_`, also one character (`scripts/popup-debug.js:67`, `93`, `376`, `469`). No inherited property has a one-character name. At line 469 `Popup.SlowestOperationIsCanonical` shows the key is one of `+ - * /`.
- Naming.PatternName: for a key whose part before `_` names such a property (`constructor_5`), the source's name would embed that property's text, where the model uses "Unknown". No caller passes such a key. Pattern keys are built from a one-character operator (`scripts/popup-debug.js:152`, `483`), and `Popup.PatternWinnerShape` shows the winner at line 483 is `sub_borrow`, `*_n` or `/_n`.
- Popup.TroubleNumberTieBreak: stated only when every operand is at most 2^32 - 2, the largest array index. A larger operand is a name key, listed after the indices in creation order, and a tie among such keys goes to the first created.
- Analysis.NumberOrder: the same restriction, for the same reason.
- Detailed.AnalyzeByNumberDetailed: its first loop is the counting loop of `analyzeByNumber`, so the model reuses `Analysis.AnalyzeByNumber` for it and adds `avg: 0` to each bucket.
