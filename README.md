# Password strength checker, modelled in Dafny

This project models the evaluation engine of the `PasswordChecker` React
component (`src/Components/PasswordChecker.jsx`). When the user types a
password, or asks for a generated one, the component does four things:

- it classifies the password into four character classes (lower case, upper case, digit, symbol);
- it scores the password from the classes present and three length thresholds;
- it maps the score to a strength label and a colour, unless the password is in a common-password list, which forces "Weak (Common Password)";
- it estimates the time to crack the password from the pool size, the password length and a penalty for runs of repeated characters.

The component keeps its results in six state slots: `password`, `strength`,
`stColor`, `timeToCrack`, `passLength` and `criteria`.

Modules, one per part of the engine:

- `CharClasses` (`classes.dfy`): the alphabets of lines 19-23, the classifier's symbol set, and the four regular-expression tests.
- `Scoring` (`scoring.dfy`): the score, the strength label and the colour.
- `CommonPasswords` (`common.dfy`): ASCII lower-casing and the case-insensitive list match.
- `CrackTime` (`cracktime.dfy`): the pool size, exact `pool^len`, the repeated-run test, the time-unit table and its `find`.
- `Generator` (`generator.dfy`): the generator's loop. The random draws are indices the caller supplies.
- `Checker` (`checker.dfy`): the class `PasswordChecker` with the six slots and the handlers. It also holds `Evaluate`, a pure function giving the five derived slots for a password, and the lemmas about it.
- `Scenarios` (`scenarios.dfy`): worked examples ("password", "1234", "aaaaaaaaaaaa", "Tr0ub4dor&3").

Arithmetic is exact. The source computes `seconds = pool^len / 1e9` in
floating point. The model keeps `Scaled = pool^len`, capped at `10 * 1e9`
when the password has a run of repeated characters, as a natural number.
So "seconds >= v" becomes `Scaled >= v * 1e9`. The amount shown with a unit
is the exact real `Scaled / (v * 1e9)`.

Quirks of the source that the model keeps:

- The generator does not guarantee all four classes. Its symbol is drawn from the 27-character `symbols` (line 22). The classifier counts only the 20 characters of line 45. So `_`, `+`, `-`, `=`, `[`, `]`, `;` and `'` do not count as symbols. `Generator.UnderscoredLacksSymbol` exhibits "Aa0_AAAAAAAA".
- The pool size counts 27 symbols (the length of line 22), not the 20 the classifier tests.
- The "years" multiples are ten times smaller than their labels. "thousand years" is 3153600000 s, which is 100 years; the same holds for million, billion and trillion.
- The empty password does not reset the colour. `resetState` leaves `stColor` as it was.
- The colour is chosen from the score (line 64), not from the strength label. `Scoring.CategoryAndColourAgree` shows the two choices always agree.
- The exponentiation is not guarded against overflow. See "Left out".

## Model

| member | source | states |
|---|---|---|
| `CharClasses.Matches` | src/Components/PasswordChecker.jsx:42-45 | a one-class regular-expression test is true iff some character of the string is in the class |
| `CharClasses.Tests` | src/Components/PasswordChecker.jsx:41-46 | each criterion is true iff some character lies in its set: `a`-`z`, `A`-`Z`, `0`-`9`, or the 20 symbols of line 45 |
| `CharClasses.EmptyMeetsNothing` | src/Components/PasswordChecker.jsx:41-46 | the empty password meets no criterion |
| `CharClasses.AlphabetsMatchClasses` | src/Components/PasswordChecker.jsx:19-21 | every character of `upperCase`, `lowerCase` and `numbers` passes the matching classifier test |
| `CharClasses.SymbolSetsDiffer` | src/Components/PasswordChecker.jsx:22 | the classifier set has 20 characters and `symbols` has 27; `"` is only in the first, and each of `_+-=[];'` is only in the second |
| `Scoring.CountTrue` | src/Components/PasswordChecker.jsx:51 | the number of true flags is at most the number of flags; it is 0 iff none is true and full iff all are |
| `Scoring.CountTrueIsNumberTrue` | src/Components/PasswordChecker.jsx:51 | the count is exactly the number of true entries (their multiplicity in the sequence) |
| `Scoring.Score` | src/Components/PasswordChecker.jsx:51-52 | the score is at most 7 |
| `Scoring.ScoreIsClassesPlusLengthBonus` | src/Components/PasswordChecker.jsx:51-52 | the score is the number of classes present plus one point each for length >= 8, >= 12 and >= 16 |
| `Scoring.ScoreMonotoneInLength` | src/Components/PasswordChecker.jsx:51-52 | with the classes fixed, a longer password never scores less |
| `Scoring.CountTrueMonotone` | src/Components/PasswordChecker.jsx:51 | pointwise more true flags never count fewer |
| `Scoring.ScoreMonotoneInClasses` | src/Components/PasswordChecker.jsx:51-52 | with the length fixed, having more classes never scores less |
| `Scoring.Category` | src/Components/PasswordChecker.jsx:63 | "Weak" iff score <= 2, "Medium" iff 3 <= score <= 4, "Strong" iff score >= 5 |
| `Scoring.Colour` | src/Components/PasswordChecker.jsx:64 | "red" iff score <= 2, "orange" iff 3 <= score <= 4, "lightgreen" iff score >= 5 |
| `Scoring.CategoryAndColourAgree` | src/Components/PasswordChecker.jsx:63-64 | Weak goes with red, Medium with orange, Strong with lightgreen, in both directions |
| `Scoring.StrongNeedsLengthAndClasses` | src/Components/PasswordChecker.jsx:51-63 | a "Strong" password has at least 8 characters and at least two classes |
| `CommonPasswords.LowerChar` | src/Components/PasswordChecker.jsx:69 | an ASCII capital becomes the lower-case letter 32 code points up; every other character is unchanged |
| `CommonPasswords.ToLowerCase` | src/Components/PasswordChecker.jsx:69 | lower-casing keeps the length and lower-cases each character in place |
| `CommonPasswords.IsCommonPassword` | src/Components/PasswordChecker.jsx:68-73 | true iff some list entry has the password's length and, at every position, the lower-cased character of the password |
| `CommonPasswords.ToLowerCaseFixes` | src/Components/PasswordChecker.jsx:69 | a string without capitals is its own lower-cased form |
| `CommonPasswords.ToLowerCaseIdempotent` | src/Components/PasswordChecker.jsx:69 | lower-casing twice equals lower-casing once |
| `CommonPasswords.CommonIgnoresCase` | src/Components/PasswordChecker.jsx:68-73 | two passwords that lower-case alike get the same answer, and so do a password and its lower-cased form |
| `CommonPasswords.UpperCaseEntryNeverMatches` | src/Components/PasswordChecker.jsx:69 | a list entry that contains a capital letter never matches any password |
| `CrackTime.PoolSize` | src/Components/PasswordChecker.jsx:77-81 | the pool size is at most 89, and it is 0 iff no class is present |
| `CrackTime.PoolSizeSum` | src/Components/PasswordChecker.jsx:77-81 | the pool size is 26·[lower] + 26·[upper] + 10·[digit] + 27·[symbol] |
| `CrackTime.PowMonotone` | src/Components/PasswordChecker.jsx:83 | over a non-empty pool, more characters never give fewer combinations |
| `CrackTime.HasRunFrom` | src/Components/PasswordChecker.jsx:86 | true iff, at or after the start index, three equal characters stand in a row and the first is not a line terminator |
| `CrackTime.Min` | src/Components/PasswordChecker.jsx:86 | the result is at most both arguments and equal to one of them |
| `CrackTime.HasRepeatRun` | src/Components/PasswordChecker.jsx:86 | true iff somewhere three equal characters stand in a row and the first is not a line terminator |
| `CrackTime.Scaled` | src/Components/PasswordChecker.jsx:83-86 | the estimate never exceeds pool^len / 1e9 s; without a run it is exactly that; with a run it is at most 10 s and is either the full figure or the 10 s cap |
| `CrackTime.RepeatPenalty` | src/Components/PasswordChecker.jsx:83-86 | with a repeated run the estimate is exactly min(pool^len / 1e9, 10) s; without one it is exactly pool^len / 1e9 s; it never exceeds pool^len / 1e9 s |
| `CrackTime.FirstMet` | src/Components/PasswordChecker.jsx:100 | the result is the first table row whose threshold the estimate meets; every earlier row is not met; None iff no row is met |
| `CrackTime.InUnit` | src/Components/PasswordChecker.jsx:101 | the amount shown in a unit, multiplied back by the unit's threshold, is the estimated number of seconds, and the label is the unit's |
| `CrackTime.EstimateCrackTime` | src/Components/PasswordChecker.jsx:75-101 | the stored time is never the initial "0 seconds"; a shown amount is the estimate expressed in one of the table's units |
| `CrackTime.TimeUnitsDescending` | src/Components/PasswordChecker.jsx:88-98 | the thresholds strictly decrease and the last one is 1 second |
| `CrackTime.InstantlyIffUnderOneSecond` | src/Components/PasswordChecker.jsx:100-101 | the estimate is "Instantly" iff it is under one second |
| `CrackTime.ChosenUnitIsLargest` | src/Components/PasswordChecker.jsx:88-101 | a shown unit is the largest whose threshold is met; the estimate is below every larger threshold; the amount is >= 1 |
| `CrackTime.RepeatRunIsSeconds` | src/Components/PasswordChecker.jsx:86-101 | with a repeated run the estimate is "Instantly" or at most 10.0 "seconds" |
| `CrackTime.LongerIsNoFaster` | src/Components/PasswordChecker.jsx:83-84 | with no repeated run and some class present, a longer password is never estimated faster |
| `Generator.BuildPassword` | src/Components/PasswordChecker.jsx:105-113 | the result has exactly 12 characters: one each from upper, lower, digits and symbols at 0-3, then the padding draws into `allCharacters` |
| `Generator.GeneratedScoresStrong` | src/Components/PasswordChecker.jsx:104-117 | a generated password has upper, lower and digit flags set and scores >= 5, so it is "Strong" and lightgreen |
| `Generator.UnderscoredIsGenerated` | src/Components/PasswordChecker.jsx:105-113 | "Aa0_AAAAAAAA" has the shape of a generated password |
| `Generator.UnderscoredFromDraws` | src/Components/PasswordChecker.jsx:105-113 | the draws 0, 0, 0, 10 and eight times 0 are in range, and the password built from them is exactly "Aa0_AAAAAAAA" |
| `Generator.UnderscoredLacksSymbol` | src/Components/PasswordChecker.jsx:45 | "Aa0_AAAAAAAA" fails the symbol test, so the symbol flag is not guaranteed after generation |
| `Checker.Evaluate` | src/Components/PasswordChecker.jsx:38-66 | length and criteria always describe the password; strength and time are blank exactly for the empty password; only the empty password keeps the previous colour, and any other gets red, orange or lightgreen |
| `Checker.UncommonPasswordIsScored` | src/Components/PasswordChecker.jsx:41-66 | a non-empty password not in the list gets the label and colour of its score and the crack-time estimate for its classes, with its criteria and length recorded |
| `Checker.EmptyPasswordResets` | src/Components/PasswordChecker.jsx:31-39 | the empty password gives strength "", no criteria, "0 seconds" and length 0, and keeps the previous colour |
| `Checker.CommonPasswordOverrides` | src/Components/PasswordChecker.jsx:48-60 | a common non-empty password gives "Weak (Common Password)", red and "Instantly" whatever its score; criteria and length are still set |
| `Checker.NonEmptyIgnoresPreviousColour` | src/Components/PasswordChecker.jsx:57-64 | for a non-empty password the result does not depend on the previous colour |
| `Checker.StrengthAndColourAgree` | src/Components/PasswordChecker.jsx:57-64 | for a non-empty password, the weak labels go with red, Medium with orange, Strong with lightgreen; no other label occurs |
| `Checker.InstantlyExactlyWhen` | src/Components/PasswordChecker.jsx:54-101 | the time is "Instantly" iff the password is non-empty and is common or estimated under one second |
| `Checker.RepeatedPasswordIsFast` | src/Components/PasswordChecker.jsx:86-101 | a password with a repeated run shows "Instantly" or at most 10 seconds |
| `Checker.GeneratedIsStrongUnlessCommon` | src/Components/PasswordChecker.jsx:104-117 | a generated password that is not common is shown as "Strong" with lightgreen |
| `Checker.PasswordChecker.constructor` | src/Components/PasswordChecker.jsx:6-17 | the initial slots: "", "", "", "0 seconds", 0 and no criteria |
| `Checker.PasswordChecker.ResetState` | src/Components/PasswordChecker.jsx:31-36 | strength, criteria, time and length are reset; colour and password are not touched |
| `Checker.PasswordChecker.CalculateTimeToCrack` | src/Components/PasswordChecker.jsx:75-102 | only the time slot changes, and it becomes the estimate for the password and class flags |
| `Checker.PasswordChecker.CalculateStrength` | src/Components/PasswordChecker.jsx:38-66 | the five derived slots become `Evaluate` of the password, from the old colour; the password slot is not written |
| `Checker.PasswordChecker.HandleChange` | src/Components/PasswordChecker.jsx:25-29 | the password slot holds the typed value and the derived slots describe it |
| `Checker.PasswordChecker.GeneratePassword` | src/Components/PasswordChecker.jsx:104-117 | the password slot holds the generated password, built from the draws, and the derived slots describe it |
| `Scenarios.PasswordCriteria` | src/Components/PasswordChecker.jsx:41-46 | "password" has only the lower-case flag |
| `Scenarios.PasswordIsWeak` | src/Components/PasswordChecker.jsx:51-64 | "password" is Weak and red; with "password" in the list it gets the common-password result |
| `Scenarios.DigitsCriteria` | src/Components/PasswordChecker.jsx:41-46 | "1234" has only the digit flag |
| `Scenarios.DigitsOnlyAreInstant` | src/Components/PasswordChecker.jsx:75-101 | "1234" is Weak and its time is "Instantly" |
| `Scenarios.RepeatedLettersCriteria` | src/Components/PasswordChecker.jsx:41-46 | "aaaaaaaaaaaa" has only the lower-case flag and has a repeated run |
| `Scenarios.RepeatedLettersAreCapped` | src/Components/PasswordChecker.jsx:83-101 | "aaaaaaaaaaaa" is Medium and its time is capped at exactly 10 seconds |
| `Scenarios.TroubadorCriteria` | src/Components/PasswordChecker.jsx:41-46 | "Tr0ub4dor&3" has all four flags and no repeated run |
| `Scenarios.TroubadorIsStrong` | src/Components/PasswordChecker.jsx:75-101 | "Tr0ub4dor&3" is Strong and lightgreen and is shown in "thousand years" |

## Left out

- JSX rendering, the CSS import and the `showPassword` toggle (lines 2, 11, 119-166). These are presentation only.
- The `console.log` at line 55. It is a side effect with no logic.
- The contents of `cmn-pass.js`. That module is not part of this model, so the common-password list is a parameter of the `PasswordChecker` constructor. The model assumes the module exports an array of strings, so that `includes` tests whole entries; were it a single string, `includes` would be a substring test, which the model does not capture.
- Full Unicode `toLowerCase`. Lower-casing is modelled on ASCII letters only.
- UTF-16 code units. JavaScript `length` and indexing count UTF-16 code units. The model treats a password as a sequence of Dafny characters, which are Unicode scalar values. This agrees with the source only for characters of the Basic Multilingual Plane: a character outside it is one character in the model but two code units in the source, so for example "😀😀😀" has length 3 and a repeated run in the model, while in the source it has length 6 and no `(.)\1{2,}` match.
- `Math.random`. Every draw is an index the caller supplies in a `Generator.Picks` value, below the length of the alphabet it indexes.
- `Checker.PasswordChecker.GeneratePassword`: requires at least 8 padding draws. Those are the draws the loop consumes; the source's random source never runs out.
- Floating point:
  - the `toFixed(2)` formatting of the amount;
  - the `Infinity` that `Math.pow` gives for long passwords. Without a repeated run the source would show "Infinity trillion years", while the model shows the exact amount with the same "trillion years" unit. With a run, `Math.min(Infinity, 10)` gives 10 seconds in both;
  - rounding near thresholds.
  The model compares and divides exactly.
- The displayed string of `timeToCrack`. It is modelled as the datatype `CrackTime`: the initial "0 seconds", the "Instantly" sentinel, or an amount and a unit label.
- React's asynchronous state batching. Each setter is an immediate write of its field.
