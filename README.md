# SereniSoul pages: a Dafny model

This project models the discrete logic of the three interactive pages of the
SereniSoul wellness app:

- **Wellbeing quiz** (`quiz.dfy`, module `Quiz`). A six-question wizard. A
  class `QuizPage` holds `currentQuestion`, `answers` and `showResults`.
  `HandleAnswerChange` records an answer and `HandleNext` is the guarded
  step forward. The pure function `CalculateResults` sums the answers and
  classifies the percentage of the maximum score (18) as high, medium or low.
  `Valid()` is the invariant every reachable state keeps. It says that every
  question before the current one is answered, every answer is one of its
  question's option values (3, 2, 1 or 0), and the results appear only once
  all six are answered.
- **Diary mood analysis** (`diary.dfy`, module `Diary`). `AnalyzeMood`
  lower-cases the entry, splits it on single spaces, and counts the words
  that contain a positive keyword and the words that contain a negative one.
  The larger count decides the mood; equal counts give a neutral mood.
  `HandleSave` ignores a blank entry and otherwise stores the analysis.
  The module also models the level's colour, its icon, its capitalised
  label and the level-specific button.
- **Login / sign-up form** (`login.dfy`, module `Login`). `HandleSubmit`
  is the early-return validation: email and password first, then the name
  in sign-up mode. After that comes the mode's success toast and the
  navigation to `/dashboard`. A class `LoginPage` holds the mode and the
  fields; `HandleInputChange` sets one field and `ToggleMode` flips the mode.

Two support modules: `Ui` (`ui.dfy`) holds the shared level type and the
toast record. `JsString` (`jsstring.dfy`) models the JavaScript string
built-ins the pages use: `toLowerCase`, `trim`, `split` and `includes`,
plus `join`, which the pages do not call but which states what `split`
does. It proves their defining properties: the trim result is empty
exactly for all-white-space input, `split` and `join` are inverses, and
`includes` is containment at some offset.

Toasts and navigation are modelled as returned values. React state setters
are modelled as direct field assignment.

## Model

| member | source | states |
|---|---|---|
| `Quiz.OptionValues` | src/pages/QuizPage.tsx:17-72 | every question's four options carry the values 3, 2, 1, 0 in that order |
| `Quiz.OptionValueRange` | src/pages/QuizPage.tsx:17-72 | any value a radio button can report lies in 0..3 |
| `Quiz.TotalScore` | src/pages/QuizPage.tsx:98 | the left-fold reduce equals the sum taken from the first answer onwards, so the order of the fold does not matter |
| `Quiz.TotalScoreBounds` | src/pages/QuizPage.tsx:98 | the reduce-sum of answers each in 0..3 lies between 0 and three times the number of answers |
| `Quiz.CompletedScoreBounds` | src/pages/QuizPage.tsx:98-100 | for six in-range answers the total lies in 0..maxScore (18) and the percentage in [0, 100] |
| `Quiz.Percentage` | src/pages/QuizPage.tsx:99-100 | the percentage is at least 70 (40) exactly when 100 times the total is at least 70 (40) times maxScore; a total in 0..maxScore gives a percentage in [0, 100] |
| `Quiz.LevelOf` | src/pages/QuizPage.tsx:102-144 | the branches split the percentages into high for [70, ∞), medium for [40, 70) and low below 40, each as an iff |
| `Quiz.LevelThresholds` | src/pages/QuizPage.tsx:99-130 | classifying by percentage gives high iff total >= 13, medium iff 8 <= total <= 12, low iff total <= 7 |
| `Quiz.LevelMonotone` | src/pages/QuizPage.tsx:102-144 | a larger total never yields a lower level |
| `Quiz.ResultFor` | src/pages/QuizPage.tsx:102-144 | the result record for a level carries that level and exactly four suggestions |
| `Quiz.CalculateResults` | src/pages/QuizPage.tsx:97-145 | the result's level is high, medium or low exactly by the total-score thresholds, with four suggestions |
| `Quiz.ResultActions` | src/pages/QuizPage.tsx:203-224 | exactly one of the three level-specific buttons is rendered, the one matching the level, followed by the diary link |
| `Quiz.ProgressFor` | src/pages/QuizPage.tsx:248-300 | "Question n of 6" has n = current + 1, so 1 <= n <= 6; the bar width is n * 100 / 6, lies in (0, 100] and is 100 only on the last question; the button reads "Complete Assessment" exactly on the last question |
| `Quiz.ProgressIncreasing` | src/pages/QuizPage.tsx:267 | the progress bar is strictly wider on each later question |
| `Quiz.QuizPage.constructor` | src/pages/QuizPage.tsx:12-14 | the page starts on question 0 with no answers and no results, in a valid state |
| `Quiz.QuizPage.Answered` | src/pages/QuizPage.tsx:81 | in a valid state the current question counts as answered exactly when the answers reach one past its index |
| `Quiz.QuizPage.HandleAnswerChange` | src/pages/QuizPage.tsx:74-78 | the current slot takes the value and every other recorded answer is unchanged; question and results flag unchanged; validity kept |
| `Quiz.QuizPage.HandleNext` | src/pages/QuizPage.tsx:80-95 | unanswered: the "Please select an answer" toast and no change; answered before the last: advance by one; answered last: show results and stay on the last index; once results show, all six answers are present and in 0..3 |
| `Quiz.QuizPage.Results` | src/pages/QuizPage.tsx:147 | results exist exactly when shown, and are then computed from a total in 0..18 and a percentage in [0, 100] |
| `Quiz.CompletedAnswers` | src/pages/QuizPage.tsx:81-100 | answers that are option values of their six questions give a total in 0..18 and a percentage in [0, 100] |
| `JsString.ToLowerCase` | src/pages/DiaryPage.tsx:21 | same length; every upper-case letter becomes its lower-case letter (code point + 32); every other character unchanged |
| `JsString.ToLowerCaseIdempotent` | src/pages/DiaryPage.tsx:21 | lower-casing twice equals lower-casing once |
| `JsString.Split` | src/pages/DiaryPage.tsx:21 | split yields at least one piece and no piece holds the separator |
| `JsString.JoinSplit` | src/pages/DiaryPage.tsx:21 | joining the pieces of a split with the separator restores the string |
| `JsString.SplitJoin` | src/pages/DiaryPage.tsx:21 | splitting the join of separator-free pieces restores the pieces |
| `JsString.SplitLength` | src/pages/DiaryPage.tsx:21 | split yields exactly one piece more than the separator occurs |
| `JsString.Includes` | src/pages/DiaryPage.tsx:25-26 | a keyword longer than the word is never included, and the empty keyword is included in every word |
| `JsString.IncludesIff` | src/pages/DiaryPage.tsx:25-26 | `includes` holds exactly when the keyword occurs at some offset |
| `JsString.TrimStart` | src/pages/DiaryPage.tsx:65 | the result is the suffix after a run of white space and starts with a non-white-space character |
| `JsString.TrimEnd` | src/pages/DiaryPage.tsx:65 | the result is the prefix before a run of white space and ends with a non-white-space character |
| `JsString.Trim` | src/pages/DiaryPage.tsx:65 | the trimmed string is no longer than the input and, when not empty, starts and ends with a non-white-space character |
| `JsString.TrimEmptyIff` | src/pages/DiaryPage.tsx:65 | `trim` gives "" exactly when every character is ECMAScript white space |
| `Diary.LowerKeepsSpaces` | src/pages/DiaryPage.tsx:21 | lower-casing keeps the number of spaces |
| `Diary.Words` | src/pages/DiaryPage.tsx:21 | one word more than spaces in the entry, no word holds a space, and the words joined by spaces give the lower-cased entry |
| `Diary.DoubleSpaceGivesEmptyWord` | src/pages/DiaryPage.tsx:21 | "a  b" splits into "a", "" and "b" |
| `Diary.EmptyWordMatchesNothing` | src/pages/DiaryPage.tsx:21-26 | the empty word contains no positive and no negative keyword |
| `Diary.MatchesAny` | src/pages/DiaryPage.tsx:25-26 | `some` keyword is included in the word exactly when some keyword occurs in it at some offset |
| `Diary.Filter` | src/pages/DiaryPage.tsx:25-26 | the filter keeps at most the words it is given, each one containing a keyword |
| `Diary.FilterCountsPositions` | src/pages/DiaryPage.tsx:25-26 | the filter's length is the number of word positions whose word contains some keyword |
| `Diary.PositiveCount` | src/pages/DiaryPage.tsx:25 | the positive count is the number of positions whose word contains a positive keyword, at most the number of words |
| `Diary.NegativeCount` | src/pages/DiaryPage.tsx:26 | the negative count is the number of positions whose word contains a negative keyword, at most the number of words |
| `Diary.SingleWordCountsOnce` | src/pages/DiaryPage.tsx:25-26 | a text without spaces counts 1 or 0 on each side, however many keywords it contains |
| `Diary.UnhappyCountsPositive` | src/pages/DiaryPage.tsx:22-25 | "unhappy" counts as one positive word because it contains "happy" |
| `Diary.ShoutedHappyCountsPositive` | src/pages/DiaryPage.tsx:21-25 | "HAPPY" counts as one positive word, because the entry is lower-cased first |
| `Diary.OneWordCountsOnBothSides` | src/pages/DiaryPage.tsx:25-59 | "sadhappy" counts once as positive and once as negative, so the mood is neutral |
| `Diary.AnalyzeMood` | src/pages/DiaryPage.tsx:19-62 | exactly one outcome: Positive/high iff positive > negative, Challenging/low iff negative > positive, Neutral/medium iff equal; four suggestions |
| `Diary.AnalyzeMoodIgnoresCase` | src/pages/DiaryPage.tsx:21 | analysing the lower-cased entry gives the same analysis |
| `Diary.HandleSave` | src/pages/DiaryPage.tsx:64-81 | a blank entry keeps the current analysis and raises the "Empty Entry" toast; any other entry stores its analysis and raises the "Diary Entry Saved" toast |
| `Diary.MoodColor` | src/pages/DiaryPage.tsx:94-103 | the colour is "text-wellness" exactly for high, "text-support" exactly for medium and "text-destructive" exactly for low |
| `Diary.MoodColorInjective` | src/pages/DiaryPage.tsx:94-103 | the three levels map to three distinct colour classes |
| `Diary.MoodIcon` | src/pages/DiaryPage.tsx:83-92 | each level's icon is drawn in that level's colour class |
| `Diary.Capitalize` | src/pages/DiaryPage.tsx:180 | same length and same tail; a lower-case first letter becomes its capital, any other first character leaves the string unchanged; lower-casing undoes it on a string with no capitals |
| `Diary.DisplayLevel` | src/pages/DiaryPage.tsx:180 | the shown level has an upper-case first letter, keeps the rest of the name, and lower-cases back to the level name |
| `Diary.MoodActions` | src/pages/DiaryPage.tsx:201-217 | exactly one level-specific button is rendered, the one for the level |
| `Login.WithField` | src/pages/LoginPage.tsx:56 | the named field takes the value and the other two keep theirs |
| `Login.Falsy` | src/pages/LoginPage.tsx:25-34 | `!s` holds exactly for the empty string, so a string containing a space is not falsy |
| `Login.HandleSubmit` | src/pages/LoginPage.tsx:21-53 | empty email or password: "Missing Information" with the fields message in either mode; sign-up with both present and an empty name: the name message; accepted exactly otherwise, with "Welcome back!" or "Account created!" and navigation to /dashboard |
| `Login.LoginIgnoresName` | src/pages/LoginPage.tsx:34 | in login mode the name has no effect on the outcome |
| `Login.WhiteSpaceFieldsPass` | src/pages/LoginPage.tsx:25-41 | fields of white space alone pass validation: there is no trim |
| `Login.LoginPage.constructor` | src/pages/LoginPage.tsx:12-17 | login mode with three empty fields |
| `Login.LoginPage.HandleInputChange` | src/pages/LoginPage.tsx:55-57 | the form becomes the old form with exactly the named field replaced; the mode is unchanged |
| `Login.LoginPage.ToggleMode` | src/pages/LoginPage.tsx:154 | the mode flips and the form is unchanged |
| `Login.LoginPage.Submit` | src/pages/LoginPage.tsx:21-53 | submitting the page's current state is accepted exactly when email and password are filled in and, in sign-up mode, the name too; acceptance leads to /dashboard |
| `Login.ToggleKeepsFilledFormAccepted` | src/pages/LoginPage.tsx:21-53 | a form with all three fields filled in is accepted before and after the mode is switched |
| `Login.ToggleTwice` | src/pages/LoginPage.tsx:154 | toggling twice restores the mode and leaves the form alone |

## Left out

- The 3D scene under src/components/3d/. It is per-frame floating-point trigonometry, unseeded `Math.random`, GLSL shader text and react-three-fiber calls.
- src/pages/Dashboard.tsx and src/pages/LandingPage.tsx: static markup with no logic.
- Rendering: JSX, the level-dependent CSS classes of the quiz result card (QuizPage.tsx:171-174, 193-196), the mode-dependent headings and link texts of the login card (LoginPage.tsx:79-85, 145, 151, 157), and the date at DiaryPage.tsx:122.
- Side effects: toasts are returned as values, not displayed. Navigation is an outcome value; the one-second `setTimeout` before it and `e.preventDefault()` are not modelled. React's batching of state updates is not modelled; setters are direct assignments.
- The diary's textarea `onChange` (`setEntry`) is not modelled: `HandleSave` takes the entry as a parameter.
- Quiz.Percentage: computed on exact reals, not IEEE doubles. The classification cannot differ: the totals on either side of each threshold give 66.7%/72.2% and 38.9%/44.4%, far from 70 and 40.
- Quiz.ProgressFor: the bar width is on exact reals, not doubles; it is only a CSS width.
- Quiz.QuizPage.HandleAnswerChange: takes the option's numeric value. The radio group reports `value.toString()`, and `parseInt` of that string gives the value back for 0..3. Answers are a dense sequence: `Valid()` keeps `currentQuestion <= |answers|`, so the sparse-array hole that a write past the end would leave in JavaScript never arises.
- JsString.ToLowerCase: maps only the ASCII letters A-Z. Full Unicode lower-casing also changes other letters, but the only ones it maps into ASCII are the Kelvin sign (to "k") and capital I with dot (to "i" followed by U+0307). Neither can complete one of the lower-case keywords, so the keyword counts are the same.
- Login.LoginPage.HandleInputChange: takes a `Field` value where the source takes the field name as a string. The inputs only ever pass "name", "email" or "password".
