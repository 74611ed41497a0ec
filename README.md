# Carhoot — a Dafny model of the guessing game's rules and progress store

Carhoot is a daily car-guessing game. Each day one catalogue vehicle is scheduled.
The player guesses it in three stages: brand, then model, then year. Every wrong answer
unlocks one more picture of the car. From five failures in a stage, hint letters are
revealed. The game comes in three screens:

- the normal game (`src/Juego.jsx`), with unlimited guesses and its own `progress` cookie;
- the hard game (`src/JuegoPorIntentos.jsx`), with nine attempts per day, saved through the
  daily progress store (`src/utils/gameProgress.js`), which keeps one record per day in
  both the cookie store and the local store;
- a local two-player game (`src/JuegoMultijugador.jsx`), with up to three rounds where each
  field scores once (brand 10, model 30, year 30).

Around the game sit three more pieces:

- the monthly, weekly and daily rankings (`src/services/firebase.js`, `src/Ranking.jsx`),
  which group plays by user and sort them;
- the admin panel's list helpers (`src/App.jsx`): search, image upload cap, image
  deletion, edit defaults and the vehicle of the day.

The model has one module per concern:

| module | file | models |
|---|---|---|
| `Base` | base.dfy | `Option`, JavaScript's `||` on numbers, `Math.min`/`max`/`abs`, the truncating `%` |
| `Text` | text.dfy | ASCII `toLowerCase`, `includes`, `trim`, the decimal text of a year |
| `Catalog` | catalog.dfy | vehicles, the vehicle of the day, the round vehicles, the admin search |
| `Admin` | admin.dfy | the `AdminPanel` class: upload cap, delete by index, edit defaults |
| `Rules` | rules.dfy | answer checking, failed-answer lists, image unlock, hint arithmetic, revealed prefix, year colours |
| `Progress` | progress.dfy | the `Stores` class (two maps) and the pure `Load` |
| `NormalMode` | normal_mode.dfy | the normal `Game` class |
| `LimitedMode` | limited_mode.dfy | the hard `Game` class, its two save paths and the load-time attempt computation |
| `Multiplayer` | multiplayer.dfy | the `Match` class, scoring, round end, winners |
| `Ranking` | ranking.dfy | grouping by user, the in-place sorts, the week of the month |

Modelling choices:

- The 800 ms `setTimeout` transitions are applied within the guess that schedules them.
  The deferred update lands after the guess's synchronous updates. So after a right brand
  or model the hint letters are 0, even when the same guess raised them. A right year keeps
  the raise.
- A store maps keys to `Entry` values: either the JSON of a record (`Json`) or any other
  text (`Text`). Parsing any other text gives `Malformed`, and the empty text is falsy.
- "Today", "yesterday" and the day of the month are parameters.

Where the game's written description and its code differ, the model follows the code:

- answers are matched by lower-casing only: no accent folding and no trimming;
- a year answer is compared as text, with no range check;
- no attempt counter is shared between modes: the normal game keeps its own cookie;
- the hard store's `totalAttemptsUsed` is what the caller passes, or else the stage's
  `errorCount`; it is not recomputed and there is no running maximum;
- two-player turns simply alternate on every miss and stay with the player on a round win;
- "Ver resultado" does not mark the puzzle solved;
- `getSemanaDelMes` gives week 5 for days 29 to 31, although its comment says weeks 1 to 4.

## Model

| member | source | states |
|---|---|---|
| Base.JsRem | src/Juego.jsx:444 | JavaScript `%` on a positive divisor is the remainder of division truncated toward zero: `a` is the truncated quotient times `b` plus the result, which lies in `0..b-1` for a non-negative dividend and in `-(b-1)..0` for a negative one |
| Text.Lower | src/Juego.jsx:148-149 | lower-casing maps each upper-case ASCII letter, position by position, to its lower-case letter and keeps every other character |
| Text.LowerIdempotent | src/Juego.jsx:148-149 | lower-casing twice is lower-casing once |
| Text.Contains | src/App.jsx:165-166 | `includes` holds exactly when the needle occurs at some position of the haystack |
| Text.TrimEmptyIffBlank | src/JuegoMultijugador.jsx:108 | `trim()` gives the empty string exactly when the string is all white space |
| Text.Digits | src/Juego.jsx:191 | a year's text is non-empty, made of decimal digits, and reads back as the year |
| Text.DigitsInjective | src/Juego.jsx:191 | two numbers with the same decimal text are equal |
| Text.IntText | src/Juego.jsx:191 | `toString()` of a year is non-empty and starts with `-` exactly for a negative year |
| Text.IntTextInjective | src/Juego.jsx:191 | two years with the same text are equal |
| Catalog.Filter | src/App.jsx:162 | `filter` keeps exactly the elements satisfying the test and is no longer than its input |
| Catalog.FilterAppend | src/App.jsx:162-168 | filtering a concatenation is the concatenation of the filtered parts, so the relative order is kept |
| Catalog.FilterAll | src/App.jsx:162-168 | a test every element passes keeps the whole list |
| Catalog.VehicleOfTheDay | src/App.jsx:155-158 | the result is the first car scheduled for today, and there is none exactly when no car is scheduled |
| Catalog.RoundVehicles | src/JuegoMultijugador.jsx:99-104 | the round vehicles are the first `min(3, n)` of the `n` cars scheduled today, in catalogue order |
| Catalog.FirstRoundIsVehicleOfTheDay | src/JuegoMultijugador.jsx:99-104 | there is a first round exactly when there is a vehicle of the day, and it is that vehicle |
| Catalog.FilteredCars | src/App.jsx:162-168 | a car is listed exactly when its lower-cased brand or model contains the lower-cased term |
| Catalog.MatchesSearch | src/App.jsx:162-168 | the empty term matches every car, and a matching term is no longer than the brand or the model |
| Catalog.EmptySearchKeepsAll | src/App.jsx:162-168 | an empty search term lists every car, in order |
| Catalog.SearchKeepsOrder | src/App.jsx:162-168 | searching a concatenated list searches each part, so listed cars keep their relative order |
| Admin.RemoveAt | src/App.jsx:148-153 | for an index in range exactly that element is removed and the others keep their order; otherwise the list is unchanged |
| Admin.AdminPanel.constructor | src/App.jsx:14-23 | a new panel has empty image lists, within the five-image cap |
| Admin.AdminPanel.UploadImages | src/App.jsx:79-104 | a batch is accepted exactly when existing plus new images are at most five; an accepted batch is appended in order to the list being edited, a rejected one changes nothing, and the cap is kept |
| Admin.AdminPanel.DeleteImage | src/App.jsx:148-153 | the edit form's images lose exactly the element at the index; nothing else changes and the cap is kept |
| Admin.AdminPanel.Edit | src/App.jsx:106-114 | the form copies brand, model and year, defaulting missing images to `[]` and a missing date to `""` |
| Rules.TextMatches | src/Juego.jsx:148-149 | an answer is accepted exactly when it has the truth's length and agrees with it character by character up to ASCII letter case |
| Rules.YearMatches | src/Juego.jsx:189-192 | an accepted year answer is non-empty and, for a non-negative year, all digits |
| Rules.YearTextIdentifiesYear | src/Juego.jsx:189-192 | the text of a guessed year is accepted exactly when the guess is the year |
| Rules.NoTrimming | src/Juego.jsx:148-149 | the exact answer followed by a blank is rejected |
| Rules.NoAccentFolding | src/Juego.jsx:148-149 | "Citroen" does not match "Citroën" |
| Rules.NonDigitYearNeverMatches | src/Juego.jsx:189-192 | a year answer holding a non-digit never matches a non-negative year |
| Rules.Attempts.Add | src/Juego.jsx:151-155 | a wrong answer is appended to its own stage's list, the other lists are unchanged, and the total grows by one |
| Rules.NextImage | src/Juego.jsx:158 | the unlocked image index goes up by one until it reaches 3, never passes 3 and never goes down |
| Rules.HintLevel | src/Juego.jsx:224-230 | no hint letters below five failures, at least one from five on |
| Rules.HintDueRaisesLevel | src/Juego.jsx:208-210 | the per-guess raise fires exactly when one more failure raises the hint level, and then by exactly one |
| Rules.HintRemaining | src/Juego.jsx:444 | from five failures the modal's count is in 1..3, the level rises after exactly that many more failures, and stays put before |
| Rules.HintRemainingBelowThreshold | src/Juego.jsx:444 | below five failures the formula gives 5, 4, 3, 5, 4 for 0 to 4 failures, so it lies in 1..3 only at two failures |
| Rules.Slice | src/Juego.jsx:234-236 | `slice(0, n)` is a prefix, of length `min(n, len)` for a non-negative `n` |
| Rules.RevealedText | src/Juego.jsx:232-239 | the revealed text is a prefix of the brand at stage 1 and of the model at stage 2, at most `revealedLetters` long (exactly that when it fits), and empty at the year stage |
| Rules.YearStyle | src/Juego.jsx:137-143 | the colour band is chosen by distance only: up to 2, 3 to 5, 6 to 9, 10 or more |
| Rules.YearStyleSymmetric | src/Juego.jsx:137-143 | swapping guess and truth gives the same colour |
| Rules.YearStyleMonotone | src/Juego.jsx:137-143 | a farther guess never gets a milder colour |
| Progress.Key | src/utils/gameProgress.js:20-21 | a day's key ends with the date and is never the `lastResetDate` key |
| Progress.KeyInjective | src/utils/gameProgress.js:20-21 | different days use different keys |
| Progress.BuildRecord | src/utils/gameProgress.js:8-17 | the record has today's date and the vehicle id; `modo` defaults to `normal`; a falsy step becomes 1 and any other step is kept; `totalAttemptsUsed` falls back to `errorCount`; the other fields are the caller's |
| Progress.Lookup | src/utils/gameProgress.js:31-34 | the local entry is used when truthy, else the cookie when truthy, else nothing |
| Progress.Parse | src/utils/gameProgress.js:36-60 | parsing yields a record exactly for the JSON of a record, and then that record; any other text yields no record |
| Progress.RemainingAttempts | src/utils/gameProgress.js:45-47 | the attempts left are never negative, and are `max(0, 9 - used)`, at most 9, for a non-negative count |
| Progress.Load | src/utils/gameProgress.js:25-61 | there is nothing without a vehicle, without a truthy entry, or with malformed text; a loaded record matches the vehicle and today; in hard mode it carries the mode and a non-negative attempt count |
| Progress.StaleRecordIgnored | src/utils/gameProgress.js:40-42 | a record for another vehicle or another day is not loaded |
| Progress.LocalStoreFirst | src/utils/gameProgress.js:31-32 | with a truthy local entry the cookie store is irrelevant |
| Progress.SaveThenLoad | src/utils/gameProgress.js:4-56 | loading right after a save returns the saved record; in hard mode it is tagged `dificil` with `max(0, 9 - used)` attempts |
| Progress.SaveOverwrites | src/utils/gameProgress.js:20-21 | a second save replaces the first outright |
| Progress.LoadAfterDailyReset | src/utils/gameProgress.js:64-89 | after the daily reset today's load finds nothing |
| Progress.Stores.Save | src/utils/gameProgress.js:4-22 | without a vehicle nothing changes; otherwise the same record is written under today's key in both stores and no other key changes |
| Progress.Stores.ResetDaily | src/utils/gameProgress.js:64-77 | yesterday's and today's keys are removed from both stores, nothing else |
| Progress.Stores.CheckAndResetDaily | src/utils/gameProgress.js:80-89 | on a new day the reset runs and `lastResetDate` is stamped in both stores; otherwise nothing changes; afterwards it is not a new day, so a second call changes nothing |
| Progress.Stores.ResetGame | src/utils/gameProgress.js:92-96 | only today's key is removed, from both stores |
| Progress.LastReset | src/utils/gameProgress.js:82 | a truthy cookie wins; otherwise the local entry is read; there is nothing exactly when neither is there |
| Progress.NewDay | src/utils/gameProgress.js:80-84 | with nothing stored it is a new day; with a truthy cookie it is a new day exactly when the cookie differs from today |
| Progress.ResetEndsNewDay | src/utils/gameProgress.js:84-87 | once today is stamped in both stores it is no longer a new day |
| NormalMode.Game.constructor | src/Juego.jsx:42-58 | a fresh screen is at stage 1 with empty lists and zero counters |
| NormalMode.Game.Type | src/Juego.jsx:130-135 | an edit changes only its own box |
| NormalMode.Game.Guess | src/Juego.jsx:145-211 | a right brand or model advances and zeroes failures and hint letters; a wrong answer is appended, counts one failure and unlocks an image; a right year solves; the hint raise uses the failure count from before the guess; the state invariant (hint letters match failures until solved, image index at most 3) is kept and the image index never goes down |
| NormalMode.Game.Fail | src/Juego.jsx:151-161 | `nuevoIntento`: the answer is appended to its stage, one failure counted, the next image shown |
| NormalMode.Game.ShowHint | src/Juego.jsx:224-230 | from five failures the hint letters become the level the failures earned; below five nothing changes |
| NormalMode.Game.HintText | src/Juego.jsx:232-239 | the shown hint is a prefix of the current stage's answer, empty at the year stage |
| NormalMode.Game.HintAttemptsRemaining | src/Juego.jsx:444 | from five failures the count is in 1..3 |
| NormalMode.Game.CookieToSave | src/Juego.jsx:113-128 | a snapshot with today's date and the vehicle id exists exactly when there is a vehicle |
| NormalMode.Game.LoadFromCookie | src/Juego.jsx:85-111 | with a vehicle, text `JSON.parse` rejects (or `null`) throws and sets nothing; an empty cookie, a missing one and another value are ignored; a snapshot is applied only when dated today for this vehicle; loading what was just saved changes nothing |
| LimitedMode.Restored | src/JuegoPorIntentos.jsx:113-140 | with no record only the budget resets to 9; with one, attempts are `max(0, 9 - used)` and a solved record shows the reveal image |
| LimitedMode.ExplicitSaveRestores | src/JuegoPorIntentos.jsx:205-219 | reloading what the explicit save stored gives back the whole board, attempts included |
| LimitedMode.AutoSaveForgetsAttempts | src/JuegoPorIntentos.jsx:85-99 | three wrong brands then the right brand leave 6 attempts, but reloading the auto-saved record gives 9 |
| LimitedMode.Game.constructor | src/JuegoPorIntentos.jsx:60 | a new game has nine attempts, satisfies the invariant and is not over |
| LimitedMode.Game.Type | src/JuegoPorIntentos.jsx:165-170 | an edit changes only its own box |
| LimitedMode.Game.Guess | src/JuegoPorIntentos.jsx:180-317 | with no vehicle or no attempts nothing happens; a wrong answer costs one attempt, is appended, counts a failure and unlocks an image; an advance zeroes failures and hint letters but keeps the attempts; a right year solves and shows image 4; attempts left plus wrong answers stay 9 and within 0..9 |
| LimitedMode.Game.Advance | src/JuegoPorIntentos.jsx:222-236 | a stage advance changes only the stage, failures and hint letters, and keeps the invariant |
| LimitedMode.Game.Solve | src/JuegoPorIntentos.jsx:276-289 | a right year marks the puzzle solved and sets both image indices to 4, keeping the invariant |
| LimitedMode.Game.Fail | src/JuegoPorIntentos.jsx:186-202 | a wrong answer spends exactly one attempt, is appended and keeps attempts plus wrong answers at 9 |
| LimitedMode.Game.SaveProgress | src/JuegoPorIntentos.jsx:205-220 | the store receives the board with `totalAttemptsUsed = 9 - totalAttempts` under today's key |
| LimitedMode.Game.AutoSave | src/JuegoPorIntentos.jsx:85-99 | the store receives the board without `totalAttemptsUsed`, so the record's count is the stage's `errorCount` |
| LimitedMode.Game.LoadProgress | src/JuegoPorIntentos.jsx:101-145 | the daily reset check runs first, so afterwards it is not a new day; the board becomes the load-time computation over today's stored record, which on the first visit of a day means a fresh budget of nine and nothing else changed |
| LimitedMode.Game.Restore | src/JuegoPorIntentos.jsx:113-140 | the setters leave the board equal to the load-time computation and touch neither the vehicle nor the text boxes |
| LimitedMode.Game.ShowResult | src/JuegoPorIntentos.jsx:330-339 | a solved puzzle shows the reveal image; the solved flag, the attempts and the game-over state do not change |
| LimitedMode.ExhaustedGuessIsIgnored | src/JuegoPorIntentos.jsx:78-82 | once out of attempts on an unsolved puzzle, a guess leaves the game over |
| Multiplayer.Judge | src/JuegoMultijugador.jsx:137-139 | each field is judged on its own: lower-cased text equality, year text equality |
| Multiplayer.Unclaimed | src/JuegoMultijugador.jsx:153-164 | at most 70 points are open in a round, and none once every field is guessed |
| Multiplayer.Scored | src/JuegoMultijugador.jsx:153-164 | a field is guessed afterwards exactly when it was guessed before or the submission has it right |
| Multiplayer.Points | src/JuegoMultijugador.jsx:153-164 | a submission earns exactly the open points of the fields it guesses first, at most 70 |
| Multiplayer.RoundPointsBounded | src/JuegoMultijugador.jsx:153-164 | over any sequence of submissions in a round, each field scores at most once: the total is at most the open points |
| Multiplayer.MaxScore | src/JuegoMultijugador.jsx:303 | the highest score bounds every score and is someone's score |
| Multiplayer.Winners | src/JuegoMultijugador.jsx:302-305 | a player is marked exactly when no score is higher, so ties mark several; someone is always marked |
| Multiplayer.AttemptYearStyle | src/JuegoMultijugador.jsx:123-131 | a right year is green; a wrong one is light warning up to distance 2, orange at 3 to 5, dark orange at 6 to 9 and danger from 10 |
| Multiplayer.AllCorrect | src/JuegoMultijugador.jsx:143-150 | a submission is all correct exactly when it alone wins the round from clear flags: brand, model and year, or model and year at index 2 |
| Multiplayer.BlankFieldNeverAllCorrect | src/JuegoMultijugador.jsx:143-150 | an empty box for a required field with a non-empty truth (brand outside index 2, model, year) never makes a submission all correct |
| Multiplayer.RoundWonByFlags | src/JuegoMultijugador.jsx:143-150 | the intended rule (all required flags set) accepts everything the code's rule accepts, and also a later submission that supplies only the fields still missing |
| Multiplayer.Match.constructor | src/JuegoMultijugador.jsx:72-104 | the match starts at round 0 with today's first three scheduled vehicles, zero scores and names pending |
| Multiplayer.Match.SetName | src/JuegoMultijugador.jsx:117-121 | only the edited name box changes; players, round, flags, turn, attempts, images, boxes and vehicles stay |
| Multiplayer.Match.SubmitNames | src/JuegoMultijugador.jsx:106-115 | the names are accepted exactly when neither is blank, and acceptance zeroes both scores; a blank name changes nothing; the name boxes, round, flags, turn, attempts, images, answer boxes and vehicles stay |
| Multiplayer.Match.Type | src/JuegoMultijugador.jsx:357-390 | edits to a guessed field's box, or to the brand box in the third round, are refused |
| Multiplayer.Match.Guess | src/JuegoMultijugador.jsx:133-228 | with no vehicle nothing happens; scores never go down; the round index stays below the number of vehicles; a round in which a required field was guessed and its box is empty stays stuck |
| Multiplayer.Match.Play | src/JuegoMultijugador.jsx:133-228 | given the submission's verdict, its points go to the current player; an all-correct one keeps the turn and starts the next round or marks all fields on the last; any other is recorded for the player, counts an error, unlocks an image and passes the turn; right boxes are cleared |
| Multiplayer.Match.Award | src/JuegoMultijugador.jsx:153-164 | only the current player's score changes, by the given points |
| Multiplayer.Match.EndRound | src/JuegoMultijugador.jsx:166-190 | the next round starts with clear flags, attempts, errors and images, or the last round marks every field |
| Multiplayer.Match.Miss | src/JuegoMultijugador.jsx:191-215 | the attempt is appended with the player's index, errors grow by one, the image index is capped at 3, and the turn passes |
| Ranking.KeyLeTotalOrder | src/services/firebase.js:76-84 | the lexicographic comparison is total, transitive and antisymmetric |
| Ranking.StandingKeyMatchesComparator | src/services/firebase.js:76-84 | the key order puts a row first exactly when the `sort` comparator gives at most 0, and the keys tie exactly when it gives 0 |
| Ranking.DailyKeyMatchesComparator | src/Ranking.jsx:18-23 | the same for the daily comparator and its key |
| Ranking.UsersComplete | src/services/firebase.js:54-67 | the grouping lists a user exactly when the user has a play |
| Ranking.UsersDistinct | src/services/firebase.js:54-67 | the grouping lists each user once |
| Ranking.DaysAreDatesPlayed | src/services/firebase.js:65 | a user's days are exactly the dates of the user's plays |
| Ranking.NicknameOfFirstPlay | src/services/firebase.js:55-61 | a user's nickname is the one of the user's first play |
| Ranking.TotalsAdd | src/services/firebase.js:63-65 | a user's totals over two lists of plays add up, and the days unite |
| Ranking.AbsentUserIsEmpty | src/services/firebase.js:54-67 | a user with no play has no time, no failures, no days and no nickname |
| Ranking.Standings | src/services/firebase.js:70-73 | there is one row per distinct user |
| Ranking.OnePlayMore | src/services/firebase.js:54-67 | a play changes only its own user's accumulator, adding its time, failures and date |
| Ranking.Group | src/services/firebase.js:54-67 | the accumulator holds one entry per user, in first-appearance order, with the user's totals |
| Ranking.Aggregate | src/services/firebase.js:54-73 | the unsorted rows are one per user, with summed time and failures and the count of distinct days |
| Ranking.InsertLast | src/services/firebase.js:76-84 | one insertion step extends the sorted prefix by one element and keeps the array's elements |
| Ranking.SortByKey | src/services/firebase.js:76-84 | the array ends sorted by the key and holds the same elements |
| Ranking.PeriodRanking | src/services/firebase.js:44-133 | the monthly and the weekly table (the same body over a different query) are a permutation of the per-user rows, more days first, then less time, then fewer failures |
| Ranking.DailyRanking | src/Ranking.jsx:18-25 | the day's results end sorted by time, then failures, as a permutation of the fetched records |
| Ranking.WeekOfMonth | src/services/firebase.js:27-32 | the week is in 1..5 with `7(w-1) < day <= 7w`, and it is 5 exactly for days 29 to 31 |

## Findings

| source | as written | input that shows it | evidently intended | confidence | as-written member | corrected member |
|---|---|---|---|---|---|---|
| src/JuegoPorIntentos.jsx:85-99 | The auto-save effect passes no `totalAttemptsUsed`, so the store records the stage's `errorCount` in its place (src/utils/gameProgress.js:16). The effect runs after every state change, after the explicit save. | Three wrong brands, then the right brand: 6 attempts are left, but the stored count is 0 and a reload restores 9. | The stored count is `9 - totalAttempts`, as the explicit `saveProgress` writes it. | not executed | LimitedMode.AutoSaveForgetsAttempts | LimitedMode.ExplicitSaveRestores |
| src/JuegoMultijugador.jsx:143-150 | A round ends only when one submission has every required field right. But a guessed field's box is cleared (lines 221-223) and disabled (lines 365, 377, 388). This holds for the brand outside index 2, and for the model and the year in every round. | Round 1: one player submits the right brand with a wrong model. The brand box is now empty and locked, so no later submission is all correct and the round never ends. At index 2, a right model with a wrong year stalls the round the same way. | The round ends once every required field has been guessed, in whatever submissions. | not executed | Multiplayer.BlankFieldNeverAllCorrect | Multiplayer.RoundWonByFlags |

`Multiplayer.Match.Guess` follows the code as written. Its postcondition shows that a stuck round stays stuck: once any required field is guessed on its own, its box stays empty. `Multiplayer.RoundWonByFlags` states the intended rule and proves it ends that round. `LimitedMode.Game.SaveProgress` is the corrected save path.

## Left out

- Rendering: the modals, image dots, input colours and the 300 ms error flash are not modelled. Neither is picking a picture with the dots (`setCurrentImageIndex` on click).
- Network: the catalogue fetch and the Firestore queries are left out. The catalogue, the plays and the daily results are parameters.
- Dates: today, yesterday and the day of the month are parameters. Time zones, daylight-saving shifts in `getSemanaDelMes` and cookie expiry are not modelled.
- NormalMode.Game.LoadFromCookie: the exception is reported as `threw`; the unmounting of the screen it causes is not modelled. A cookie holding other JSON is taken to carry no snapshot of today.
- Progress.Parse: JSON that is not a whole record but carries today's vehicle id and date is returned by the source as it is; the model treats every text other than a record's JSON as yielding no record.
- JSON: records are stored as datatypes. `JSON.parse` and `stringify` are replaced by the `Json`/`Text` entry.
- Effect scheduling: React effects are left out. Loads and saves are explicit calls. This includes the hard screen's first fetch effect, whose `loadProgress` runs before the vehicle is set (src/JuegoPorIntentos.jsx:63-76, 147-163).
- LimitedMode.Game.Guess: does not perform the `saveProgress` calls that `handleGuess` makes. Those are `LimitedMode.Game.SaveProgress`, and the effect's save is `LimitedMode.Game.AutoSave`.
- LimitedMode.Game.SaveProgress: stores the whole board as it stands after the guess. Each `saveProgress` call inside `handleGuess` (src/JuegoPorIntentos.jsx:205-220) mixes the values it is passed with the pre-guess values of the other fields. The hint-letter save at lines 308-316, for example, keeps the old attempt count. The auto-save effect overwrites these writes afterwards.
- The Enter-key guard (guess only with a non-empty answer) and the disabled guess button are callers' conditions. The `Guess` members model `handleGuess` itself.
- Text: `toLowerCase` is modelled for ASCII letters only, and years are integers. The string-to-number coercion in the two-player year colour is a parameter of `Multiplayer.AttemptYearStyle`.
- Numbers: times and failure counts are integers. JavaScript floating point is not modelled.
- Ranking.Aggregate: rows come out in first-appearance order. JavaScript puts integer-like object keys first, which is not modelled.
- Ranking.SortByKey: stability is not stated. JavaScript's sort is stable, but ties keep an unspecified order in this model.
- Admin.AdminPanel.UploadImages: `FileReader` decoding is left out, as is the asynchronous append after `Promise.all`. Images are given strings, appended at once.
- The admin CRUD calls, authentication, i18n tables, theme and routing are left out.
