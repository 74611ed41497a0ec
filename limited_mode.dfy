/** The limited-attempts daily game (src/JuegoPorIntentos.jsx, the "difícil" mode): the
    normal game's stages with a budget of nine wrong answers, persisted through the
    daily progress store. */
module LimitedMode {
  import opened Base
  import opened Catalog
  import opened Rules
  import opened Progress

  /** The attempt budget (src/JuegoPorIntentos.jsx:60). */
  const Budget := 9

  /** Which text box an edit goes to. */
  datatype Field = BrandBox | ModelBox | YearBox

  /** The screen's persisted state. */
  datatype Board = Board(
    step: int,
    isCompleted: bool,
    failed: Attempts,
    errorCount: int,
    maxImageIndex: int,
    revealedLetters: int,
    currentImageIndex: int,
    totalAttempts: int)

  /** What a game started from nine attempts keeps: the attempts left and the wrong
      answers add up to nine, the stage's failures are among them, and until the puzzle
      is solved the hint letters match the stage's failures. */
  ghost predicate ValidBoard(b: Board)
  {
    && 1 <= b.step <= 3
    && 0 <= b.totalAttempts <= Budget
    && Budget - b.totalAttempts == b.failed.Total()
    && 0 <= b.errorCount <= b.failed.Total()
    && 0 <= b.maxImageIndex <= 4
    && (!b.isCompleted ==> b.revealedLetters == HintLevel(b.errorCount))
  }

  /** The fields the auto-save effect passes (src/JuegoPorIntentos.jsx:88-98): no
      `totalAttemptsUsed`. */
  function AutoSaveData(b: Board): Data
  {
    Data(Some(Hard), b.step, b.isCompleted, b.failed, b.errorCount, b.maxImageIndex,
         b.revealedLetters, b.currentImageIndex, b.totalAttempts, None)
  }

  /** The fields `saveProgress` passes: the same, plus `totalAttemptsUsed = 9 - totalAttempts`. */
  function ExplicitSaveData(b: Board): (d: Data)
    ensures d.totalAttemptsUsed == Some(Budget - b.totalAttempts)
  {
    Data(Some(Hard), b.step, b.isCompleted, b.failed, b.errorCount, b.maxImageIndex,
         b.revealedLetters, b.currentImageIndex, b.totalAttempts, Some(Budget - b.totalAttempts))
  }

  /** The load-time computation (src/JuegoPorIntentos.jsx:113-140): with no record only
      the budget is reset to nine; with one, its fields (with `|| default`), the attempts
      left from `totalAttemptsUsed`, and the reveal image for a solved puzzle. */
  function Restored(b: Board, saved: Option<Record>): (r: Board)
    ensures saved.None? ==> r == b.(totalAttempts := Budget)
    ensures saved.Some? ==> 0 <= r.totalAttempts && r.step != 0
    ensures saved.Some? && saved.value.totalAttemptsUsed >= 0 ==> r.totalAttempts == Max(0, Budget - saved.value.totalAttemptsUsed)
    ensures saved.Some? && saved.value.isCompleted ==> r.isCompleted && r.maxImageIndex == 4 && r.currentImageIndex == 4
  {
    match saved
    case None => b.(totalAttempts := Budget)
    case Some(rec) =>
      Board(Or(rec.step, 1), rec.isCompleted, rec.failed, Or(rec.errorCount, 0),
            if rec.isCompleted then 4 else Or(rec.maxImageIndex, 0),
            Or(rec.revealedLetters, 0),
            if rec.isCompleted then 4 else Or(rec.currentImageIndex, 0),
            Max(0, Budget - Or(rec.totalAttemptsUsed, 0)))
  }

  /** The explicit save round-trips: reloading what `saveProgress` stored gives back the
      board, attempts left included. */
  lemma ExplicitSaveRestores(b: Board, before: Board, v: Vehicle, cookies: map<string, Entry>,
                             local: map<string, Entry>, today: string)
    requires ValidBoard(b)
    requires b.isCompleted ==> b.maxImageIndex == 4 && b.currentImageIndex == 4
    ensures var e := Json(BuildRecord(v.id, ExplicitSaveData(b), today));
            Restored(before, Load(cookies[Key(today) := e], local[Key(today) := e], Some(v), Some(Hard), today)) == b
  {
    var rec := BuildRecord(v.id, ExplicitSaveData(b), today);
    SaveThenLoad(cookies, local, v, ExplicitSaveData(b), Some(Hard), today);
    assert rec.totalAttemptsUsed == Budget - b.totalAttempts by {
      if b.totalAttempts == Budget {
        assert b.errorCount == 0;
      }
    }
  }

  /** The auto-save does not round-trip: three wrong brands then the right brand leave
      six attempts, but reloading what the auto-save stored gives nine. */
  lemma AutoSaveForgetsAttempts(v: Vehicle, cookies: map<string, Entry>, local: map<string, Entry>, today: string)
    ensures var b := Board(2, false, Attempts(["Audi", "Seat", "Fiat"], [], []), 0, 3, 0, 3, 6);
            var e := Json(BuildRecord(v.id, AutoSaveData(b), today));
            && ValidBoard(b)
            && Restored(b, Load(cookies[Key(today) := e], local[Key(today) := e], Some(v), Some(Hard), today)).totalAttempts == 9
  {
    var b := Board(2, false, Attempts(["Audi", "Seat", "Fiat"], [], []), 0, 3, 0, 3, 6);
    SaveThenLoad(cookies, local, v, AutoSaveData(b), Some(Hard), today);
  }

  class Game {
    var vehicle: Option<Vehicle>
    var step: int
    var isCompleted: bool
    var failed: Attempts
    var errorCount: int
    var maxImageIndex: int
    var currentImageIndex: int
    var revealedLetters: int
    var totalAttempts: int
    var brandInput: string
    var modelInput: string
    var yearInput: string

    function Current(): Board
      reads this
    {
      Board(step, isCompleted, failed, errorCount, maxImageIndex, revealedLetters, currentImageIndex, totalAttempts)
    }

    ghost predicate Valid()
      reads this
    {
      ValidBoard(Current())
    }

    /** No attempts are left on an unsolved puzzle: the condition on which the effect
        opens the out-of-attempts modal (src/JuegoPorIntentos.jsx:78-82). */
    predicate GameOver()
      reads this
    {
      totalAttempts <= 0 && !isCompleted
    }

    constructor (vehicle: Option<Vehicle>)
      ensures Valid() && !GameOver()
      ensures this.vehicle == vehicle
      ensures Current() == Board(1, false, NoAttempts, 0, 0, 0, 0, Budget)
      ensures brandInput == "" && modelInput == "" && yearInput == ""
    {
      this.vehicle := vehicle;
      step, isCompleted, failed := 1, false, NoAttempts;
      errorCount, maxImageIndex, currentImageIndex, revealedLetters := 0, 0, 0, 0;
      totalAttempts := Budget;
      brandInput, modelInput, yearInput := "", "", "";
    }

    /** `handleInputChange`. */
    method Type(field: Field, value: string)
      modifies this
      ensures brandInput == (if field == BrandBox then value else old(brandInput))
      ensures modelInput == (if field == ModelBox then value else old(modelInput))
      ensures yearInput == (if field == YearBox then value else old(yearInput))
      ensures vehicle == old(vehicle) && Current() == old(Current())
    {
      match field
      case BrandBox => brandInput := value;
      case ModelBox => modelInput := value;
      case YearBox => yearInput := value;
    }

    /** A guess is taken: there is a vehicle and attempts are left. */
    predicate Live()
      reads this
    {
      vehicle.Some? && totalAttempts > 0
    }

    function Answer(): string
      reads this
    {
      if step == 1 then brandInput else if step == 2 then modelInput else yearInput
    }

    predicate Correct()
      reads this
      requires Live()
    {
      || (step == 1 && TextMatches(brandInput, vehicle.value.brand))
      || (step == 2 && TextMatches(modelInput, vehicle.value.model))
      || (step == 3 && YearMatches(yearInput, vehicle.value.year))
    }

    /** `handleGuess`, with the 800 ms transitions applied at once. With no vehicle or no
        attempts left nothing happens. A wrong answer costs one attempt, is appended to
        the stage's list, counts one failure and unlocks one more image (at most the
        fourth). A right brand or model moves on and resets the stage's failures and
        hint letters but keeps the attempts; a right year solves the puzzle and shows the
        reveal image. */
    method Guess()
      modifies this
      ensures vehicle == old(vehicle)
      ensures old(vehicle).None? || old(totalAttempts) <= 0 ==> unchanged(this)
      ensures old(Live() && (step == 1 || step == 2) && Correct()) ==>
                && step == old(step) + 1 && errorCount == 0 && revealedLetters == 0
                && failed == old(failed) && isCompleted == old(isCompleted) && totalAttempts == old(totalAttempts)
                && maxImageIndex == old(maxImageIndex) && currentImageIndex == old(currentImageIndex)
      ensures old(Live() && 1 <= step <= 3 && !Correct()) ==>
                && failed == old(failed).Add(old(step), old(Answer()))
                && errorCount == old(errorCount) + 1 && totalAttempts == old(totalAttempts) - 1
                && maxImageIndex == NextImage(old(maxImageIndex)) && currentImageIndex == maxImageIndex
                && revealedLetters == old(revealedLetters) + (if HintDue(old(errorCount)) then 1 else 0)
                && step == old(step) && isCompleted == old(isCompleted)
      ensures old(Live() && step == 3 && Correct()) ==>
                && isCompleted && maxImageIndex == 4 && currentImageIndex == 4
                && revealedLetters == old(revealedLetters) + (if HintDue(old(errorCount)) then 1 else 0)
                && step == 3 && failed == old(failed) && errorCount == old(errorCount)
                && totalAttempts == old(totalAttempts)
      ensures old(Live() && !(1 <= step <= 3)) ==>
                Current() == old(Current()).(revealedLetters := old(revealedLetters) + (if HintDue(old(errorCount)) then 1 else 0))
      ensures old(Live()) ==>
                && brandInput == (if old(step) == 1 then "" else old(brandInput))
                && modelInput == (if old(step) == 2 then "" else old(modelInput))
                && yearInput == (if old(step) == 3 && !old(Correct()) then "" else old(yearInput))
      ensures old(Valid()) ==> Valid()
    {
      if vehicle.None? || totalAttempts <= 0 {
        return;
      }
      var v := vehicle.value;
      var due := HintDue(errorCount);
      if step == 1 && TextMatches(brandInput, v.brand) {
        Advance();
        brandInput := "";
      } else if step == 2 && TextMatches(modelInput, v.model) {
        Advance();
        modelInput := "";
      } else if step == 3 && YearMatches(yearInput, v.year) {
        Solve(due);
      } else if step == 1 {
        Fail(brandInput, due);
        brandInput := "";
      } else if step == 2 {
        Fail(modelInput, due);
        modelInput := "";
      } else if step == 3 {
        Fail(yearInput, due);
        yearInput := "";
      } else if due {
        revealedLetters := revealedLetters + 1;
      }
    }

    /** The deferred part of a right brand or model: next stage, failures and hint
        letters back to zero. The hint increment of the same guess is overwritten by it. */
    method Advance()
      requires step == 1 || step == 2
      modifies this
      ensures Current() == old(Current()).(step := old(step) + 1, errorCount := 0, revealedLetters := 0)
      ensures vehicle == old(vehicle)
      ensures brandInput == old(brandInput) && modelInput == old(modelInput) && yearInput == old(yearInput)
      ensures old(Valid()) ==> Valid()
    {
      step, errorCount, revealedLetters := step + 1, 0, 0;
    }

    /** A right year: solved, with the reveal image shown (and the guess's hint increment). */
    method Solve(due: bool)
      requires due == HintDue(errorCount)
      modifies this
      ensures Current() == old(Current()).(isCompleted := true, maxImageIndex := 4, currentImageIndex := 4,
                                           revealedLetters := old(revealedLetters) + (if due then 1 else 0))
      ensures vehicle == old(vehicle)
      ensures brandInput == old(brandInput) && modelInput == old(modelInput) && yearInput == old(yearInput)
      ensures old(Valid()) ==> Valid()
    {
      isCompleted, maxImageIndex, currentImageIndex := true, 4, 4;
      if due {
        revealedLetters := revealedLetters + 1;
      }
    }

    /** `nuevoIntento` and the guess's hint increment: record a wrong answer, spend one
        attempt, unlock one more image. */
    method Fail(value: string, due: bool)
      requires 1 <= step <= 3 && totalAttempts > 0
      requires due == HintDue(errorCount)
      modifies this
      ensures failed == old(failed).Add(old(step), value)
      ensures errorCount == old(errorCount) + 1 && totalAttempts == old(totalAttempts) - 1
      ensures maxImageIndex == NextImage(old(maxImageIndex)) && currentImageIndex == maxImageIndex
      ensures revealedLetters == old(revealedLetters) + (if due then 1 else 0)
      ensures vehicle == old(vehicle) && step == old(step) && isCompleted == old(isCompleted)
      ensures brandInput == old(brandInput) && modelInput == old(modelInput) && yearInput == old(yearInput)
      ensures old(Valid()) ==> Valid()
    {
      if errorCount >= 0 {
        HintDueRaisesLevel(errorCount);
      }
      failed := failed.Add(step, value);
      errorCount := errorCount + 1;
      totalAttempts := totalAttempts - 1;
      maxImageIndex := NextImage(maxImageIndex);
      currentImageIndex := maxImageIndex;
      if due {
        revealedLetters := revealedLetters + 1;
      }
    }

    /** `saveProgress`: store the board with `totalAttemptsUsed = 9 - totalAttempts`. */
    method SaveProgress(store: Stores, today: string)
      modifies store
      ensures vehicle.None? ==> store.cookies == old(store.cookies) && store.local == old(store.local)
      ensures vehicle.Some? ==>
                var e := Json(BuildRecord(vehicle.value.id, ExplicitSaveData(Current()), today));
                store.cookies == old(store.cookies)[Key(today) := e] && store.local == old(store.local)[Key(today) := e]
    {
      store.Save(vehicle, ExplicitSaveData(Current()), today);
    }

    /** The auto-save effect: store the board without `totalAttemptsUsed`, so the store
        records the stage's `errorCount` in its place. */
    method AutoSave(store: Stores, today: string)
      modifies store
      ensures vehicle.None? ==> store.cookies == old(store.cookies) && store.local == old(store.local)
      ensures vehicle.Some? ==>
                var e := Json(BuildRecord(vehicle.value.id, AutoSaveData(Current()), today));
                && store.cookies == old(store.cookies)[Key(today) := e] && store.local == old(store.local)[Key(today) := e]
                && e.record.totalAttemptsUsed == errorCount
    {
      if vehicle.None? {
        return;
      }
      store.Save(vehicle, AutoSaveData(Current()), today);
    }

    /** The mount effect in hard mode: the daily reset check, then
        `loadGameProgress(vehiculo, 'dificil')` and the setters after it. On the first
        visit of a day the reset has removed today's record, so the board starts afresh
        with nine attempts. */
    method LoadProgress(store: Stores, today: string, yesterday: string)
      modifies this, store
      ensures vehicle == old(vehicle)
      ensures brandInput == old(brandInput) && modelInput == old(modelInput) && yearInput == old(yearInput)
      ensures !NewDay(store.cookies, store.local, today)
      ensures !NewDay(old(store.cookies), old(store.local), today) ==>
                store.cookies == old(store.cookies) && store.local == old(store.local)
      ensures old(vehicle).None? ==> Current() == old(Current())
      ensures old(vehicle).Some? ==>
                Current() == Restored(old(Current()), Load(store.cookies, store.local, vehicle, Some(Hard), today))
      ensures old(vehicle).Some? && NewDay(old(store.cookies), old(store.local), today) ==>
                Current() == old(Current()).(totalAttempts := Budget)
    {
      var newDay := NewDay(store.cookies, store.local, today);
      ghost var c0, l0 := store.cookies, store.local;
      store.CheckAndResetDaily(today, yesterday);
      if newDay {
        LoadAfterDailyReset(c0, l0, vehicle, Some(Hard), today, yesterday);
      }
      if vehicle.None? {
        return;
      }
      Restore(Load(store.cookies, store.local, vehicle, Some(Hard), today));
    }

    /** The setters after `loadGameProgress`: the board becomes the load-time
        computation over the loaded record. */
    method Restore(saved: Option<Record>)
      modifies this
      ensures Current() == Restored(old(Current()), saved)
      ensures vehicle == old(vehicle)
      ensures brandInput == old(brandInput) && modelInput == old(modelInput) && yearInput == old(yearInput)
    {
      match saved
      case None =>
        totalAttempts := Budget;
      case Some(rec) =>
        step := Or(rec.step, 1);
        isCompleted := rec.isCompleted;
        failed := rec.failed;
        errorCount := Or(rec.errorCount, 0);
        maxImageIndex := Or(rec.maxImageIndex, 0);
        revealedLetters := Or(rec.revealedLetters, 0);
        currentImageIndex := Or(rec.currentImageIndex, 0);
        totalAttempts := Max(0, Budget - Or(rec.totalAttemptsUsed, 0));
        if rec.isCompleted {
          maxImageIndex, currentImageIndex := 4, 4;
        }
    }

    /** "Ver resultado" (`handleShowResult`): shows the reveal image of a solved puzzle;
        it never marks the puzzle solved, so a lost game stays lost. */
    method ShowResult()
      modifies this
      ensures isCompleted == old(isCompleted) && totalAttempts == old(totalAttempts)
      ensures GameOver() == old(GameOver())
      ensures old(isCompleted) ==> maxImageIndex == 4 && currentImageIndex == 4
      ensures !old(isCompleted) ==> unchanged(this)
      ensures vehicle == old(vehicle) && step == old(step) && failed == old(failed)
      ensures errorCount == old(errorCount) && revealedLetters == old(revealedLetters)
    {
      if isCompleted {
        maxImageIndex, currentImageIndex := 4, 4;
      }
    }
  }

  /** Running out of attempts ends the game: with no attempts left a guess changes
      nothing, so the out-of-attempts state persists. */
  method ExhaustedGuessIsIgnored(g: Game)
    requires g.GameOver()
    modifies g
    ensures g.GameOver()
  {
    g.Guess();
  }
}
