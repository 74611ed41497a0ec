/** The normal daily game (src/Juego.jsx): three stages, brand, model and year, with
    unlimited guesses, an image unlocked per failure and hint letters after five
    failures in a stage. Progress lives in its own `progress` cookie. */
module NormalMode {
  import opened Base
  import opened Catalog
  import opened Rules

  /** Which text box an edit goes to. */
  datatype Field = BrandBox | ModelBox | YearBox

  /** The object `saveProgressToCookie` writes. */
  datatype Snapshot = Snapshot(
    date: string,
    vehicleId: string,
    step: int,
    isCompleted: bool,
    failed: Attempts,
    errorCount: int,
    maxImageIndex: int,
    revealedLetters: int,
    currentImageIndex: Option<int>)

  /** The text of the `progress` cookie: a saved snapshot; the empty text (falsy, so
      skipped); text that `JSON.parse` rejects, or `null`, on which the loader throws;
      or the JSON of another value, which carries no snapshot of today. */
  datatype Cookie = Saved(snapshot: Snapshot) | Empty | Unparsable(text: string) | Foreign(text: string)

  class Game {
    var vehicle: Option<Vehicle>
    var step: int
    var isCompleted: bool
    var failed: Attempts
    var errorCount: int
    var maxImageIndex: int
    var currentImageIndex: int
    var revealedLetters: int
    var brandInput: string
    var modelInput: string
    var yearInput: string

    /** The state a guess keeps: a known stage, an image index within the guessing
        images, and — until the puzzle is solved — as many hint letters as the stage's
        failures have earned. */
    ghost predicate Valid()
      reads this
    {
      && 1 <= step <= 3
      && 0 <= errorCount
      && 0 <= maxImageIndex <= 3
      && (!isCompleted ==> revealedLetters == HintLevel(errorCount))
    }

    /** A fresh screen once `fetchVehiculoDelDia` has found (or not found) today's car. */
    constructor (vehicle: Option<Vehicle>)
      ensures Valid()
      ensures this.vehicle == vehicle && step == 1 && !isCompleted && failed == NoAttempts
      ensures errorCount == 0 && maxImageIndex == 0 && currentImageIndex == 0 && revealedLetters == 0
      ensures brandInput == "" && modelInput == "" && yearInput == ""
    {
      this.vehicle := vehicle;
      step, isCompleted, failed := 1, false, NoAttempts;
      errorCount, maxImageIndex, currentImageIndex, revealedLetters := 0, 0, 0, 0;
      brandInput, modelInput, yearInput := "", "", "";
    }

    /** `handleInputChange`. */
    method Type(field: Field, value: string)
      modifies this
      ensures brandInput == (if field == BrandBox then value else old(brandInput))
      ensures modelInput == (if field == ModelBox then value else old(modelInput))
      ensures yearInput == (if field == YearBox then value else old(yearInput))
      ensures vehicle == old(vehicle) && step == old(step) && isCompleted == old(isCompleted)
      ensures failed == old(failed) && errorCount == old(errorCount) && revealedLetters == old(revealedLetters)
      ensures maxImageIndex == old(maxImageIndex) && currentImageIndex == old(currentImageIndex)
    {
      match field
      case BrandBox => brandInput := value;
      case ModelBox => modelInput := value;
      case YearBox => yearInput := value;
    }

    /** The answer typed for the current stage. */
    function Answer(): string
      reads this
    {
      if step == 1 then brandInput else if step == 2 then modelInput else yearInput
    }

    /** The current stage's answer is right. */
    predicate Correct()
      reads this
      requires vehicle.Some?
    {
      || (step == 1 && TextMatches(brandInput, vehicle.value.brand))
      || (step == 2 && TextMatches(modelInput, vehicle.value.model))
      || (step == 3 && YearMatches(yearInput, vehicle.value.year))
    }

    /** `handleGuess`, with its 800 ms stage transition applied at once. A right brand or
        model moves to the next stage and resets the stage's failures and hint letters; a
        wrong answer is appended to the stage's list, counts one failure and unlocks one
        more image (at most the fourth); a right year solves the puzzle. Every guess
        then adds a hint letter when the failure count before it was 4, 7, 10, ...
        (a right brand or model's transition resets it to zero afterwards). */
    method Guess()
      modifies this
      ensures vehicle == old(vehicle)
      ensures old(vehicle).None? ==> unchanged(this)
      ensures old(vehicle).Some? ==>
                var bump := if HintDue(old(errorCount)) then 1 else 0;
                && (old(step) in {1, 2} && old(Correct()) ==>
                      && step == old(step) + 1 && errorCount == 0 && revealedLetters == 0
                      && failed == old(failed) && isCompleted == old(isCompleted)
                      && maxImageIndex == old(maxImageIndex) && currentImageIndex == old(currentImageIndex))
                && (1 <= old(step) <= 3 && !old(Correct()) ==>
                      && failed == old(failed).Add(old(step), old(Answer()))
                      && errorCount == old(errorCount) + 1
                      && maxImageIndex == NextImage(old(maxImageIndex)) && currentImageIndex == maxImageIndex
                      && revealedLetters == old(revealedLetters) + bump
                      && step == old(step) && isCompleted == old(isCompleted))
                && (old(step) == 3 && old(Correct()) ==>
                      && isCompleted && revealedLetters == old(revealedLetters) + bump
                      && step == 3 && failed == old(failed) && errorCount == old(errorCount)
                      && maxImageIndex == old(maxImageIndex) && currentImageIndex == old(currentImageIndex))
                && (!(1 <= old(step) <= 3) ==>
                      && revealedLetters == old(revealedLetters) + bump
                      && step == old(step) && isCompleted == old(isCompleted) && failed == old(failed)
                      && errorCount == old(errorCount)
                      && maxImageIndex == old(maxImageIndex) && currentImageIndex == old(currentImageIndex))
                && brandInput == (if old(step) == 1 then "" else old(brandInput))
                && modelInput == (if old(step) == 2 then "" else old(modelInput))
                && yearInput == (if old(step) == 3 && !old(Correct()) then "" else old(yearInput))
      ensures old(Valid()) ==> Valid()
      ensures old(maxImageIndex) <= 3 ==> old(maxImageIndex) <= maxImageIndex <= 3
    {
      if vehicle.None? {
        return;
      }
      var v := vehicle.value;
      var before := errorCount;
      // the transition's reset of `revealedLetters` lands after the hint increment
      var advanced := false;
      if step == 1 && TextMatches(brandInput, v.brand) {
        step, brandInput, errorCount, revealedLetters := 2, "", 0, 0;
        advanced := true;
      } else if step == 1 {
        Fail(brandInput);
        brandInput := "";
      } else if step == 2 && TextMatches(modelInput, v.model) {
        step, modelInput, errorCount, revealedLetters := 3, "", 0, 0;
        advanced := true;
      } else if step == 2 {
        Fail(modelInput);
        modelInput := "";
      } else if step == 3 && YearMatches(yearInput, v.year) {
        isCompleted := true;
      } else if step == 3 {
        Fail(yearInput);
        yearInput := "";
      }
      if HintDue(before) && !advanced {
        revealedLetters := revealedLetters + 1;
      }
      if old(Valid()) {
        HintDueRaisesLevel(before);
      }
    }

    /** `nuevoIntento`: record a wrong answer for the current stage. */
    method Fail(value: string)
      requires 1 <= step <= 3
      modifies this
      ensures failed == old(failed).Add(old(step), value)
      ensures errorCount == old(errorCount) + 1
      ensures maxImageIndex == NextImage(old(maxImageIndex)) && currentImageIndex == maxImageIndex
      ensures vehicle == old(vehicle) && step == old(step) && isCompleted == old(isCompleted)
      ensures revealedLetters == old(revealedLetters)
      ensures brandInput == old(brandInput) && modelInput == old(modelInput) && yearInput == old(yearInput)
    {
      failed := failed.Add(step, value);
      errorCount := errorCount + 1;
      maxImageIndex := NextImage(maxImageIndex);
      currentImageIndex := maxImageIndex;
    }

    /** `handleShowHintModal`: from five failures on, show as many letters as the
        failures have earned; below five nothing happens. */
    method ShowHint()
      modifies this
      ensures old(errorCount) >= 5 ==> revealedLetters == HintLevel(old(errorCount)) && revealedLetters >= 1
      ensures old(errorCount) < 5 ==> revealedLetters == old(revealedLetters)
      ensures vehicle == old(vehicle) && step == old(step) && isCompleted == old(isCompleted)
      ensures failed == old(failed) && errorCount == old(errorCount)
      ensures maxImageIndex == old(maxImageIndex) && currentImageIndex == old(currentImageIndex)
      ensures brandInput == old(brandInput) && modelInput == old(modelInput) && yearInput == old(yearInput)
      ensures old(Valid()) ==> Valid()
    {
      if errorCount >= 5 {
        revealedLetters := (errorCount - 5) / 3 + 1;
      }
    }

    /** `getRevealedText`. */
    function HintText(): (r: string)
      reads this
      requires vehicle.Some?
      ensures step == 1 ==> r <= vehicle.value.brand
      ensures step == 2 ==> r <= vehicle.value.model
      ensures step == 3 ==> r == []
    {
      RevealedText(step, vehicle.value.brand, vehicle.value.model, revealedLetters)
    }

    /** The hint modal's `attemptsRemaining`. */
    function HintAttemptsRemaining(): (r: int)
      reads this
      ensures errorCount >= 5 ==> 1 <= r <= 3
    {
      HintRemaining(errorCount)
    }

    /** `saveProgressToCookie`: the snapshot to write, or none without a vehicle. */
    function CookieToSave(today: string): (c: Option<Cookie>)
      reads this
      ensures vehicle.None? <==> c.None?
      ensures c.Some? ==> c.value.Saved? && c.value.snapshot.date == today
                          && c.value.snapshot.vehicleId == vehicle.value.id
                          && c.value.snapshot.currentImageIndex == Some(currentImageIndex)
    {
      if vehicle.None? then None
      else Some(Saved(Snapshot(today, vehicle.value.id, step, isCompleted, failed, errorCount,
                               maxImageIndex, revealedLetters, Some(currentImageIndex))))
    }

    /** `loadProgressFromCookie`: apply the stored snapshot only when it was written
        today for this vehicle. Loading what was just saved changes nothing. The parse is
        not guarded: on unparsable text (or `null`) the loader throws, reported as
        `threw`, and no state is set. */
    method LoadFromCookie(cookie: Option<Cookie>, today: string) returns (threw: bool)
      modifies this
      ensures threw <==> old(vehicle).Some? && cookie.Some? && cookie.value.Unparsable?
      ensures vehicle == old(vehicle)
      ensures brandInput == old(brandInput) && modelInput == old(modelInput) && yearInput == old(yearInput)
      ensures (old(vehicle).None? || cookie.None? || !cookie.value.Saved?) ==> unchanged(this)
      ensures old(vehicle).Some? && cookie.Some? && cookie.value.Saved? ==>
                var s := cookie.value.snapshot;
                if s.date != today || s.vehicleId != old(vehicle).value.id then unchanged(this)
                else
                  && step == s.step && isCompleted == s.isCompleted && failed == s.failed
                  && errorCount == s.errorCount && maxImageIndex == s.maxImageIndex
                  && revealedLetters == s.revealedLetters
                  && currentImageIndex == (if s.currentImageIndex.Some? then s.currentImageIndex.value else old(currentImageIndex))
      ensures cookie == old(CookieToSave(today)) ==> unchanged(this)
    {
      threw := false;
      if vehicle.None? || cookie.None? {
        return;
      }
      match cookie.value
      case Empty =>
        return;
      case Unparsable(_) =>
        threw := true;
        return;
      case Foreign(_) =>
        // its `fecha` is not today, so nothing is loaded
        return;
      case Saved(s) =>
        if s.date != today || s.vehicleId != vehicle.value.id {
          return;
        }
        step, isCompleted, failed := s.step, s.isCompleted, s.failed;
        errorCount, maxImageIndex, revealedLetters := s.errorCount, s.maxImageIndex, s.revealedLetters;
        if s.currentImageIndex.Some? {
          currentImageIndex := s.currentImageIndex.value;
        }
    }
  }
}
