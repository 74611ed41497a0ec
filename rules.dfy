/** The guess rules shared by the three game screens (src/Juego.jsx,
    src/JuegoPorIntentos.jsx, src/JuegoMultijugador.jsx): answer checking, the
    image-unlock step, the hint-letter arithmetic and the near-miss year colours. */
module Rules {
  import opened Base
  import opened Text

  /** Two characters that `toLowerCase` (on ASCII letters) makes equal: the same
      character, or an upper-case letter and its lower-case partner 32 code points on. */
  predicate CaseEquivalent(x: char, y: char)
  {
    || x == y
    || ('A' <= x <= 'Z' && y as int == x as int + 32)
    || ('A' <= y <= 'Z' && x as int == y as int + 32)
  }

  /** `validateInput`: lower-case equality, with no trimming and no accent folding. An
      answer is accepted exactly when it has the truth's length and differs from it at
      most in letter case, position by position. */
  predicate TextMatches(input: string, truth: string)
    ensures TextMatches(input, truth) <==>
              |input| == |truth| && forall i :: 0 <= i < |input| ==> CaseEquivalent(input[i], truth[i])
  {
    assert |input| == |truth| ==>
             (Lower(input) == Lower(truth) <==> forall i :: 0 <= i < |input| ==> Lower(input)[i] == Lower(truth)[i]);
    Lower(input) == Lower(truth)
  }

  /** The year check: `anoFabricacion.toString() === AnoFabricacion.toString()`. A
      matching answer is never empty, and for a year without a sign it is all digits. */
  predicate YearMatches(input: string, truth: int)
    ensures YearMatches(input, truth) ==> input != []
    ensures YearMatches(input, truth) && truth >= 0 ==> forall i :: 0 <= i < |input| ==> '0' <= input[i] <= '9'
  {
    input == IntText(truth)
  }

  /** The text of a year matches that year and no other. */
  lemma YearTextIdentifiesYear(guess: int, truth: int)
    ensures YearMatches(IntText(guess), truth) <==> guess == truth
  {
    IntTextInjective(guess, truth);
  }

  /** A trailing blank makes an otherwise exact answer wrong. */
  lemma NoTrimming(truth: string)
    ensures !TextMatches(truth + " ", truth)
  {
    assert |Lower(truth + " ")| != |Lower(truth)|;
  }

  /** An accent is not folded: "Citroen" does not match "Citroën". */
  lemma NoAccentFolding()
    ensures !TextMatches("Citroen", "Citroën")
  {
    assert Lower("Citroen")[5] == 'e';
    assert Lower("Citroën")[5] == 'ë';
  }

  /** The year text of a year without a sign is only digits, so an answer holding any
      other character is a wrong year. */
  lemma NonDigitYearNeverMatches(input: string, truth: int, k: int)
    requires truth >= 0
    requires 0 <= k < |input| && !('0' <= input[k] <= '9')
    ensures !YearMatches(input, truth)
  {
  }

  /** `intentosFallidos`: the wrong answers of each stage, oldest first. */
  datatype Attempts = Attempts(brand: seq<string>, model: seq<string>, year: seq<string>)
  {
    /** The number of wrong answers over all three stages. */
    function Total(): nat
    {
      |brand| + |model| + |year|
    }

    /** `nuevoIntento(field, value)`: append `value` to the list of stage `step`. */
    function Add(step: int, value: string): (r: Attempts)
      requires 1 <= step <= 3
      ensures r.Total() == Total() + 1
      ensures step == 1 ==> r.brand == brand + [value] && r.model == model && r.year == year
      ensures step == 2 ==> r.model == model + [value] && r.brand == brand && r.year == year
      ensures step == 3 ==> r.year == year + [value] && r.brand == brand && r.model == model
    {
      if step == 1 then this.(brand := brand + [value])
      else if step == 2 then this.(model := model + [value])
      else this.(year := year + [value])
    }
  }

  const NoAttempts := Attempts([], [], [])

  /** `Math.min(maxImageIndex + 1, 3)`: the next unlocked image after a failure. */
  function NextImage(maxImageIndex: int): (r: int)
    ensures r <= 3
    ensures maxImageIndex <= 3 ==> maxImageIndex <= r
    ensures maxImageIndex < 3 ==> r == maxImageIndex + 1
  {
    Min(maxImageIndex + 1, 3)
  }

  /** The number of letters the hint reveals after `errorCount` failures in the current
      stage: none below five, then one more for every three further failures. */
  function HintLevel(errorCount: int): (r: nat)
    ensures r == 0 <==> errorCount < 5
  {
    if errorCount >= 5 then (errorCount - 5) / 3 + 1 else 0
  }

  /** The guess handler's test `errorCount + 1 >= 5 && (errorCount + 1 - 5) % 3 === 0`,
      on the error count from before the guess. */
  predicate HintDue(errorCount: int)
  {
    errorCount + 1 >= 5 && (errorCount + 1 - 5) % 3 == 0
  }

  /** The per-guess bump and the hint level agree: the bump fires exactly when one more
      failure raises the level, and then by exactly one. */
  lemma HintDueRaisesLevel(errorCount: nat)
    ensures HintDue(errorCount) ==> HintLevel(errorCount + 1) == HintLevel(errorCount) + 1
    ensures !HintDue(errorCount) ==> HintLevel(errorCount + 1) == HintLevel(errorCount)
  {
    var e := errorCount + 1;
    if e >= 6 {
      var q, r := (e - 6) / 3, (e - 6) % 3;
      assert e - 6 == 3 * q + r;
      assert e - 5 == 3 * q + (r + 1);
      if r < 2 {
        assert (e - 5) / 3 == q;
        assert (e - 5) % 3 == r + 1;
      } else {
        assert e - 5 == 3 * (q + 1);
        assert (e - 5) / 3 == q + 1;
        assert (e - 5) % 3 == 0;
      }
    }
  }

  /** The hint modal's "failures until the next letter": `3 - ((errorCount - 5) % 3)`
      with JavaScript's remainder. */
  function HintRemaining(errorCount: int): (r: int)
    ensures errorCount >= 5 ==> 1 <= r <= 3
    ensures errorCount >= 5 ==> HintLevel(errorCount + r) == HintLevel(errorCount) + 1
    ensures errorCount >= 5 ==> forall n :: errorCount <= n < errorCount + r ==> HintLevel(n) == HintLevel(errorCount)
  {
    var r := 3 - JsRem(errorCount - 5, 3);
    assert errorCount >= 5 ==> HintLevel(errorCount + r) == HintLevel(errorCount) + 1 by {
      if errorCount >= 5 {
        var q, m := (errorCount - 5) / 3, (errorCount - 5) % 3;
        assert errorCount - 5 == 3 * q + m;
        assert errorCount + r - 5 == 3 * (q + 1);
      }
    }
    assert errorCount >= 5 ==> forall n :: errorCount <= n < errorCount + r ==> HintLevel(n) == HintLevel(errorCount) by {
      if errorCount >= 5 {
        var q, m := (errorCount - 5) / 3, (errorCount - 5) % 3;
        assert errorCount - 5 == 3 * q + m;
        forall n | errorCount <= n < errorCount + r ensures HintLevel(n) == HintLevel(errorCount) {
          assert n - 5 == 3 * q + (m + n - errorCount);
          assert 0 <= m + n - errorCount < 3;
        }
      }
    }
    r
  }

  /** Below five failures the modal cannot be opened, and the formula there gives 5, 4,
      3, 5, 4 for 0 to 4 failures: it lands in 1..3 only at two failures. */
  lemma HintRemainingBelowThreshold()
    ensures forall e :: 0 <= e < 5 ==> (1 <= HintRemaining(e) <= 3 <==> e == 2)
  {
    assert HintRemaining(0) == 5 && HintRemaining(1) == 4 && HintRemaining(2) == 3;
    assert HintRemaining(3) == 5 && HintRemaining(4) == 4;
  }

  /** `str.slice(0, n)` for a non-negative `n`, and the JavaScript reading of a negative
      end (counted from the end of the string). */
  function Slice(s: string, n: int): (r: string)
    ensures r <= s
    ensures n >= 0 ==> |r| == Min(n, |s|)
  {
    if n >= |s| then s
    else if n >= 0 then s[..n]
    else if |s| + n >= 0 then s[..|s| + n]
    else []
  }

  /** `getRevealedText`: the first `revealedLetters` letters of the brand at step 1 and
      of the model at step 2; nothing at the year stage. */
  function RevealedText(step: int, brand: string, model: string, revealedLetters: int): (r: string)
    ensures step == 1 ==> r <= brand
    ensures step == 2 ==> r <= model
    ensures step != 1 && step != 2 ==> r == []
    ensures (step == 1 || step == 2) && revealedLetters >= 0 ==> |r| <= revealedLetters
    ensures step == 1 && 0 <= revealedLetters <= |brand| ==> |r| == revealedLetters
    ensures step == 2 && 0 <= revealedLetters <= |model| ==> |r| == revealedLetters
  {
    if step == 1 then Slice(brand, revealedLetters)
    else if step == 2 then Slice(model, revealedLetters)
    else []
  }

  /** The colour of a failed year (`getAnoFallidoStyle`), by distance from the truth. */
  datatype YearBand = WarningLight | Orange | OrangeDark | Danger

  function BandOfDistance(d: nat): YearBand
  {
    if d <= 2 then WarningLight
    else if d <= 5 then Orange
    else if d <= 9 then OrangeDark
    else Danger
  }

  /** `getAnoFallidoStyle` in the single-player screens: `Math.abs(guess - truth)`. */
  function YearStyle(guess: int, truth: int): (r: YearBand)
    ensures r == WarningLight <==> -2 <= guess - truth <= 2
    ensures r == Orange <==> 3 <= Abs(guess - truth) <= 5
    ensures r == OrangeDark <==> 6 <= Abs(guess - truth) <= 9
    ensures r == Danger <==> Abs(guess - truth) >= 10
  {
    BandOfDistance(Abs(guess - truth))
  }

  function Severity(b: YearBand): nat
  {
    match b
    case WarningLight => 0
    case Orange => 1
    case OrangeDark => 2
    case Danger => 3
  }

  /** The colour is symmetric in guess and truth. */
  lemma YearStyleSymmetric(a: int, b: int)
    ensures YearStyle(a, b) == YearStyle(b, a)
  {
  }

  /** A farther guess is never coloured as closer. */
  lemma YearStyleMonotone(guess1: int, guess2: int, truth: int)
    requires Abs(guess1 - truth) <= Abs(guess2 - truth)
    ensures Severity(YearStyle(guess1, truth)) <= Severity(YearStyle(guess2, truth))
  {
  }
}
