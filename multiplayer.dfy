/** The local two-player game (src/JuegoMultijugador.jsx): up to three rounds, one per
    vehicle scheduled today; in each round the players take turns submitting brand,
    model and year together, and each field scores once for whoever guesses it first. */
module Multiplayer {
  import opened Base
  import opened Text
  import opened Catalog
  import opened Rules

  /** A player's name and score. */
  datatype Player = Player(name: string, score: int)

  /** `gameState`: which fields of the round's vehicle have been guessed. */
  datatype Flags = Flags(brand: bool, model: bool, year: bool)

  /** The judgement of one submission, field by field. */
  datatype Verdict = Verdict(brand: bool, model: bool, year: bool)

  /** One entry of `intentosFallidos`: the submitted values (no brand in the third
      round), who submitted them, their judgement and the vehicle's year. */
  datatype Attempt = Attempt(brand: Option<string>, model: string, year: string, player: int,
                             verdict: Verdict, truthYear: int)

  /** The round state a submission works on. */
  datatype Table = Table(round: int, players: seq<Player>, currentPlayer: int, flags: Flags,
                         attempts: seq<Attempt>, errorCount: int, maxImageIndex: int, currentImageIndex: int,
                         brandInput: string, modelInput: string, yearInput: string)

  /** Which text box an edit goes to. */
  datatype Field = BrandBox | ModelBox | YearBox

  /** The colour of an attempt's year: green when right, else the distance band. */
  datatype YearFeedback = Success | Miss(band: YearBand)

  /** `marcaCorrecta`, `modeloCorrecto` and `anoCorrecto` for one submission. */
  function Judge(v: Vehicle, brand: string, model: string, year: string): (j: Verdict)
    ensures j.brand <==> Lower(brand) == Lower(v.brand)
    ensures j.model <==> Lower(model) == Lower(v.model)
    ensures j.year <==> year == IntText(v.year)
  {
    Verdict(TextMatches(brand, v.brand), TextMatches(model, v.model), YearMatches(year, v.year))
  }

  /** `allCorrect`: judged on this submission alone. Round index 2 has no brand box, so
      it needs only model and year; the other rounds need all three. */
  predicate AllCorrect(round: int, j: Verdict)
    ensures AllCorrect(round, j) <==> RoundWon(round, Scored(Flags(false, false, false), j))
  {
    if round != 2 then j.brand && j.model && j.year else j.model && j.year
  }

  /** The points still to be won in a round with these flags. */
  function Unclaimed(f: Flags): (n: nat)
    ensures n <= 70
    ensures n == 0 <==> f == Flags(true, true, true)
  {
    (if f.brand then 0 else 10) + (if f.model then 0 else 30) + (if f.year then 0 else 30)
  }

  /** The flags after a submission has been scored: a right field is marked guessed. */
  function Scored(f: Flags, j: Verdict): (g: Flags)
    ensures (f.brand ==> g.brand) && (f.model ==> g.model) && (f.year ==> g.year)
    ensures (j.brand ==> g.brand) && (j.model ==> g.model) && (j.year ==> g.year)
    ensures !f.brand && !j.brand ==> !g.brand
    ensures !f.model && !j.model ==> !g.model
    ensures !f.year && !j.year ==> !g.year
  {
    Flags(f.brand || j.brand, f.model || j.model, f.year || j.year)
  }

  /** The points a submission earns: 10 for the brand, 30 for the model, 30 for the year,
      each only while its field is still unguessed. They are exactly the points the
      submission takes out of the unclaimed pool. */
  function Points(f: Flags, j: Verdict): (p: nat)
    ensures p <= 70
    ensures p == Unclaimed(f) - Unclaimed(Scored(f, j))
    ensures f == Flags(true, true, true) ==> p == 0
  {
    (if j.brand && !f.brand then 10 else 0)
    + (if j.model && !f.model then 30 else 0)
    + (if j.year && !f.year then 30 else 0)
  }

  /** The points a sequence of submissions earns within one round, the flags carried
      from each to the next. */
  function RoundPoints(f: Flags, js: seq<Verdict>): nat
    decreases |js|
  {
    if js == [] then 0 else Points(f, js[0]) + RoundPoints(Scored(f, js[0]), js[1..])
  }

  /** Each field scores at most once per round: however many submissions there are,
      together they earn no more than the points still unclaimed, and never more than 70. */
  lemma {:induction false} RoundPointsBounded(f: Flags, js: seq<Verdict>)
    ensures RoundPoints(f, js) <= Unclaimed(f) <= 70
    decreases |js|
  {
    if js != [] {
      RoundPointsBounded(Scored(f, js[0]), js[1..]);
    }
  }

  /** The highest score (`Math.max(...players.map(p => p.score))`). */
  function MaxScore(players: seq<Player>): (m: int)
    requires players != []
    ensures forall k :: 0 <= k < |players| ==> players[k].score <= m
    ensures exists k :: 0 <= k < |players| && players[k].score == m
  {
    if |players| == 1 then players[0].score
    else
      var rest := MaxScore(players[1..]);
      assert forall k :: 1 <= k < |players| ==> players[k] == players[1..][k - 1];
      if players[0].score >= rest then players[0].score else rest
  }

  /** The players marked as winners on the final screen: every player whose score
      equals the highest, so a tie marks several. */
  function Winners(players: seq<Player>): (w: set<int>)
    ensures forall i :: i in w <==> 0 <= i < |players| && forall k :: 0 <= k < |players| ==> players[k].score <= players[i].score
    ensures players != [] ==> w != {}
  {
    if players == [] then {}
    else
      var m := MaxScore(players);
      var w := set i | 0 <= i < |players| && players[i].score == m;
      assert forall k :: 0 <= k < |players| && players[k].score == m ==> k in w;
      w
  }

  /** `getAnoFallidoStyle` of the two-player screen; `guessYear` is the number the
      attempt's year text stands for. */
  function AttemptYearStyle(a: Attempt, guessYear: int): (s: YearFeedback)
    ensures s == Success <==> a.verdict.year
    ensures !a.verdict.year ==> (s == Miss(WarningLight) <==> Abs(guessYear - a.truthYear) <= 2)
    ensures !a.verdict.year ==> (s == Miss(Orange) <==> 3 <= Abs(guessYear - a.truthYear) <= 5)
    ensures !a.verdict.year ==> (s == Miss(OrangeDark) <==> 6 <= Abs(guessYear - a.truthYear) <= 9)
    ensures !a.verdict.year ==> (s == Miss(Danger) <==> Abs(guessYear - a.truthYear) >= 10)
  {
    if a.verdict.year then Success else Miss(YearStyle(guessYear, a.truthYear))
  }

  /** An empty box never matches a non-empty truth, and a year's text is never empty.
      So a submission is never all correct while a box the round asks for is empty:
      the brand outside the third round, the model, or the year. */
  lemma BlankFieldNeverAllCorrect(v: Vehicle, round: int, brand: string, model: string, year: string)
    ensures round != 2 && brand == "" && v.brand != [] ==> !AllCorrect(round, Judge(v, brand, model, year))
    ensures model == "" && v.model != [] ==> !AllCorrect(round, Judge(v, brand, model, year))
    ensures year == "" ==> !AllCorrect(round, Judge(v, brand, model, year))
  {
    assert |Lower(v.brand)| == |v.brand| && |Lower(v.model)| == |v.model|;
    assert IntText(v.year) != [];
  }

  /** The intended end of a round: every field the round asks for has been guessed,
      whoever guessed it and in whichever submission. */
  predicate RoundWon(round: int, f: Flags)
  {
    if round != 2 then f.brand && f.model && f.year else f.model && f.year
  }

  /** The flag rule accepts every submission the single-submission rule accepts, and
      also the round where the brand was guessed first and model and year later. */
  lemma RoundWonByFlags(v: Vehicle, round: int, f: Flags, j: Verdict, brand: string, model: string, year: string)
    ensures AllCorrect(round, j) ==> RoundWon(round, Scored(f, j))
    ensures var later := Judge(v, brand, model, year);
            && ((round != 2 ==> f.brand || later.brand) && (f.model || later.model) && (f.year || later.year)
                ==> RoundWon(round, Scored(f, later)))
            && (f.brand && later.model && later.year ==> RoundWon(round, Scored(f, later)))
  {
  }

  class Match {
    var vehicles: seq<Vehicle>
    var round: int
    var currentImageIndex: int
    var maxImageIndex: int
    var brandInput: string
    var modelInput: string
    var yearInput: string
    var attempts: seq<Attempt>
    var errorCount: int
    var players: seq<Player>
    var currentPlayer: int
    var flags: Flags
    var namesPending: bool
    var tempNames: seq<string>

    /** Two players and two name boxes, a turn that is one of them, non-negative scores,
        at most three rounds with the round index inside them (so the completion
        screen, shown when the index reaches the number of vehicles, never appears),
        an image index among the guessing images, and one failed-attempt record per
        error, each tagged with a player. */
    ghost predicate Valid()
      reads this
    {
      && |players| == 2 && |tempNames| == 2
      && 0 <= currentPlayer < 2
      && (forall k :: 0 <= k < |players| ==> players[k].score >= 0)
      && |vehicles| <= 3
      && 0 <= round && (round < |vehicles| || round == 0)
      && 0 <= maxImageIndex <= 3
      && errorCount == |attempts|
      && (forall i :: 0 <= i < |attempts| ==> 0 <= attempts[i].player < 2)
    }

    /** The screen once `fetchVehiculosDelDia` has loaded today's round vehicles. */
    constructor (catalogue: seq<Vehicle>, today: string)
      ensures Valid()
      ensures vehicles == RoundVehicles(catalogue, today)
      ensures round == 0 && currentPlayer == 0 && flags == Flags(false, false, false)
      ensures players == [Player("", 0), Player("", 0)] && namesPending && tempNames == ["", ""]
      ensures attempts == [] && errorCount == 0 && maxImageIndex == 0 && currentImageIndex == 0
      ensures brandInput == "" && modelInput == "" && yearInput == ""
    {
      vehicles := RoundVehicles(catalogue, today);
      round, currentImageIndex, maxImageIndex := 0, 0, 0;
      brandInput, modelInput, yearInput := "", "", "";
      attempts, errorCount := [], 0;
      players := [Player("", 0), Player("", 0)];
      currentPlayer := 0;
      flags := Flags(false, false, false);
      namesPending := true;
      tempNames := ["", ""];
    }

    /** `handlePlayerNameChange`. */
    method SetName(index: int, value: string)
      requires Valid() && 0 <= index < 2
      modifies this
      ensures Valid()
      ensures tempNames == old(tempNames)[index := value]
      ensures players == old(players) && namesPending == old(namesPending)
      ensures vehicles == old(vehicles) && round == old(round) && flags == old(flags)
      ensures currentPlayer == old(currentPlayer) && attempts == old(attempts) && errorCount == old(errorCount)
      ensures maxImageIndex == old(maxImageIndex) && currentImageIndex == old(currentImageIndex)
      ensures brandInput == old(brandInput) && modelInput == old(modelInput) && yearInput == old(yearInput)
    {
      tempNames := tempNames[index := value];
    }

    /** `handlePlayerNameSubmit`: accepted only when neither name is blank; then the
        players get the typed names (untrimmed) and zero scores. */
    method SubmitNames()
      requires Valid()
      modifies this
      ensures Valid()
      ensures !Blank(tempNames[0]) && !Blank(tempNames[1]) ==>
                players == [Player(tempNames[0], 0), Player(tempNames[1], 0)] && !namesPending
      ensures Blank(tempNames[0]) || Blank(tempNames[1]) ==>
                players == old(players) && namesPending == old(namesPending)
      ensures tempNames == old(tempNames)
      ensures vehicles == old(vehicles) && round == old(round) && flags == old(flags)
      ensures currentPlayer == old(currentPlayer) && attempts == old(attempts) && errorCount == old(errorCount)
      ensures maxImageIndex == old(maxImageIndex) && currentImageIndex == old(currentImageIndex)
      ensures brandInput == old(brandInput) && modelInput == old(modelInput) && yearInput == old(yearInput)
    {
      TrimEmptyIffBlank(tempNames[0]);
      TrimEmptyIffBlank(tempNames[1]);
      if Trim(tempNames[0]) != [] && Trim(tempNames[1]) != [] {
        players := [Player(tempNames[0], 0), Player(tempNames[1], 0)];
        namesPending := false;
      }
    }

    /** Typing into a box. A box whose field is already guessed is disabled, and the
        third round shows no brand box, so those edits are refused. */
    method Type(field: Field, value: string)
      modifies this
      ensures brandInput == (if field == BrandBox && !flags.brand && round != 2 then value else old(brandInput))
      ensures modelInput == (if field == ModelBox && !flags.model then value else old(modelInput))
      ensures yearInput == (if field == YearBox && !flags.year then value else old(yearInput))
      ensures vehicles == old(vehicles) && round == old(round) && flags == old(flags)
      ensures players == old(players) && currentPlayer == old(currentPlayer) && attempts == old(attempts)
      ensures errorCount == old(errorCount) && tempNames == old(tempNames) && namesPending == old(namesPending)
      ensures maxImageIndex == old(maxImageIndex) && currentImageIndex == old(currentImageIndex)
      ensures old(Stuck()) ==> Stuck()
    {
      match field
      case BrandBox =>
        if !flags.brand && round != 2 {
          brandInput := value;
        }
      case ModelBox =>
        if !flags.model {
          modelInput := value;
        }
      case YearBox =>
        if !flags.year {
          yearInput := value;
        }
    }

    function Current(): Table
      reads this
    {
      Table(round, players, currentPlayer, flags, attempts, errorCount, maxImageIndex, currentImageIndex,
            brandInput, modelInput, yearInput)
    }

    /** There is a vehicle for the current round. */
    predicate Playing()
      reads this
    {
      0 <= round < |vehicles|
    }

    /** The judgement of what is typed now, against the round's vehicle. */
    function Submission(): Verdict
      reads this
      requires Playing()
    {
      Judge(vehicles[round], brandInput, modelInput, yearInput)
    }

    /** A round that can no longer end: a field the round asks for is guessed, so its
        box is disabled, but the box was left empty while the truth is not — the brand
        outside the third round, the model, or the year (whose text is never empty). */
    predicate Stuck()
      reads this
    {
      Playing() &&
      (|| (round != 2 && flags.brand && brandInput == "" && vehicles[round].brand != [])
       || (flags.model && modelInput == "" && vehicles[round].model != [])
       || (flags.year && yearInput == ""))
    }

    /** `handleGuess`, with the 800 ms round transition applied at once: with no vehicle
        for the round nothing happens; otherwise the submission is played. */
    method Guess()
      requires Valid()
      modifies this
      ensures Valid()
      ensures vehicles == old(vehicles) && namesPending == old(namesPending) && tempNames == old(tempNames)
      ensures !old(Playing()) ==> unchanged(this)
      ensures old(Playing()) ==> Played(old(Submission()), old(Current()))
      ensures forall k :: 0 <= k < |players| ==> old(players)[k].score <= players[k].score
      ensures old(Stuck()) ==> Stuck() && round == old(round)
    {
      if 0 <= round < |vehicles| {
        BlankFieldNeverAllCorrect(vehicles[round], round, brandInput, modelInput, yearInput);
        Play(Judge(vehicles[round], brandInput, modelInput, yearInput));
      }
    }

    /** The outcome of playing submission `j` from the given state. The current player
        earns the points of the fields first guessed now. An all-correct submission
        keeps the turn and starts the next round, or on the last round marks every field
        guessed. Any other submission records an attempt, counts an error, unlocks one
        more image (at most the fourth) and passes the turn. Boxes of right fields are
        cleared, and the brand box always in the third round. */
    ghost predicate Played(j: Verdict, t: Table)
      reads this
      requires 0 <= t.round < |vehicles| && 0 <= t.currentPlayer < |t.players|
    {
      var p := t.currentPlayer;
      && players == t.players[p := t.players[p].(score := t.players[p].score + Points(t.flags, j))]
      && brandInput == (if j.brand || t.round == 2 then "" else t.brandInput)
      && modelInput == (if j.model then "" else t.modelInput)
      && yearInput == (if j.year then "" else t.yearInput)
      && (AllCorrect(t.round, j) ==>
            && currentPlayer == p
            && if t.round < |vehicles| - 1 then
                 && round == t.round + 1 && flags == Flags(false, false, false)
                 && attempts == [] && errorCount == 0 && maxImageIndex == 0 && currentImageIndex == 0
               else
                 && round == t.round && flags == Flags(true, true, true)
                 && attempts == t.attempts && errorCount == t.errorCount
                 && maxImageIndex == t.maxImageIndex && currentImageIndex == t.currentImageIndex)
      && (!AllCorrect(t.round, j) ==>
            && round == t.round && flags == Scored(t.flags, j)
            && attempts == t.attempts + [Attempt(if t.round != 2 then Some(t.brandInput) else None,
                                                 t.modelInput, t.yearInput, p, j, vehicles[t.round].year)]
            && errorCount == t.errorCount + 1
            && maxImageIndex == NextImage(t.maxImageIndex) && currentImageIndex == maxImageIndex
            && currentPlayer == (p + 1) % 2)
    }

    /** `handleGuess` once the round's vehicle exists, on the judgement `j` of what is
        typed. */
    method Play(j: Verdict)
      requires Valid() && Playing()
      modifies this
      ensures Valid()
      ensures vehicles == old(vehicles) && namesPending == old(namesPending) && tempNames == old(tempNames)
      ensures Played(j, old(Current()))
    {
      ghost var t := Current();
      var r := round;
      var allCorrect := AllCorrect(round, j);
      Award(Points(flags, j));
      ghost var scored := players;
      if allCorrect {
        EndRound();
      } else {
        Miss(j);
        assert flags == Scored(t.flags, j);
      }
      assert players == scored;
      if j.brand || r == 2 {
        brandInput := "";
      }
      if j.model {
        modelInput := "";
      }
      if j.year {
        yearInput := "";
      }
    }

    /** The scoring part of `handleGuess`: the current player's score grows by `points`. */
    method Award(points: nat)
      requires Valid()
      modifies this
      ensures Valid()
      ensures players == old(players)[old(currentPlayer) := old(players)[old(currentPlayer)].(score := old(players)[old(currentPlayer)].score + points)]
      ensures vehicles == old(vehicles) && round == old(round) && flags == old(flags)
      ensures currentPlayer == old(currentPlayer) && attempts == old(attempts) && errorCount == old(errorCount)
      ensures maxImageIndex == old(maxImageIndex) && currentImageIndex == old(currentImageIndex)
      ensures brandInput == old(brandInput) && modelInput == old(modelInput) && yearInput == old(yearInput)
      ensures namesPending == old(namesPending) && tempNames == old(tempNames)
    {
      players := players[currentPlayer := players[currentPlayer].(score := players[currentPlayer].score + points)];
    }

    /** The deferred part of an all-correct submission: the next round with fresh flags,
        attempts, errors and images, or on the last round every field marked guessed. */
    method EndRound()
      requires Valid() && Playing()
      modifies this
      ensures Valid()
      ensures if old(round) < |vehicles| - 1 then
                && round == old(round) + 1 && flags == Flags(false, false, false)
                && attempts == [] && errorCount == 0 && maxImageIndex == 0 && currentImageIndex == 0
              else
                && round == old(round) && flags == Flags(true, true, true)
                && attempts == old(attempts) && errorCount == old(errorCount)
                && maxImageIndex == old(maxImageIndex) && currentImageIndex == old(currentImageIndex)
      ensures vehicles == old(vehicles) && players == old(players) && currentPlayer == old(currentPlayer)
      ensures brandInput == old(brandInput) && modelInput == old(modelInput) && yearInput == old(yearInput)
      ensures namesPending == old(namesPending) && tempNames == old(tempNames)
    {
      if round < |vehicles| - 1 {
        flags := Flags(round == 2, false, false);
        round := round + 1;
        attempts, errorCount := [], 0;
        maxImageIndex, currentImageIndex := 0, 0;
      } else {
        flags := Flags(true, true, true);
      }
    }

    /** A submission that is not all correct: record it for the current player, count
        an error, unlock an image, keep the fields it got right and pass the turn. */
    method Miss(j: Verdict)
      requires Valid() && Playing()
      modifies this
      ensures Valid()
      ensures attempts == old(attempts + [Attempt(if round != 2 then Some(brandInput) else None,
                                                  modelInput, yearInput, currentPlayer,
                                                  j, vehicles[round].year)])
      ensures errorCount == old(errorCount) + 1
      ensures maxImageIndex == NextImage(old(maxImageIndex)) && currentImageIndex == maxImageIndex
      ensures currentPlayer == (old(currentPlayer) + 1) % 2 && flags == Scored(old(flags), j)
      ensures vehicles == old(vehicles) && round == old(round) && players == old(players)
      ensures brandInput == old(brandInput) && modelInput == old(modelInput) && yearInput == old(yearInput)
      ensures namesPending == old(namesPending) && tempNames == old(tempNames)
    {
      attempts := attempts + [Attempt(if round != 2 then Some(brandInput) else None,
                                      modelInput, yearInput, currentPlayer, j, vehicles[round].year)];
      errorCount := errorCount + 1;
      maxImageIndex := NextImage(maxImageIndex);
      currentImageIndex := maxImageIndex;
      currentPlayer := (currentPlayer + 1) % 2;
      flags := Scored(flags, j);
    }
  }
}
