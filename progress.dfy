/** The daily progress store (src/utils/gameProgress.js): one record per day under
    `gameProgress_<date>`, written to both the cookie store and the local store. */
module Progress {
  import opened Base
  import opened Rules
  import opened Catalog

  /** A stored progress record: the fields `saveGameProgress` writes. */
  datatype Record = Record(
    date: string,
    vehicleId: string,
    mode: string,
    step: int,
    isCompleted: bool,
    failed: Attempts,
    errorCount: int,
    maxImageIndex: int,
    revealedLetters: int,
    currentImageIndex: int,
    totalAttempts: int,
    totalAttemptsUsed: int)

  /** The `progressData` argument of `saveGameProgress`. `mode` and `totalAttemptsUsed`
      are `None` when the caller leaves the key out. */
  datatype Data = Data(
    mode: Option<string>,
    step: int,
    isCompleted: bool,
    failed: Attempts,
    errorCount: int,
    maxImageIndex: int,
    revealedLetters: int,
    currentImageIndex: int,
    totalAttempts: int,
    totalAttemptsUsed: Option<int>)

  /** The text under one key of a store: either the JSON of a progress record, or any
      other text (a date, the empty string, damaged JSON). */
  datatype Entry = Json(record: Record) | Text(text: string)

  /** The outcome of `JSON.parse` as far as the store uses it. */
  datatype Parsed = Parsed(record: Record) | Malformed

  /** `JSON.parse` inside the loader's `try`, as far as the loader uses it: only the JSON
      of a record yields one, and any other text yields no record. */
  function Parse(e: Entry): (p: Parsed)
    ensures p.Parsed? <==> e.Json?
    ensures p.Parsed? ==> p.record == e.record
  {
    match e
    case Json(r) => Parsed(r)
    case Text(_) => Malformed
  }

  const LastResetKey: string := "lastResetDate"
  const Prefix: string := "gameProgress_"

  /** The key of a day's record. */
  function Key(date: string): (k: string)
    ensures k != LastResetKey
    ensures |k| == |Prefix| + |date| && k[|Prefix|..] == date
  {
    var k := Prefix + date;
    assert k[0] != LastResetKey[0];
    k
  }

  /** Different days use different keys, so a save touches only its own day. */
  lemma KeyInjective(d1: string, d2: string)
    requires d1 != d2
    ensures Key(d1) != Key(d2)
  {
    assert Key(d1)[|Prefix|..] == d1;
  }

  /** `totalAttemptsUsed || errorCount || 0`, with a missing key read as falsy. */
  function AttemptsUsed(data: Data): int
  {
    if data.totalAttemptsUsed.Some? && data.totalAttemptsUsed.value != 0 then data.totalAttemptsUsed.value
    else Or(data.errorCount, 0)
  }

  /** The object `saveGameProgress` builds: `fecha`, `vehiculoId`, the caller's fields,
      and the defaults for `modo`, `step`, `errorCount` and `totalAttemptsUsed`. */
  function BuildRecord(vehicleId: string, data: Data, today: string): (r: Record)
    ensures r.date == today && r.vehicleId == vehicleId
    ensures r.mode == (if data.mode.Some? then data.mode.value else "normal")
    ensures data.step == 0 ==> r.step == 1
    ensures data.step != 0 ==> r.step == data.step
    ensures r.errorCount == data.errorCount
    ensures data.totalAttemptsUsed.Some? && data.totalAttemptsUsed.value != 0 ==> r.totalAttemptsUsed == data.totalAttemptsUsed.value
    ensures (data.totalAttemptsUsed.None? || data.totalAttemptsUsed == Some(0)) ==> r.totalAttemptsUsed == data.errorCount
    ensures r.isCompleted == data.isCompleted && r.failed == data.failed
    ensures r.maxImageIndex == data.maxImageIndex && r.currentImageIndex == data.currentImageIndex
    ensures r.revealedLetters == data.revealedLetters && r.totalAttempts == data.totalAttempts
  {
    Record(today, vehicleId,
           if data.mode.Some? then data.mode.value else "normal",
           Or(data.step, 1), data.isCompleted, data.failed, Or(data.errorCount, 0),
           data.maxImageIndex, data.revealedLetters, data.currentImageIndex,
           data.totalAttempts, AttemptsUsed(data))
  }

  /** A truthy value is stored under `key`: present and not the empty string. */
  predicate Holds(m: map<string, Entry>, key: string)
  {
    key in m && m[key] != Text("")
  }

  /** `localStorage.getItem(key) || Cookies.get(key)`, then the `!savedData` test. */
  function Lookup(cookies: map<string, Entry>, local: map<string, Entry>, key: string): (r: Option<Entry>)
    ensures r.Some? ==> (Holds(local, key) && r.value == local[key]) || (!Holds(local, key) && Holds(cookies, key) && r.value == cookies[key])
    ensures r.None? <==> !Holds(local, key) && !Holds(cookies, key)
  {
    if Holds(local, key) then Some(local[key])
    else if Holds(cookies, key) then Some(cookies[key])
    else None
  }

  /** The attempts left in hard mode for a record: `Math.max(0, 9 - (totalAttemptsUsed || 0))`. */
  function RemainingAttempts(r: Record): (n: int)
    ensures 0 <= n
    ensures r.totalAttemptsUsed >= 0 ==> n <= 9 && n == Max(0, 9 - r.totalAttemptsUsed)
  {
    Max(0, 9 - Or(r.totalAttemptsUsed, 0))
  }

  const Hard: string := "dificil"

  /** `loadGameProgress`: today's record for this vehicle, or nothing. With `modo ===
      'dificil'` the record is tagged with that mode and its remaining attempts. */
  function Load(cookies: map<string, Entry>, local: map<string, Entry>, vehicle: Option<Vehicle>,
                mode: Option<string>, today: string): (r: Option<Record>)
    ensures vehicle.None? ==> r.None?
    ensures Lookup(cookies, local, Key(today)).None? ==> r.None?
    ensures Lookup(cookies, local, Key(today)) == Some(Text("")) ==> r.None?
    ensures r.Some? ==> vehicle.Some? && r.value.vehicleId == vehicle.value.id && r.value.date == today
    ensures r.Some? ==> exists e :: Lookup(cookies, local, Key(today)) == Some(e) && Parse(e).Parsed?
    ensures r.Some? && mode == Some(Hard) ==> r.value.mode == Hard && 0 <= r.value.totalAttempts
    ensures r.Some? && mode == Some(Hard) && r.value.totalAttemptsUsed >= 0 ==> r.value.totalAttempts <= 9
  {
    if vehicle.None? then None
    else match Lookup(cookies, local, Key(today))
      case None => None
      case Some(e) =>
        match Parse(e)
        case Malformed => None
        case Parsed(rec) =>
          if rec.vehicleId != vehicle.value.id || rec.date != today then None
          else if mode == Some(Hard) then Some(rec.(mode := Hard, totalAttempts := RemainingAttempts(rec)))
          else Some(rec)
  }

  /** A record stored for another vehicle or another day is not loaded. */
  lemma StaleRecordIgnored(cookies: map<string, Entry>, local: map<string, Entry>, v: Vehicle,
                           mode: Option<string>, today: string, rec: Record)
    requires Lookup(cookies, local, Key(today)) == Some(Json(rec))
    requires rec.vehicleId != v.id || rec.date != today
    ensures Load(cookies, local, Some(v), mode, today).None?
  {
  }

  /** The local store wins: the cookie is read only when the local entry is missing or empty. */
  lemma LocalStoreFirst(cookies: map<string, Entry>, local: map<string, Entry>, v: Vehicle,
                        mode: Option<string>, today: string)
    requires Holds(local, Key(today))
    ensures Load(cookies, local, Some(v), mode, today) == Load(map[], local, Some(v), mode, today)
  {
  }

  /** Round trip: what a save writes is what the next load on the same day returns. */
  lemma SaveThenLoad(cookies: map<string, Entry>, local: map<string, Entry>, v: Vehicle,
                     data: Data, mode: Option<string>, today: string)
    ensures var rec := BuildRecord(v.id, data, today);
            var k := Key(today);
            Load(cookies[k := Json(rec)], local[k := Json(rec)], Some(v), mode, today)
              == if mode == Some(Hard) then Some(rec.(mode := Hard, totalAttempts := RemainingAttempts(rec)))
                 else Some(rec)
  {
  }

  /** A save replaces the day's record: a second save wins outright, even with a
      smaller attempt count. */
  lemma SaveOverwrites(cookies: map<string, Entry>, local: map<string, Entry>, v: Vehicle,
                       first: Data, second: Data, today: string)
    ensures var k := Key(today);
            var r1 := Json(BuildRecord(v.id, first, today));
            var r2 := Json(BuildRecord(v.id, second, today));
            Load(cookies[k := r1][k := r2], local[k := r1][k := r2], Some(v), None, today)
              == Some(BuildRecord(v.id, second, today))
  {
    var k := Key(today);
    var r1 := Json(BuildRecord(v.id, first, today));
    var r2 := Json(BuildRecord(v.id, second, today));
    assert local[k := r1][k := r2] == local[k := r2];
  }

  /** The value `checkAndResetDailyProgress` compares with today: the cookie when it is
      truthy, otherwise the local entry (which may be missing). */
  function LastReset(cookies: map<string, Entry>, local: map<string, Entry>): (r: Option<Entry>)
    ensures Holds(cookies, LastResetKey) ==> r == Some(cookies[LastResetKey])
    ensures !Holds(cookies, LastResetKey) ==> r == if LastResetKey in local then Some(local[LastResetKey]) else None
    ensures r.None? <==> !Holds(cookies, LastResetKey) && LastResetKey !in local
  {
    if Holds(cookies, LastResetKey) then Some(cookies[LastResetKey])
    else if LastResetKey in local then Some(local[LastResetKey])
    else None
  }

  /** `lastResetDate !== hoy`. */
  predicate NewDay(cookies: map<string, Entry>, local: map<string, Entry>, today: string)
    ensures !Holds(cookies, LastResetKey) && LastResetKey !in local ==> NewDay(cookies, local, today)
    ensures Holds(cookies, LastResetKey) ==> (NewDay(cookies, local, today) <==> cookies[LastResetKey] != Text(today))
  {
    LastReset(cookies, local) != Some(Text(today))
  }

  /** Once today's date is written to both stores, the same day is no longer new, so
      the daily reset runs at most once a day. */
  lemma ResetEndsNewDay(cookies: map<string, Entry>, local: map<string, Entry>, today: string)
    ensures !NewDay(cookies[LastResetKey := Text(today)], local[LastResetKey := Text(today)], today)
  {
  }

  /** The two stores, each a map from key to stored text. */
  class Stores {
    var cookies: map<string, Entry>
    var local: map<string, Entry>

    constructor (cookies: map<string, Entry>, local: map<string, Entry>)
      ensures this.cookies == cookies && this.local == local
    {
      this.cookies := cookies;
      this.local := local;
    }

    /** `saveGameProgress`: with no vehicle nothing is written; otherwise the same record
        replaces today's key in both stores and no other key changes. */
    method Save(vehicle: Option<Vehicle>, data: Data, today: string)
      modifies this
      ensures vehicle.None? ==> cookies == old(cookies) && local == old(local)
      ensures vehicle.Some? ==>
                var e := Json(BuildRecord(vehicle.value.id, data, today));
                cookies == old(cookies)[Key(today) := e] && local == old(local)[Key(today) := e]
    {
      if vehicle.None? {
        return;
      }
      var progress := BuildRecord(vehicle.value.id, data, today);
      cookies := cookies[Key(today) := Json(progress)];
      local := local[Key(today) := Json(progress)];
    }

    /** `resetDailyProgress`: drop yesterday's and today's records from both stores. */
    method ResetDaily(today: string, yesterday: string)
      modifies this
      ensures cookies == old(cookies) - {Key(yesterday), Key(today)}
      ensures local == old(local) - {Key(yesterday), Key(today)}
    {
      cookies := cookies - {Key(yesterday)};
      local := local - {Key(yesterday)};
      cookies := cookies - {Key(today)};
      local := local - {Key(today)};
    }

    /** `checkAndResetDailyProgress`: on a new day, reset and stamp today's date in both
        stores; otherwise change nothing. Afterwards it is never a new day, so a second
        call on the same day changes nothing. */
    method CheckAndResetDaily(today: string, yesterday: string)
      modifies this
      ensures NewDay(old(cookies), old(local), today) ==>
                cookies == (old(cookies) - {Key(yesterday), Key(today)})[LastResetKey := Text(today)]
                && local == (old(local) - {Key(yesterday), Key(today)})[LastResetKey := Text(today)]
      ensures !NewDay(old(cookies), old(local), today) ==> cookies == old(cookies) && local == old(local)
      ensures !NewDay(cookies, local, today)
    {
      if LastReset(cookies, local) != Some(Text(today)) {
        ResetDaily(today, yesterday);
        cookies := cookies[LastResetKey := Text(today)];
        local := local[LastResetKey := Text(today)];
      }
    }

    /** `resetGameProgress`: drop today's record only. */
    method ResetGame(today: string)
      modifies this
      ensures cookies == old(cookies) - {Key(today)}
      ensures local == old(local) - {Key(today)}
    {
      cookies := cookies - {Key(today)};
      local := local - {Key(today)};
    }
  }

  /** After the daily reset today's record is gone, so today's load finds nothing until
      the next save. */
  lemma LoadAfterDailyReset(cookies: map<string, Entry>, local: map<string, Entry>, v: Option<Vehicle>,
                            mode: Option<string>, today: string, yesterday: string)
    ensures var c := (cookies - {Key(yesterday), Key(today)})[LastResetKey := Text(today)];
            var l := (local - {Key(yesterday), Key(today)})[LastResetKey := Text(today)];
            Load(c, l, v, mode, today).None?
  {
  }
}
