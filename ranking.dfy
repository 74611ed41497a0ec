/** The rankings (src/services/firebase.js, src/Ranking.jsx): the monthly and weekly
    tables group the period's plays by user, summing time and failures and counting
    distinct days, then sort; the daily table sorts the day's results. The Firestore
    queries that fetch the plays are not part of this model: the plays are given. */
module Ranking {

  /** One stored play (a `ranking` document): who played, under which nickname, how
      long it took, how many failures and on which day. */
  datatype Play = Play(userId: string, nickname: string, time: int, failures: int, date: string)

  /** One row of a monthly or weekly table. */
  datatype Standing = Standing(nickname: string, totalTime: int, totalFailures: int, daysPlayed: nat)

  /** One row of the daily table, as read from the store. */
  datatype DailyResult = DailyResult(nickname: string, totalTime: int, totalFailures: int)

  /** The per-user accumulator of the grouping `reduce`. */
  datatype Tally = Tally(nickname: string, totalTime: int, totalFailures: int, days: set<string>)

  /** A sort key, compared lexicographically. */
  datatype Key = Key(first: int, second: int, third: int)

  predicate KeyLe(x: Key, y: Key)
  {
    || x.first < y.first
    || (x.first == y.first && x.second < y.second)
    || (x.first == y.first && x.second == y.second && x.third <= y.third)
  }

  /** The order is total and transitive, so sorting by it is well defined. */
  lemma KeyLeTotalOrder(x: Key, y: Key, z: Key)
    ensures KeyLe(x, y) || KeyLe(y, x)
    ensures KeyLe(x, y) && KeyLe(y, z) ==> KeyLe(x, z)
    ensures KeyLe(x, y) && KeyLe(y, x) ==> x == y
  {
  }

  predicate SortedBy<T>(s: seq<T>, key: T -> Key)
  {
    forall i, j :: 0 <= i < j < |s| ==> KeyLe(key(s[i]), key(s[j]))
  }

  /** The table comparator (src/services/firebase.js:76-84): more days first, then less
      time, then fewer failures. */
  function StandingKey(s: Standing): Key
  {
    Key(-(s.daysPlayed as int), s.totalTime, s.totalFailures)
  }

  /** The daily comparator (src/Ranking.jsx:18-23): less time first, then fewer failures. */
  function DailyKey(r: DailyResult): Key
  {
    Key(r.totalTime, r.totalFailures, 0)
  }

  /** The comparator handed to `sort` for the monthly and weekly tables, as written:
      negative when `a` goes first. */
  function StandingCompare(a: Standing, b: Standing): int
  {
    if a.daysPlayed == b.daysPlayed then
      if a.totalTime == b.totalTime then a.totalFailures - b.totalFailures
      else a.totalTime - b.totalTime
    else b.daysPlayed as int - a.daysPlayed as int
  }

  /** The comparator handed to `sort` for the daily table, as written. */
  function DailyCompare(a: DailyResult, b: DailyResult): int
  {
    if a.totalTime == b.totalTime then a.totalFailures - b.totalFailures
    else a.totalTime - b.totalTime
  }

  /** Ordering the table by `StandingKey` is ordering it by the source's comparator:
      `a` may precede `b` exactly when the comparator does not put `b` first, and the
      keys tie exactly when the comparator answers 0. */
  lemma StandingKeyMatchesComparator(a: Standing, b: Standing)
    ensures KeyLe(StandingKey(a), StandingKey(b)) <==> StandingCompare(a, b) <= 0
    ensures StandingKey(a) == StandingKey(b) <==> StandingCompare(a, b) == 0
  {
  }

  /** The same for the daily table and `DailyKey`. */
  lemma DailyKeyMatchesComparator(a: DailyResult, b: DailyResult)
    ensures KeyLe(DailyKey(a), DailyKey(b)) <==> DailyCompare(a, b) <= 0
    ensures DailyKey(a) == DailyKey(b) <==> DailyCompare(a, b) == 0
  {
  }

  /** The users of a list of plays, in order of first appearance. */
  function Users(ps: seq<Play>): (us: seq<string>)
    decreases |ps|
  {
    if ps == [] then []
    else
      var prev := Users(ps[..|ps| - 1]);
      if ps[|ps| - 1].userId in prev then prev else prev + [ps[|ps| - 1].userId]
  }

  /** The sum of a user's times. */
  function TotalTime(ps: seq<Play>, u: string): int
    decreases |ps|
  {
    if ps == [] then 0
    else TotalTime(ps[..|ps| - 1], u) + (if ps[|ps| - 1].userId == u then ps[|ps| - 1].time else 0)
  }

  /** The sum of a user's failures. */
  function TotalFailures(ps: seq<Play>, u: string): int
    decreases |ps|
  {
    if ps == [] then 0
    else TotalFailures(ps[..|ps| - 1], u) + (if ps[|ps| - 1].userId == u then ps[|ps| - 1].failures else 0)
  }

  /** The days a user played. */
  function Days(ps: seq<Play>, u: string): set<string>
    decreases |ps|
  {
    if ps == [] then {}
    else Days(ps[..|ps| - 1], u) + (if ps[|ps| - 1].userId == u then {ps[|ps| - 1].date} else {})
  }

  /** The nickname of a user's first play. */
  function FirstNickname(ps: seq<Play>, u: string): string
    decreases |ps|
  {
    if ps == [] then ""
    else if u in Users(ps[..|ps| - 1]) then FirstNickname(ps[..|ps| - 1], u)
    else if ps[|ps| - 1].userId == u then ps[|ps| - 1].nickname
    else ""
  }

  /** A user's row before sorting. */
  function StandingOf(ps: seq<Play>, u: string): Standing
  {
    Standing(FirstNickname(ps, u), TotalTime(ps, u), TotalFailures(ps, u), |Days(ps, u)|)
  }

  /** The unsorted table: one row per user, in order of first appearance. */
  function Standings(ps: seq<Play>): (r: seq<Standing>)
    ensures |r| == |Users(ps)|
  {
    seq(|Users(ps)|, k requires 0 <= k < |Users(ps)| => StandingOf(ps, Users(ps)[k]))
  }

  /** The grouping lists every user who played, and nobody else. */
  lemma {:induction false} UsersComplete(ps: seq<Play>, u: string)
    ensures u in Users(ps) <==> exists i :: 0 <= i < |ps| && ps[i].userId == u
    decreases |ps|
  {
    if ps != [] {
      var prev := ps[..|ps| - 1];
      UsersComplete(prev, u);
      if u in Users(prev) {
        var i :| 0 <= i < |prev| && prev[i].userId == u;
        assert ps[i].userId == u;
      } else if exists i :: 0 <= i < |ps| && ps[i].userId == u {
        var i :| 0 <= i < |ps| && ps[i].userId == u;
        if i < |prev| {
          assert prev[i].userId == u;
        }
      }
    }
  }

  /** The grouping lists each user once. */
  lemma {:induction false} UsersDistinct(ps: seq<Play>)
    ensures forall i, j :: 0 <= i < j < |Users(ps)| ==> Users(ps)[i] != Users(ps)[j]
    decreases |ps|
  {
    if ps != [] {
      UsersDistinct(ps[..|ps| - 1]);
    }
  }

  /** A user who never played has nothing accumulated. */
  lemma {:induction false} AbsentUserIsEmpty(ps: seq<Play>, u: string)
    requires u !in Users(ps)
    ensures TotalTime(ps, u) == 0 && TotalFailures(ps, u) == 0 && Days(ps, u) == {}
    ensures FirstNickname(ps, u) == ""
    decreases |ps|
  {
    if ps != [] {
      var prev := ps[..|ps| - 1];
      assert u !in Users(prev);
      AbsentUserIsEmpty(prev, u);
    }
  }

  /** `diasJugados` counts distinct dates: the days are exactly the dates of the user's
      plays. */
  lemma {:induction false} DaysAreDatesPlayed(ps: seq<Play>, u: string, d: string)
    ensures d in Days(ps, u) <==> exists i :: 0 <= i < |ps| && ps[i].userId == u && ps[i].date == d
    decreases |ps|
  {
    if ps != [] {
      var prev := ps[..|ps| - 1];
      DaysAreDatesPlayed(prev, u, d);
      if d in Days(prev, u) {
        var i :| 0 <= i < |prev| && prev[i].userId == u && prev[i].date == d;
        assert ps[i] == prev[i];
      } else if exists i :: 0 <= i < |ps| && ps[i].userId == u && ps[i].date == d {
        var i :| 0 <= i < |ps| && ps[i].userId == u && ps[i].date == d;
        if i < |prev| {
          assert prev[i] == ps[i];
        }
      }
    }
  }

  /** The nickname shown is that of the user's first play. */
  lemma {:induction false} NicknameOfFirstPlay(ps: seq<Play>, u: string, i: int)
    requires 0 <= i < |ps| && ps[i].userId == u
    requires forall j :: 0 <= j < i ==> ps[j].userId != u
    ensures FirstNickname(ps, u) == ps[i].nickname
    decreases |ps|
  {
    var prev := ps[..|ps| - 1];
    if i < |prev| {
      assert u in Users(prev) by {
        assert prev[i].userId == u;
        UsersComplete(prev, u);
      }
      NicknameOfFirstPlay(prev, u, i);
    } else {
      assert u !in Users(prev) by {
        UsersComplete(prev, u);
        assert forall j :: 0 <= j < |prev| ==> prev[j].userId != u;
      }
    }
  }

  /** The totals do not depend on how the plays are split: the totals of two lists
      together are the sums of their totals, and the days their union. */
  lemma {:induction false} TotalsAdd(a: seq<Play>, b: seq<Play>, u: string)
    ensures TotalTime(a + b, u) == TotalTime(a, u) + TotalTime(b, u)
    ensures TotalFailures(a + b, u) == TotalFailures(a, u) + TotalFailures(b, u)
    ensures Days(a + b, u) == Days(a, u) + Days(b, u)
    decreases |b|
  {
    if b == [] {
      assert a + b == a;
    } else {
      var b' := b[..|b| - 1];
      assert (a + b)[..|a + b| - 1] == a + b';
      TotalsAdd(a, b', u);
    }
  }

  /** A user's accumulator after a list of plays. */
  function TallyOf(ps: seq<Play>, u: string): Tally
  {
    Tally(FirstNickname(ps, u), TotalTime(ps, u), TotalFailures(ps, u), Days(ps, u))
  }

  /** One more play changes only its own user's accumulator: it adds its time, its
      failures and its date, and a first play also sets the nickname. */
  lemma OnePlayMore(ps: seq<Play>, i: int, u: string)
    requires 0 <= i < |ps|
    ensures var before := TallyOf(ps[..i], u);
            var p := ps[i];
            TallyOf(ps[..i + 1], u) ==
              if u != p.userId then before
              else Tally(if u in Users(ps[..i]) then before.nickname else p.nickname,
                         before.totalTime + p.time, before.totalFailures + p.failures, before.days + {p.date})
  {
    assert ps[..i + 1][..i] == ps[..i];
  }

  /** The grouping `reduce` of `obtenerRankingMensual` and `obtenerRankingSemanal`
      (src/services/firebase.js:54-67): one accumulator per user, created at the user's
      first play with that play's nickname, then summed; `order` is the order in which
      the accumulators were created. */
  method Group(ps: seq<Play>) returns (acc: map<string, Tally>, order: seq<string>)
    ensures order == Users(ps)
    ensures forall u :: u in acc <==> u in order
    ensures forall u :: u in acc ==> acc[u] == TallyOf(ps, u)
  {
    acc, order := map[], [];
    var i := 0;
    while i < |ps|
      invariant 0 <= i <= |ps|
      invariant order == Users(ps[..i])
      invariant forall u :: u in acc <==> u in order
      invariant forall u :: u in acc ==> acc[u] == TallyOf(ps[..i], u)
    {
      var p := ps[i];
      assert ps[..i + 1][..i] == ps[..i];
      if p.userId !in acc {
        AbsentUserIsEmpty(ps[..i], p.userId);
        acc := acc[p.userId := Tally(p.nickname, 0, 0, {})];
        order := order + [p.userId];
      }
      var t := acc[p.userId];
      acc := acc[p.userId := Tally(t.nickname, t.totalTime + p.time, t.totalFailures + p.failures, t.days + {p.date})];
      forall u | u in acc
        ensures acc[u] == TallyOf(ps[..i + 1], u)
      {
        OnePlayMore(ps, i, u);
      }
      i := i + 1;
    }
    assert ps[..i] == ps;
  }

  /** The rows of the grouped plays (src/services/firebase.js:70-73): one per user in
      order of first appearance, the set of days replaced by its size. */
  method Aggregate(ps: seq<Play>) returns (r: seq<Standing>)
    ensures r == Standings(ps)
  {
    var acc, order := Group(ps);
    r := [];
    var k := 0;
    while k < |order|
      invariant 0 <= k <= |order|
      invariant |r| == k
      invariant forall n :: 0 <= n < k ==> r[n] == StandingOf(ps, order[n])
    {
      var t := acc[order[k]];
      r := r + [Standing(t.nickname, t.totalTime, t.totalFailures, |t.days|)];
      k := k + 1;
    }
  }

  /** `Array.prototype.sort` with the given comparator, as an insertion sort: the array
      ends ordered by the key and holds the same elements. */
  method SortByKey<T>(a: array<T>, key: T -> Key)
    modifies a
    ensures SortedBy(a[..], key)
    ensures multiset(a[..]) == multiset(old(a[..]))
  {
    if a.Length == 0 {
      return;
    }
    var i := 1;
    while i < a.Length
      invariant 1 <= i <= a.Length
      invariant SortedBy(a[..i], key)
      invariant multiset(a[..]) == multiset(old(a[..]))
    {
      InsertLast(a, i, key);
      i := i + 1;
    }
  }

  /** Moves `a[i]` left past every greater element, leaving `a[..i+1]` sorted. */
  method InsertLast<T>(a: array<T>, i: int, key: T -> Key)
    requires 0 < i < a.Length
    requires SortedBy(a[..i], key)
    modifies a
    ensures SortedBy(a[..i + 1], key)
    ensures multiset(a[..]) == multiset(old(a[..]))
  {
    var j := i;
    while j > 0 && !KeyLe(key(a[j - 1]), key(a[j]))
      invariant 0 <= j <= i
      invariant forall m, n :: 0 <= m < n <= i && n != j ==> KeyLe(key(a[m]), key(a[n]))
      invariant forall n :: j < n <= i ==> KeyLe(key(a[j]), key(a[n]))
      invariant multiset(a[..]) == multiset(old(a[..]))
    {
      a[j - 1], a[j] := a[j], a[j - 1];
      j := j - 1;
    }
  }

  /** `obtenerRankingMensual` (src/services/firebase.js:44-87) and, with the same body,
      `obtenerRankingSemanal` (src/services/firebase.js:90-133), over the period's plays:
      the grouped rows, sorted by the table comparator. */
  method PeriodRanking(ps: seq<Play>) returns (r: seq<Standing>)
    ensures multiset(r) == multiset(Standings(ps))
    ensures SortedBy(r, StandingKey)
  {
    var rows := Aggregate(ps);
    var a := new Standing[|rows|](k requires 0 <= k < |rows| => rows[k]);
    assert a[..] == rows;
    SortByKey(a, StandingKey);
    r := a[..];
  }

  /** `obtenerRankingDiario` (src/Ranking.jsx:5-26): the day's results sorted in place by
      time, then failures. */
  method DailyRanking(a: array<DailyResult>)
    modifies a
    ensures SortedBy(a[..], DailyKey)
    ensures multiset(a[..]) == multiset(old(a[..]))
  {
    SortByKey(a, DailyKey);
  }

  /** `getSemanaDelMes` (src/services/firebase.js:27-32) on the day of the month: whole
      weeks since the first of the month, plus one. Days 29 to 31 fall in a fifth week. */
  function WeekOfMonth(day: int): (w: int)
    requires 1 <= day <= 31
    ensures 1 <= w <= 5
    ensures 7 * (w - 1) < day <= 7 * w
    ensures w == 5 <==> day >= 29
  {
    (day - 1) / 7 + 1
  }
}
