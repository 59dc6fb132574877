/**
 * The teacher's dashboard (src/components/Dashboard.jsx): totals over the
 * most recent practice sessions, each class's success rate and days since
 * its last session, and the streak of consecutive days with a session.
 */
module Dashboard {
  import opened Wrappers
  import opened Seqs
  import opened Strings

  /**
   * A row of `dna_sessions`. `time` is the session's `date` in milliseconds
   * and `day` the calendar day its date string starts with (None when the
   * session has no date); `results` holds each result's score, None for a
   * score that is not a number, and is None itself when the row has none.
   */
  datatype Session = Session(classId: string, time: int, day: Option<int>, results: Option<seq<Option<int>>>)

  /** `session.results || []`. */
  function Results(s: Session): seq<Option<int>> {
    s.results.GetOr([])
  }

  /** Every result of every session, in order. */
  function AllResults(sessions: seq<Session>): seq<Option<int>> {
    if sessions == [] then []
    else AllResults(sessions[..|sessions| - 1]) + Results(sessions[|sessions| - 1])
  }

  /** The sum of the numeric scores. */
  function NumericSum(rs: seq<Option<int>>): int {
    if rs == [] then 0
    else NumericSum(rs[..|rs| - 1]) + (match rs[|rs| - 1] case Some(n) => n case None => 0)
  }

  /** How many scores are numbers. */
  function NumericCount(rs: seq<Option<int>>): (r: nat)
    ensures r <= |rs|
  {
    if rs == [] then 0
    else NumericCount(rs[..|rs| - 1]) + (if rs[|rs| - 1].Some? then 1 else 0)
  }

  /** How many scores are at least 75 (a non-number never is). */
  function CorrectCount(rs: seq<Option<int>>): (r: nat)
    ensures r <= |rs|
  {
    if rs == [] then 0
    else CorrectCount(rs[..|rs| - 1]) + (if rs[|rs| - 1].Some? && rs[|rs| - 1].value >= 75 then 1 else 0)
  }

  lemma AllResultsSnoc(sessions: seq<Session>, i: nat)
    requires i < |sessions|
    ensures AllResults(sessions[..i + 1]) == AllResults(sessions[..i]) + Results(sessions[i])
  {
    assert sessions[..i + 1][..i] == sessions[..i];
  }

  /** The three counters of the totals loop. */
  datatype Totals = Totals(totalQuestions: nat, totalScore: int, scoreCount: nat)

  /**
   * The totals loop (lines 39-53): every result is counted, and only the
   * numeric scores are summed and counted for the average.
   */
  method CountTotals(sessions: seq<Session>) returns (t: Totals)
    ensures t.totalQuestions == |AllResults(sessions)|
    ensures t.totalScore == NumericSum(AllResults(sessions))
    ensures t.scoreCount == NumericCount(AllResults(sessions))
    ensures t.scoreCount <= t.totalQuestions
  {
    var totalQ, totalScore, scoreCount := 0, 0, 0;
    var i := 0;
    while i < |sessions|
      invariant 0 <= i <= |sessions|
      invariant totalQ == |AllResults(sessions[..i])|
      invariant totalScore == NumericSum(AllResults(sessions[..i]))
      invariant scoreCount == NumericCount(AllResults(sessions[..i]))
    {
      var done := AllResults(sessions[..i]);
      var rs := Results(sessions[i]);
      var j := 0;
      assert done + rs[..0] == done;
      while j < |rs|
        invariant 0 <= j <= |rs|
        invariant totalQ == |done + rs[..j]|
        invariant totalScore == NumericSum(done + rs[..j])
        invariant scoreCount == NumericCount(done + rs[..j])
      {
        assert (done + rs[..j + 1])[..|done + rs[..j + 1]| - 1] == done + rs[..j];
        totalQ := totalQ + 1;
        if rs[j].Some? {
          totalScore := totalScore + rs[j].value;
          scoreCount := scoreCount + 1;
        }
        j := j + 1;
      }
      assert rs[..j] == rs;
      AllResultsSnoc(sessions, i);
      i := i + 1;
    }
    assert sessions[..i] == sessions;
    t := Totals(totalQ, totalScore, scoreCount);
  }

  /** `Math.round(a / b)`: the integer nearest to a/b, halves rounded up. */
  function Round(a: int, b: int): (r: int)
    requires b > 0
    ensures 2 * r * b <= 2 * a + b < 2 * (r + 1) * b
  {
    var x, d := 2 * a + b, 2 * b;
    assert x == d * (x / d) + x % d && 0 <= x % d < d;
    x / d
  }

  lemma NegativeFactor(x: int, y: int)
    requires y > 0 && x * y < 0
    ensures x < 0
  {
  }

  /** A positive factor can be cancelled from a strict inequality. */
  lemma MulLessCancel(x: int, y: int, c: int)
    requires c > 0 && x * c < y * c
    ensures x < y
  {
    assert (x - y) * c == x * c - y * c;
    NegativeFactor(x - y, c);
  }

  /** A quotient of something between lo·b and hi·b rounds to something between lo and hi. */
  lemma RoundBounds(a: int, b: int, lo: int, hi: int)
    requires b > 0 && lo * b <= a <= hi * b
    ensures lo <= Round(a, b) <= hi
  {
    var r := Round(a, b);
    assert (2 * (hi + 1)) * b == 2 * (hi * b) + 2 * b;
    assert (2 * r) * b == 2 * r * b;
    MulLessCancel(2 * r, 2 * (hi + 1), b);
    assert (2 * lo) * b == 2 * (lo * b);
    assert 2 * (r + 1) * b == (2 * (r + 1)) * b;
    MulLessCancel(2 * lo, 2 * (r + 1), b);
  }

  /** `avgScore`: 0 without numeric scores, else their rounded mean. */
  function AvgScore(t: Totals): (r: int)
    ensures t.scoreCount == 0 ==> r == 0
    ensures t.scoreCount > 0 ==> 2 * r * t.scoreCount <= 2 * t.totalScore + t.scoreCount < 2 * (r + 1) * t.scoreCount
  {
    if t.scoreCount > 0 then Round(t.totalScore, t.scoreCount) else 0
  }

  /** The numeric scores lie in 0..100. */
  predicate ScoresInRange(rs: seq<Option<int>>) {
    forall i :: 0 <= i < |rs| && rs[i].Some? ==> 0 <= rs[i].value <= 100
  }

  lemma {:induction false} NumericSumBounds(rs: seq<Option<int>>)
    requires ScoresInRange(rs)
    ensures 0 <= NumericSum(rs) <= 100 * NumericCount(rs)
  {
    if rs != [] {
      var init := rs[..|rs| - 1];
      assert ScoresInRange(init) by {
        forall i | 0 <= i < |init| && init[i].Some? ensures 0 <= init[i].value <= 100 {
          assert init[i] == rs[i];
        }
      }
      NumericSumBounds(init);
    }
  }

  /** With scores in 0..100 the average lies in 0..100. */
  lemma AvgScoreInRange(sessions: seq<Session>, t: Totals)
    requires ScoresInRange(AllResults(sessions))
    requires t.totalScore == NumericSum(AllResults(sessions)) && t.scoreCount == NumericCount(AllResults(sessions))
    ensures 0 <= AvgScore(t) <= 100
  {
    NumericSumBounds(AllResults(sessions));
    if t.scoreCount > 0 {
      RoundBounds(t.totalScore, t.scoreCount, 0, 100);
    }
  }

  /* ---------------------------------------------------------------------- */
  /* Per-class figures                                                       */

  /** `sessionData.filter(s => s.class_id === cls.name)`. */
  function ClassSessions(sessions: seq<Session>, name: string): (r: seq<Session>)
    ensures forall i :: 0 <= i < |r| ==> r[i].classId == name
    ensures forall i :: 0 <= i < |sessions| && sessions[i].classId == name ==> sessions[i] in r
    ensures IsSubseq(r, sessions)
  {
    Filter(sessions, (s: Session) => s.classId == name)
  }

  /** The class's counters: results scoring at least 75, and all results. */
  datatype Tally = Tally(correct: nat, total: nat)

  /** The per-class loop (lines 64-70) over the class's sessions. */
  method CountClass(classSessions: seq<Session>) returns (t: Tally)
    ensures t.total == |AllResults(classSessions)|
    ensures t.correct == CorrectCount(AllResults(classSessions))
    ensures t.correct <= t.total
  {
    var correct, total := 0, 0;
    var i := 0;
    while i < |classSessions|
      invariant 0 <= i <= |classSessions|
      invariant total == |AllResults(classSessions[..i])|
      invariant correct == CorrectCount(AllResults(classSessions[..i]))
    {
      var done := AllResults(classSessions[..i]);
      var rs := Results(classSessions[i]);
      var j := 0;
      assert done + rs[..0] == done;
      while j < |rs|
        invariant 0 <= j <= |rs|
        invariant total == |done + rs[..j]|
        invariant correct == CorrectCount(done + rs[..j])
      {
        assert (done + rs[..j + 1])[..|done + rs[..j + 1]| - 1] == done + rs[..j];
        total := total + 1;
        if rs[j].Some? && rs[j].value >= 75 {
          correct := correct + 1;
        }
        j := j + 1;
      }
      assert rs[..j] == rs;
      AllResultsSnoc(classSessions, i);
      i := i + 1;
    }
    assert classSessions[..i] == classSessions;
    t := Tally(correct, total);
  }

  /** `successRate`: None without results, else the rounded percentage of correct results. */
  function SuccessRate(t: Tally): (r: Option<int>)
    ensures r.None? <==> t.total == 0
    ensures r.Some? && t.correct <= t.total ==> 0 <= r.value <= 100
    ensures r.Some? ==> 2 * r.value * t.total <= 200 * t.correct + t.total < 2 * (r.value + 1) * t.total
  {
    if t.total == 0 then None
    else if t.correct <= t.total then
      RoundBounds(100 * t.correct, t.total, 0, 100);
      Some(Round(100 * t.correct, t.total))
    else Some(Round(100 * t.correct, t.total))
  }

  /** The rate is 100 when every result is correct and 0 when none is. */
  lemma SuccessRateExtremes(t: Tally)
    requires t.total > 0
    ensures t.correct == t.total ==> SuccessRate(t) == Some(100)
    ensures t.correct == 0 ==> SuccessRate(t) == Some(0)
  {
    if t.correct == t.total {
      RoundBounds(100 * t.correct, t.total, 100, 100);
    }
    if t.correct == 0 {
      RoundBounds(0, t.total, 0, 0);
    }
  }

  /** The position of the class's first session in the list (the most recent one: the list is newest first). */
  function FirstOfClass(sessions: seq<Session>, name: string): (r: Option<nat>)
    ensures r.Some? ==> r.value < |sessions| && sessions[r.value].classId == name
                        && forall i :: 0 <= i < r.value ==> sessions[i].classId != name
    ensures r.None? ==> forall i :: 0 <= i < |sessions| ==> sessions[i].classId != name
  {
    if sessions == [] then None
    else if sessions[0].classId == name then Some(0)
    else match FirstOfClass(sessions[1..], name)
      case None => None
      case Some(k) => Some(k + 1)
  }

  /** Milliseconds in a day. */
  const DayMillis: int := 1000 * 60 * 60 * 24

  /**
   * `daysSince`: whole days from the class's last session to `now`, rounded
   * down (Dafny's division by a positive number rounds down, as Math.floor does).
   */
  function DaysSince(sessions: seq<Session>, name: string, now: int): (r: Option<int>)
    ensures r.None? <==> forall i :: 0 <= i < |sessions| ==> sessions[i].classId != name
    ensures r.Some? ==> FirstOfClass(sessions, name).Some?
                        && var k := FirstOfClass(sessions, name).value;
                           r.value * DayMillis <= now - sessions[k].time < (r.value + 1) * DayMillis
  {
    match FirstOfClass(sessions, name)
    case None => None
    case Some(k) => Some((now - sessions[k].time) / DayMillis)
  }

  /** A class with the dashboard's figures. */
  datatype ClassMeta = ClassMeta(name: string, daysSinceLastDna: Option<int>, successRate: Option<int>, totalAnswered: nat)

  /** The figures the dashboard shows for class `name`. */
  predicate Describes(m: ClassMeta, name: string, sessions: seq<Session>, now: int) {
    var rs := AllResults(ClassSessions(sessions, name));
    m.name == name && m.daysSinceLastDna == DaysSince(sessions, name, now)
    && m.totalAnswered == |rs| && m.successRate == SuccessRate(Tally(CorrectCount(rs), |rs|))
  }

  /** The figures of one class (the body of `classData.map`). */
  method MetaFor(name: string, sessions: seq<Session>, now: int) returns (m: ClassMeta)
    ensures Describes(m, name, sessions, now)
    ensures m.successRate.Some? ==> 0 <= m.successRate.value <= 100
  {
    var t := CountClass(ClassSessions(sessions, name));
    m := ClassMeta(name, DaysSince(sessions, name, now), SuccessRate(t), t.total);
  }

  /** `classData.map(...)`: each class with its figures, in the query's order. */
  method ClassesWithMeta(names: seq<string>, sessions: seq<Session>, now: int) returns (metas: seq<ClassMeta>)
    ensures |metas| == |names|
    ensures forall k :: 0 <= k < |names| ==> Describes(metas[k], names[k], sessions, now)
  {
    metas := [];
    var i := 0;
    while i < |names|
      invariant 0 <= i <= |names|
      invariant |metas| == i
      invariant forall k :: 0 <= k < i ==> Describes(metas[k], names[k], sessions, now)
    {
      var m := MetaFor(names[i], sessions, now);
      metas := metas + [m];
      i := i + 1;
    }
  }

  /* ---------------------------------------------------------------------- */
  /* Streak                                                                  */

  /** Some session's date falls on day `d`. */
  predicate HasSession(sessions: seq<Session>, d: int) {
    exists i :: 0 <= i < |sessions| && sessions[i].day == Some(d)
  }

  /** The number of consecutive session days counting back from `d`, looking at most `k` days. */
  function Run(sessions: seq<Session>, d: int, k: nat): (r: nat)
    ensures r <= k
    decreases k
  {
    if k == 0 || !HasSession(sessions, d) then 0 else 1 + Run(sessions, d - 1, k - 1)
  }

  /**
   * The streak `calculateStreak` promises: 0 without sessions; counted back
   * from today, or from yesterday when today has no session.
   */
  function Streak(sessions: seq<Session>, today: int): nat {
    if sessions == [] then 0
    else if HasSession(sessions, today) then Run(sessions, today, 30)
    else Run(sessions, today - 1, 29)
  }

  /** `calculateStreak(sessions)`, `today` being the current calendar day. */
  method CalculateStreak(sessions: seq<Session>, today: int) returns (streak: nat)
    ensures streak == Streak(sessions, today)
  {
    if |sessions| == 0 {
      return 0;
    }
    streak := 0;
    var checkDate := today;
    var i := 0;
    while i < 30
      invariant 0 <= i <= 30
      invariant i == 0 ==> streak == 0 && checkDate == today
      invariant i > 0 ==> streak + Run(sessions, checkDate, 30 - i) == Streak(sessions, today)
    {
      if HasSession(sessions, checkDate) {
        streak := streak + 1;
        checkDate := checkDate - 1;
      } else if i == 0 {
        checkDate := checkDate - 1;
      } else {
        break;
      }
      i := i + 1;
    }
  }

  /**
   * The streak is at most 30; it is that many days of sessions ending today
   * (or yesterday, when today has none), and the day before them has none
   * unless the 30-day window ran out.
   */
  lemma StreakMeaning(sessions: seq<Session>, today: int)
    ensures Streak(sessions, today) <= 30
    ensures sessions == [] ==> Streak(sessions, today) == 0
    ensures !HasSession(sessions, today) ==> Streak(sessions, today) <= 29
    ensures var start := if HasSession(sessions, today) then today else today - 1;
            var n := Streak(sessions, today);
            (forall e :: start - n < e <= start ==> HasSession(sessions, e))
            && (sessions != [] && n < (if HasSession(sessions, today) then 30 else 29) ==> !HasSession(sessions, start - n))
  {
    var start := if HasSession(sessions, today) then today else today - 1;
    var k := if HasSession(sessions, today) then 30 else 29;
    if sessions != [] {
      RunMeaning(sessions, start, k);
    }
  }

  lemma {:induction false} RunMeaning(sessions: seq<Session>, d: int, k: nat)
    ensures forall e :: d - Run(sessions, d, k) < e <= d ==> HasSession(sessions, e)
    ensures Run(sessions, d, k) < k ==> !HasSession(sessions, d - Run(sessions, d, k))
    decreases k
  {
    if k > 0 && HasSession(sessions, d) {
      RunMeaning(sessions, d - 1, k - 1);
      var n := Run(sessions, d - 1, k - 1);
      assert Run(sessions, d, k) == 1 + n;
      assert d - (1 + n) == (d - 1) - n;
    }
  }

  /* ---------------------------------------------------------------------- */
  /* Colour and label of "days since"                                        */

  /** The urgency of a number of days, 0 (recent) to 3 (overdue). */
  function Urgency(days: int): (r: nat)
    ensures r <= 3
    ensures r == 0 <==> days <= 1
    ensures r == 1 <==> 2 <= days <= 3
    ensures r == 2 <==> 4 <= days <= 7
    ensures r == 3 <==> days > 7
  {
    if days <= 1 then 0 else if days <= 3 then 1 else if days <= 7 then 2 else 3
  }

  const Grey: string := "#94a3b8"
  const Green: string := "#22c55e"
  const Yellow: string := "#eab308"
  const Orange: string := "#f97316"
  const Red: string := "#ef4444"

  /** The colours from recent to overdue. */
  const Scale: seq<string> := [Green, Yellow, Orange, Red]

  /** `getDaysColor(days)`, None being `null`. */
  function DaysColor(days: Option<int>): (r: string)
    ensures days.None? ==> r == Grey
    ensures days.Some? ==> r == Scale[Urgency(days.value)]
  {
    match days
    case None => Grey
    case Some(d) => if d <= 1 then Green else if d <= 3 then Yellow else if d <= 7 then Orange else Red
  }

  /** More days never give a more recent colour. */
  lemma DaysColorMonotone(a: int, b: int)
    requires a <= b
    ensures Urgency(a) <= Urgency(b)
    ensures DaysColor(Some(a)) == Scale[Urgency(a)] && DaysColor(Some(b)) == Scale[Urgency(b)]
  {
  }

  /** `getDaysLabel(days)`. */
  function DaysLabel(days: Option<int>): (r: string)
    ensures days.None? ==> r == "No sessions yet"
    ensures days == Some(0) ==> r == "Today"
    ensures days == Some(1) ==> r == "Yesterday"
    ensures days.Some? && days.value != 0 && days.value != 1 ==> r == IntToString(days.value) + " days ago"
  {
    match days
    case None => "No sessions yet"
    case Some(d) => if d == 0 then "Today" else if d == 1 then "Yesterday" else IntToString(d) + " days ago"
  }

  lemma IntToStringInjective(m: int, n: int)
    requires m != n
    ensures IntToString(m) != IntToString(n)
  {
    if m < 0 && n < 0 {
      PrefixedNatInjective("-", -m, -n);
      assert IntToString(m) == "-" + NatToString(-m) && IntToString(n) == "-" + NatToString(-n);
    } else if m >= 0 && n >= 0 {
      NatToStringInjective(m, n);
    } else if m < 0 {
      NegativeVersusNatural(m, n);
    } else {
      NegativeVersusNatural(n, m);
    }
  }

  /** A negative number's text starts with '-', a natural number's with a digit. */
  lemma NegativeVersusNatural(m: int, n: int)
    requires m < 0 <= n
    ensures IntToString(m) != IntToString(n)
  {
    var sm, sn := IntToString(m), NatToString(n);
    assert sm == "-" + NatToString(-m);
    assert sm[0] == '-';
    assert '0' <= sn[0] <= '9';
  }

  /** Different numbers of days, or none, always read differently. */
  lemma DaysLabelInjective(a: Option<int>, b: Option<int>)
    requires a != b
    ensures DaysLabel(a) != DaysLabel(b)
  {
    if a.Some? && b.Some? && a.value !in {0, 1} && b.value !in {0, 1} {
      IntToStringInjective(a.value, b.value);
      var sa, sb := IntToString(a.value), IntToString(b.value);
      if |sa| == |sb| {
        assert (sa + " days ago")[..|sa|] == sa;
        assert (sb + " days ago")[..|sb|] == sb;
      } else {
        assert |sa + " days ago"| != |sb + " days ago"|;
      }
    } else {
      LabelFirstChar(a);
      LabelFirstChar(b);
    }
  }

  /** The first character tells the four kinds of label apart. */
  lemma LabelFirstChar(days: Option<int>)
    ensures |DaysLabel(days)| > 0
    ensures days.None? ==> DaysLabel(days)[0] == 'N'
    ensures days == Some(0) ==> DaysLabel(days)[0] == 'T'
    ensures days == Some(1) ==> DaysLabel(days)[0] == 'Y'
    ensures days.Some? && days.value != 0 && days.value != 1 ==>
              DaysLabel(days)[0] == '-' || '0' <= DaysLabel(days)[0] <= '9'
  {
    if days.Some? && days.value != 0 && days.value != 1 {
      var s := IntToString(days.value);
      assert DaysLabel(days)[0] == s[0];
      if days.value >= 0 {
        assert s == NatToString(days.value);
      }
    }
  }

  /* ---------------------------------------------------------------------- */
  /* The dashboard's state                                                   */

  /** The totals the loop of lines 39-53 computes. */
  function DashboardTotals(sessions: seq<Session>): Totals {
    var rs := AllResults(sessions);
    Totals(|rs|, NumericSum(rs), NumericCount(rs))
  }

  /** The three headline figures. */
  datatype Stats = Stats(totalQuestions: nat, avgScore: int, streakDays: nat)

  class Board {
    var classes: seq<ClassMeta>
    var recentSessions: seq<Session>
    var stats: Stats

    constructor ()
      ensures classes == [] && recentSessions == [] && stats == Stats(0, 0, 0)
    {
      classes := [];
      recentSessions := [];
      stats := Stats(0, 0, 0);
    }

    /**
     * `fetchDashboardData`: `classData` and `sessionData` are the two query
     * answers (None when null), newest first; `now` is the time in
     * milliseconds and `today` the calendar day.
     */
    method FetchDashboardData(classData: Option<seq<string>>, sessionData: Option<seq<Session>>, now: int, today: int)
      modifies this
      ensures recentSessions == sessionData.GetOr([])
      ensures |classes| == |classData.GetOr([])|
      ensures forall k :: 0 <= k < |classes| ==> Describes(classes[k], classData.GetOr([])[k], recentSessions, now)
      ensures stats == Stats(|AllResults(recentSessions)|, AvgScore(DashboardTotals(recentSessions)), Streak(recentSessions, today))
    {
      var names := classData.GetOr([]);
      var sessions := sessionData.GetOr([]);
      var t := CountTotals(sessions);
      var metas := ClassesWithMeta(names, sessions, now);
      var streak := CalculateStreak(sessions, today);
      classes := metas;
      recentSessions := sessions;
      stats := Stats(t.totalQuestions, AvgScore(t), streak);
    }
  }
}
