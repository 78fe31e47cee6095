/** The smartwatch routes: the mental health score of a reading, the
    in-memory buffer of the last ten readings, and the score,
    recommendations and latest-reading handlers. */
module Smartwatch {
  import opened TextUtil

  /** What the generator draws at random; the model takes it as input. */
  datatype Sample = Sample(timestamp: string, heartRate: int, stressLevel: int, sleepHours: real, steps: int)

  datatype Reading = Reading(id: nat, timestamp: string, heartRate: int, stressLevel: int,
                             sleepHours: real, steps: int, mentalHealthScore: int)

  // ---------------------------------------------------------------------
  // The mental health score
  // ---------------------------------------------------------------------

  /** The points the three penalties take off. */
  function Penalty(heartRate: int, stressLevel: int, sleepHours: real): nat {
    (if stressLevel > 7 then 2 else 0) + (if sleepHours < 6.0 then 2 else 0) + (if heartRate > 120 then 3 else 0)
  }

  /** Low stress with enough sleep earns a point. */
  predicate Bonus(stressLevel: int, sleepHours: real) {
    stressLevel <= 4 && sleepHours >= 7.0
  }

  /** `Math.max(0, Math.min(10, x))`. */
  function Clamp(x: int): int {
    if x > 10 then 10 else if x < 0 then 0 else x
  }

  /** The score: ten, less the penalties, plus the bonus, clamped to 0..10. */
  function ScoreOf(heartRate: int, stressLevel: int, sleepHours: real): (score: int)
    ensures 0 <= score <= 10
  {
    Clamp(10 - Penalty(heartRate, stressLevel, sleepHours) + (if Bonus(stressLevel, sleepHours) then 1 else 0))
  }

  /** calculateMentalHealthScore, updating its local score step by step. */
  method CalculateMentalHealthScore(heartRate: int, stressLevel: int, sleepHours: real) returns (score: int)
    ensures score == ScoreOf(heartRate, stressLevel, sleepHours)
    ensures 0 <= score <= 10
  {
    score := 10;
    if stressLevel > 7 { score := score - 2; }
    if sleepHours < 6.0 { score := score - 2; }
    if heartRate > 120 { score := score - 3; }
    if stressLevel <= 4 && sleepHours >= 7.0 { score := score + 1; }
    score := if score > 10 then 10 else score;
    score := if score < 0 then 0 else score;
  }

  /** The bonus never meets the stress or sleep penalty, so the score is
      at least 3, and it is 10 exactly when no penalty applies: the bonus
      on a full score is clamped away. */
  lemma ScoreRange(heartRate: int, stressLevel: int, sleepHours: real)
    ensures Bonus(stressLevel, sleepHours) ==> !(stressLevel > 7) && !(sleepHours < 6.0)
    ensures 3 <= ScoreOf(heartRate, stressLevel, sleepHours) <= 10
    ensures ScoreOf(heartRate, stressLevel, sleepHours) == 10 <==> Penalty(heartRate, stressLevel, sleepHours) == 0
    ensures ScoreOf(heartRate, stressLevel, sleepHours) ==
      10 - Penalty(heartRate, stressLevel, sleepHours) +
      (if Bonus(stressLevel, sleepHours) && Penalty(heartRate, stressLevel, sleepHours) > 0 then 1 else 0)
  {
  }

  /** The lowest score is reached. */
  lemma ScoreMinimum()
    ensures ScoreOf(130, 9, 4.0) == 3
  {
  }

  // ---------------------------------------------------------------------
  // The buffer of readings
  // ---------------------------------------------------------------------

  const Capacity := 10

  /** A reading made from a sample, with the given id and its own score. */
  function ReadingOf(id: nat, s: Sample): (r: Reading)
    ensures Scored(r)
  {
    Reading(id, s.timestamp, s.heartRate, s.stressLevel, s.sleepHours, s.steps,
            ScoreOf(s.heartRate, s.stressLevel, s.sleepHours))
  }

  /** The stored score is the score of the reading. */
  predicate Scored(r: Reading) {
    r.mentalHealthScore == ScoreOf(r.heartRate, r.stressLevel, r.sleepHours)
  }

  /** Ids run consecutively up to last. */
  predicate ConsecutiveIds(rs: seq<Reading>, last: nat) {
    |rs| <= last && forall i :: 0 <= i < |rs| ==> rs[i].id == last - |rs| + 1 + i
  }

  /** The module-level `readings` array and `readingId` counter. */
  class ReadingStore {
    var readings: seq<Reading>
    var readingId: nat

    ghost predicate Valid()
      reads this
    {
      |readings| <= Capacity && ConsecutiveIds(readings, readingId) &&
      forall i :: 0 <= i < |readings| ==> Scored(readings[i])
    }

    /** The module's initialisation: ten readings, ids 1 to 10. */
    constructor(samples: seq<Sample>)
      requires |samples| == Capacity
      ensures Valid()
      ensures readingId == Capacity
      ensures readings == seq(Capacity, i requires 0 <= i < Capacity => ReadingOf(i + 1, samples[i]))
    {
      readings := [];
      readingId := 0;
      new;
      for i := 0 to Capacity
        invariant readingId == i && |readings| == i
        invariant forall k :: 0 <= k < i ==> readings[k] == ReadingOf(k + 1, samples[k])
      {
        var reading := GenerateSmartwatchData(samples[i]);
        readings := readings + [reading];
      }
    }

    /** generateSmartwatchData with its random draws given: `id: ++readingId`. */
    method GenerateSmartwatchData(s: Sample) returns (r: Reading)
      modifies this
      ensures readingId == old(readingId) + 1 && readings == old(readings)
      ensures r == ReadingOf(readingId, s)
    {
      readingId := readingId + 1;
      var score := CalculateMentalHealthScore(s.heartRate, s.stressLevel, s.sleepHours);
      r := Reading(readingId, s.timestamp, s.heartRate, s.stressLevel, s.sleepHours, s.steps, score);
    }

    /** The timer's body: a new reading pushed, the oldest shifted out past ten. */
    method Tick(s: Sample)
      requires Valid()
      modifies this
      ensures Valid()
      ensures readingId == old(readingId) + 1
      ensures readings == Window(old(readings) + [ReadingOf(readingId, s)])
    {
      var newReading := GenerateSmartwatchData(s);
      readings := readings + [newReading];
      if |readings| > Capacity {
        readings := readings[1..];
      }
    }
  }

  /** What a push keeps: everything, or all but the oldest past ten. */
  function Window(rs: seq<Reading>): seq<Reading> {
    if |rs| > Capacity then rs[1..] else rs
  }

  /** A tick keeps at most ten readings, puts the new one last, and drops
      only the oldest, keeping the order of the rest. */
  lemma WindowProps(old_: seq<Reading>, r: Reading)
    requires |old_| <= Capacity
    ensures var w := Window(old_ + [r]);
      && |w| <= Capacity && w != [] && w[|w| - 1] == r
      && (|old_| < Capacity ==> w == old_ + [r])
      && (|old_| == Capacity ==> w == old_[1..] + [r])
  {
  }

  // ---------------------------------------------------------------------
  // GET /score
  // ---------------------------------------------------------------------

  /** `readings.reduce((sum, r) => sum + r.mentalHealthScore, 0)`. */
  function TotalScore(rs: seq<Reading>): int {
    if rs == [] then 0 else TotalScore(rs[..|rs| - 1]) + rs[|rs| - 1].mentalHealthScore
  }

  /** `parseFloat(x.toFixed(1))` on the exact value: half-up to one decimal. */
  function Round1(x: real): real {
    ((x * 10.0 + 0.5).Floor as real) / 10.0
  }

  /** The band of an average score. */
  function Band(avg: real): string {
    if avg < 5.0 then "Stressed" else if avg < 8.0 then "Moderate" else "Healthy"
  }

  datatype ScoreResponse = ScoreResponse(averageScore: real, status: string, readingsCount: Option<nat>)

  function ScoreRoute(rs: seq<Reading>): ScoreResponse {
    if rs == [] then ScoreResponse(0.0, "No data available", None)
    else
      var avg := Round1(TotalScore(rs) as real / |rs| as real);
      ScoreResponse(avg, Band(avg), Some(|rs|))
  }

  /** With scores in 0..10 the total lies in 0..10 per reading. */
  lemma {:induction false} TotalScoreBounds(rs: seq<Reading>)
    requires forall i :: 0 <= i < |rs| ==> 0 <= rs[i].mentalHealthScore <= 10
    ensures 0 <= TotalScore(rs) <= 10 * |rs|
  {
    if rs != [] { TotalScoreBounds(rs[..|rs| - 1]); }
  }

  /** An average of at most ten whole scores below a whole number t lies
      at least a tenth below it. */
  lemma AverageGap(total: int, n: int, t: int)
    requires 1 <= n <= 10
    requires total as real / n as real < t as real
    ensures (total as real / n as real) * 10.0 + 0.5 < (t * 10) as real
  {
    assert total < t * n by {
      if total >= t * n {
        DivMonotone(total, n, t);
      }
    }
    if n == 1 {} else if n == 2 {} else if n == 3 {} else if n == 4 {} else if n == 5 {}
    else if n == 6 {} else if n == 7 {} else if n == 8 {} else if n == 9 {} else {}
  }

  lemma DivMonotone(total: int, n: int, t: int)
    requires 1 <= n <= 10 && total >= t * n
    ensures total as real / n as real >= t as real
  {
    if n == 1 {} else if n == 2 {} else if n == 3 {} else if n == 4 {} else if n == 5 {}
    else if n == 6 {} else if n == 7 {} else if n == 8 {} else if n == 9 {} else {}
  }

  /** An average of scores in 0..10 lies in 0..10. */
  lemma AverageBounds(total: int, n: int)
    requires 1 <= n <= 10 && 0 <= total <= 10 * n
    ensures 0.0 <= total as real / n as real <= 10.0
  {
    if n == 1 {} else if n == 2 {} else if n == 3 {} else if n == 4 {} else if n == 5 {}
    else if n == 6 {} else if n == 7 {} else if n == 8 {} else if n == 9 {} else {}
  }

  /** Rounding to one decimal keeps an average of at most ten whole scores
      on the same side of every whole-number threshold. */
  lemma RoundKeepsThreshold(total: int, n: int, t: int)
    requires 1 <= n <= 10
    ensures Round1(total as real / n as real) < t as real <==> total as real / n as real < t as real
  {
    var x := total as real / n as real;
    var f := (x * 10.0 + 0.5).Floor;
    assert Round1(x) == f as real / 10.0;
    if x < t as real {
      AverageGap(total, n, t);
      assert f < t * 10;
    } else {
      assert f >= t * 10;
    }
  }

  /** The band of an average in bands of whole numbers. */
  lemma BandIff(avg: real)
    ensures Band(avg) == "Stressed" <==> avg < 5.0
    ensures Band(avg) == "Moderate" <==> 5.0 <= avg < 8.0
    ensures Band(avg) == "Healthy" <==> 8.0 <= avg
  {
  }

  /** The score route reports the rounded average of the stored scores,
      and its band is the band of the exact average: for at most ten
      readings, rounding never moves an average across 5 or 8. */
  lemma ScoreRouteProps(rs: seq<Reading>)
    requires forall i :: 0 <= i < |rs| ==> 0 <= rs[i].mentalHealthScore <= 10
    requires |rs| <= Capacity
    ensures rs == [] ==> ScoreRoute(rs) == ScoreResponse(0.0, "No data available", None)
    ensures rs != [] ==> var exact := TotalScore(rs) as real / |rs| as real;
      && 0.0 <= exact <= 10.0
      && ScoreRoute(rs) == ScoreResponse(Round1(exact), Band(exact), Some(|rs|))
  {
    if rs != [] {
      TotalScoreBounds(rs);
      AverageBounds(TotalScore(rs), |rs|);
      RoundKeepsThreshold(TotalScore(rs), |rs|, 5);
      RoundKeepsThreshold(TotalScore(rs), |rs|, 8);
    }
  }

  // ---------------------------------------------------------------------
  // GET /recommendations
  // ---------------------------------------------------------------------

  const NoDataYet := "No data available yet. Start tracking your health!"

  // The messages, group by group.
  const Breathe := "\U{1F9D8} Take a short break and practice deep breathing exercises"
  const Hydrate := "\U{1F4A7} Stay hydrated - drink a glass of water"
  const CalmMusic := "\U{1F3B5} Listen to calming music or nature sounds"
  const StressPraise := "\U{2728} Great stress management! Keep up the good work"
  const BedEarlier := "\U{1F634} Consider going to bed earlier tonight - aim for 7-8 hours"
  const LessScreen := "\U{1F4F1} Reduce screen time 1 hour before bedtime"
  const SleepPraise := "\U{1F319} Excellent sleep! Your body is well-rested"
  const HeartElevated := "\U{2764}\U{FE0F} Your heart rate is elevated - take a moment to relax"
  const SitDown := "\U{1FA91} Sit down and breathe deeply for 5 minutes"
  const HeartPraise := "\U{1F49A} Heart rate is in healthy range"
  const TakeWalk := "\U{1F6B6} Try to take a short walk - aim for 10,000 steps daily"
  const StepsPraise := "\U{1F3AF} Fantastic activity level! You're crushing your step goal"
  const WellnessPraise := "\U{1F389} Outstanding mental wellness! Keep maintaining this balance"
  const TalkToSomeone := "\U{1F9E0} Consider talking to someone you trust or a mental health professional"
  const Journal := "\U{1F4DD} Try journaling your thoughts and feelings"

  function StressRecs(r: Reading): seq<string> {
    if r.stressLevel > 7 then
      [Breathe,
       Hydrate,
       CalmMusic]
    else if r.stressLevel <= 3 then [StressPraise]
    else []
  }

  function SleepRecs(r: Reading): seq<string> {
    if r.sleepHours < 6.0 then
      [BedEarlier,
       LessScreen]
    else if r.sleepHours >= 7.0 then [SleepPraise]
    else []
  }

  function HeartRecs(r: Reading): seq<string> {
    if r.heartRate > 120 then
      [HeartElevated,
       SitDown]
    else if 60 <= r.heartRate <= 100 then [HeartPraise]
    else []
  }

  function StepsRecs(r: Reading): seq<string> {
    if r.steps < 3000 then [TakeWalk]
    else if r.steps >= 8000 then [StepsPraise]
    else []
  }

  function OverallRecs(r: Reading): seq<string> {
    if r.mentalHealthScore >= 8 then [WellnessPraise]
    else if r.mentalHealthScore < 5 then
      [TalkToSomeone,
       Journal]
    else []
  }

  /** The recommendations for the latest reading, group by group. */
  function RecommendationsFor(r: Reading): seq<string> {
    StressRecs(r) + SleepRecs(r) + HeartRecs(r) + StepsRecs(r) + OverallRecs(r)
  }

  /** GET /recommendations: the advice for the latest reading, with its
      score and timestamp, or the single no-data message. */
  method Recommendations(rs: seq<Reading>) returns (recommendations: seq<string>, currentScore: Option<int>, timestamp: Option<string>)
    ensures rs == [] ==> recommendations == [NoDataYet] && currentScore == None && timestamp == None
    ensures rs != [] ==> recommendations == RecommendationsFor(rs[|rs| - 1])
    ensures rs != [] ==> currentScore == Some(rs[|rs| - 1].mentalHealthScore) && timestamp == Some(rs[|rs| - 1].timestamp)
  {
    if |rs| == 0 {
      return [NoDataYet], None, None;
    }
    var latest := rs[|rs| - 1];
    recommendations := [];
    recommendations := PushStress(recommendations, latest);
    recommendations := PushSleep(recommendations, latest);
    recommendations := PushHeart(recommendations, latest);
    recommendations := PushSteps(recommendations, latest);
    recommendations := PushOverall(recommendations, latest);
    currentScore := Some(latest.mentalHealthScore);
    timestamp := Some(latest.timestamp);
  }

  method PushStress(recs: seq<string>, latest: Reading) returns (out: seq<string>)
    ensures out == recs + StressRecs(latest)
  {
    out := recs;
    if latest.stressLevel > 7 {
      out := out + [Breathe];
      out := out + [Hydrate];
      out := out + [CalmMusic];
    } else if latest.stressLevel <= 3 {
      out := out + [StressPraise];
    }
  }

  method PushSleep(recs: seq<string>, latest: Reading) returns (out: seq<string>)
    ensures out == recs + SleepRecs(latest)
  {
    out := recs;
    if latest.sleepHours < 6.0 {
      out := out + [BedEarlier];
      out := out + [LessScreen];
    } else if latest.sleepHours >= 7.0 {
      out := out + [SleepPraise];
    }
  }

  method PushHeart(recs: seq<string>, latest: Reading) returns (out: seq<string>)
    ensures out == recs + HeartRecs(latest)
  {
    out := recs;
    if latest.heartRate > 120 {
      out := out + [HeartElevated];
      out := out + [SitDown];
    } else if latest.heartRate >= 60 && latest.heartRate <= 100 {
      out := out + [HeartPraise];
    }
  }

  method PushSteps(recs: seq<string>, latest: Reading) returns (out: seq<string>)
    ensures out == recs + StepsRecs(latest)
  {
    out := recs;
    if latest.steps < 3000 {
      out := out + [TakeWalk];
    } else if latest.steps >= 8000 {
      out := out + [StepsPraise];
    }
  }

  method PushOverall(recs: seq<string>, latest: Reading) returns (out: seq<string>)
    ensures out == recs + OverallRecs(latest)
  {
    out := recs;
    if latest.mentalHealthScore >= 8 {
      out := out + [WellnessPraise];
    } else if latest.mentalHealthScore < 5 {
      out := out + [TalkToSomeone];
      out := out + [Journal];
    }
  }

  /** A reading whose stored score is its own always gets advice: when no
      group speaks, no penalty applies, so the score is 10 and the overall
      group praises it. */
  lemma RecommendationsNonEmpty(r: Reading)
    requires Scored(r)
    ensures RecommendationsFor(r) != []
  {
    if StressRecs(r) == [] && SleepRecs(r) == [] && HeartRecs(r) == [] {
      ScoreRange(r.heartRate, r.stressLevel, r.sleepHours);
      assert OverallRecs(r) != [];
    }
  }

  /** High stress leads the list with the three calming steps; a low
      overall score ends it with the two talking and journaling ones. */
  lemma RecommendationsOrder(r: Reading)
    ensures r.stressLevel > 7 ==> RecommendationsFor(r)[..3] == [Breathe, Hydrate, CalmMusic]
    ensures r.mentalHealthScore < 5 ==>
      RecommendationsFor(r)[|RecommendationsFor(r)| - 2..] == [TalkToSomeone, Journal]
  {
    var recs := RecommendationsFor(r);
    if r.stressLevel > 7 {
      assert recs == [Breathe, Hydrate, CalmMusic] + (SleepRecs(r) + HeartRecs(r) + StepsRecs(r) + OverallRecs(r));
    }
  }

  /** The ranges the generator draws from. */
  predicate InGeneratorRange(s: Sample) {
    60 <= s.heartRate <= 140 && 1 <= s.stressLevel <= 10 && 3.0 <= s.sleepHours <= 9.0 &&
    1000 <= s.steps <= 10000
  }

  /** A generated heart rate is never below 60, so the heart group is
      silent exactly for rates of 101 to 120. */
  lemma GeneratedHeartAdvice(id: nat, s: Sample)
    requires InGeneratorRange(s)
    ensures HeartRecs(ReadingOf(id, s)) == [] <==> 100 < s.heartRate <= 120
  {
  }

  // ---------------------------------------------------------------------
  // GET /data
  // ---------------------------------------------------------------------

  datatype DataResponse = DataResponse(count: nat, data: seq<Reading>)

  function DataRoute(rs: seq<Reading>): (resp: DataResponse)
    ensures resp.data == rs && resp.count == |resp.data|
  {
    DataResponse(|rs|, rs)
  }

  // ---------------------------------------------------------------------
  // GET /latest
  // ---------------------------------------------------------------------

  datatype LatestResponse = Found(data: Reading) | NotFound

  function LatestRoute(rs: seq<Reading>): (resp: LatestResponse)
    ensures resp.NotFound? <==> rs == []
    ensures resp.Found? ==> resp.data == rs[|rs| - 1]
  {
    if rs == [] then NotFound else Found(rs[|rs| - 1])
  }
}
