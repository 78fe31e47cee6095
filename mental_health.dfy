/** The mental health dashboard's own logic: the colour of the score card,
    the latest reading, and the stress bars. */
module MentalHealth {
  import opened TextUtil
  import opened Smartwatch

  datatype StatusColor = Green | Yellow | Red

  /** getStatusColor. */
  function StatusColorOf(score: real): (c: StatusColor)
    ensures c == Green <==> score >= 8.0
    ensures c == Yellow <==> 5.0 <= score < 8.0
    ensures c == Red <==> score < 5.0
  {
    if score >= 8.0 then Green else if score >= 5.0 then Yellow else Red
  }

  /** The Tailwind classes of a colour: background, text and border. */
  function ColorClasses(c: StatusColor): (string, string, string) {
    match c
    case Green => ("from-green-500/20 to-emerald-500/20", "text-green-400", "border-green-500/30")
    case Yellow => ("from-yellow-500/20 to-amber-500/20", "text-yellow-400", "border-yellow-500/30")
    case Red => ("from-red-500/20 to-rose-500/20", "text-red-400", "border-red-500/30")
  }

  /** The colour bands are the score route's status bands: Green for
      Healthy, Yellow for Moderate, Red for Stressed. */
  lemma ColorMatchesBand(avg: real)
    ensures StatusColorOf(avg) == Green <==> Band(avg) == "Healthy"
    ensures StatusColorOf(avg) == Yellow <==> Band(avg) == "Moderate"
    ensures StatusColorOf(avg) == Red <==> Band(avg) == "Stressed"
  {
    BandIff(avg);
  }

  /** The card colours the average the score route sends, and for a
      non-empty buffer that colour agrees with the status it sends; an
      empty buffer's average of 0 is coloured red. */
  lemma ColorMatchesScoreRoute(rs: seq<Reading>)
    ensures rs == [] ==> StatusColorOf(ScoreRoute(rs).averageScore) == Red
    ensures rs != [] ==> var resp := ScoreRoute(rs);
      && (StatusColorOf(resp.averageScore) == Green <==> resp.status == "Healthy")
      && (StatusColorOf(resp.averageScore) == Yellow <==> resp.status == "Moderate")
      && (StatusColorOf(resp.averageScore) == Red <==> resp.status == "Stressed")
  {
    if rs != [] {
      ColorMatchesBand(ScoreRoute(rs).averageScore);
    }
  }

  /** `readings.length > 0 ? readings[readings.length - 1] : null`. */
  function LatestReading(readings: seq<Reading>): (r: Option<Reading>)
    ensures r.None? <==> readings == []
    ensures r.Some? ==> r.value == readings[|readings| - 1]
  {
    if |readings| > 0 then Some(readings[|readings| - 1]) else None
  }

  /** The page's latest reading is the one the latest route returns. */
  lemma LatestAgreesWithRoute(readings: seq<Reading>)
    ensures LatestReading(readings).None? <==> LatestRoute(readings).NotFound?
    ensures LatestReading(readings).Some? ==> LatestRoute(readings) == Found(LatestReading(readings).value)
  {
  }

  /** `latestReading?.stressLevel || 0`. */
  function StressShown(latest: Option<Reading>): int {
    if latest.Some? then latest.value.stressLevel else 0
  }

  /** The ten bars, filled where `i < stress`. */
  function Bars(latest: Option<Reading>): (bars: seq<bool>)
    ensures |bars| == 10
  {
    seq(10, i => i < StressShown(latest))
  }

  function CountTrue(bs: seq<bool>): nat {
    if bs == [] then 0 else CountTrue(bs[..|bs| - 1]) + (if bs[|bs| - 1] then 1 else 0)
  }

  /** The first k of the bars for stress s: as many filled as there are
      indices below both k and s. */
  lemma {:induction false} CountPrefix(s: int, k: nat)
    requires k <= 10
    ensures CountTrue(seq(k, i => i < s)) == if s <= 0 then 0 else if s < k then s else k
  {
    if k > 0 {
      var bs := seq(k, i => i < s);
      assert bs[..k - 1] == seq(k - 1, i => i < s);
      CountPrefix(s, k - 1);
    }
  }

  /** The number of filled bars is the stress level bounded to 0..10. */
  lemma FilledBars(latest: Option<Reading>)
    ensures var s := StressShown(latest);
      CountTrue(Bars(latest)) == if s <= 0 then 0 else if s < 10 then s else 10
  {
    CountPrefix(StressShown(latest), 10);
  }
}
