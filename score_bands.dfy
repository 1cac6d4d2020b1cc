/** The four score bands the pages colour and label match scores by, with
    the thresholds 80, 60 and 40. Each page writes its own if-chain; this
    module is the reference the chains are proved against. */
module ScoreBands {
  datatype Band = Excellent | Good | Fair | Low

  /** The band of a score: at least 80, at least 60, at least 40, or below. */
  function BandOf(score: int): (b: Band)
    ensures b == Excellent <==> 80 <= score
    ensures b == Good <==> 60 <= score < 80
    ensures b == Fair <==> 40 <= score < 60
    ensures b == Low <==> score < 40
  {
    if score >= 80 then Excellent
    else if score >= 60 then Good
    else if score >= 40 then Fair
    else Low
  }

  /** Bands in increasing order of score. */
  function Rank(b: Band): nat {
    match b
    case Low => 0
    case Fair => 1
    case Good => 2
    case Excellent => 3
  }

  /** A higher score never falls in a lower band. */
  lemma BandMonotone(s: int, t: int)
    requires s <= t
    ensures Rank(BandOf(s)) <= Rank(BandOf(t))
  {
  }
}
