/**
 * The 80/60 score bands that colour a score on the dashboard chart, the
 * dashboard's recent list and the result page's score ring.
 */
module ScoreBands {
  datatype Band = Good | Fair | Poor

  /** The band a score falls in: at least 80, at least 60, or below. */
  function BandOf(score: int): Band {
    if score >= 80 then Good else if score >= 60 then Fair else Poor
  }

  function Rank(b: Band): nat {
    match b
    case Poor => 0
    case Fair => 1
    case Good => 2
  }

  /** A higher score never falls in a lower band. */
  lemma BandMonotone(x: int, y: int)
    requires x <= y
    ensures Rank(BandOf(x)) <= Rank(BandOf(y))
  {
  }

  /** The fill colour of a band, as a hex string. */
  function Hex(b: Band): (c: string)
    ensures |c| == 7 && c[0] == '#'
  {
    match b
    case Good => "#10b981"
    case Fair => "#f59e0b"
    case Poor => "#ef4444"
  }

  /** The colour identifies the band. */
  lemma HexInjective(a: Band, b: Band)
    requires Hex(a) == Hex(b)
    ensures a == b
  {
    assert Hex(a)[1] == Hex(b)[1];
  }
}
