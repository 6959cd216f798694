/** The signal scorer: a fixed weighted vote over one indicator snapshot.
    Every category of the weight table casts at most one vote (long, short
    or none); a side's score is the sum of the weights of the votes it got,
    the reported score is the larger side's, and the direction is that side
    when it strictly wins and reaches the minimum score, else NEUTRAL. */
module SignalScoring {
  import opened Common
  import opened Series

  /** One snapshot of indicator values, as the analysis builds it. */
  datatype IndicatorResult = IndicatorResult(
    rsi: real,
    emaFast: real,
    emaSlow: real,
    macd: real,
    macdSignal: real,
    bbUpper: real,
    bbLower: real,
    close: real,
    stochK: real,
    stochD: real,
    adx: real,
    atr: real)

  /** The keys of the weight table. */
  datatype Category =
    | EmaCross | MacdCross | RsiLevel | StochCross | Bollinger
    | AdxFilter | AtrFilter | Pattern | Divergence

  /** The weight table. Pattern and divergence have weights but no rule
      that ever votes for them. */
  function Weight(c: Category): real
  {
    match c
    case EmaCross => 0.25
    case MacdCross => 0.25
    case RsiLevel => 0.15
    case StochCross => 0.15
    case Bollinger => 0.10
    case AdxFilter => 0.10
    case AtrFilter => 0.05
    case Pattern => 0.15
    case Divergence => 0.05
  }

  /** Every category of the table, in the table's order. */
  const AllCategories: seq<Category> :=
    [EmaCross, MacdCross, RsiLevel, StochCross, Bollinger, AdxFilter, AtrFilter, Pattern, Divergence]

  /** The categories the scorer consults, in the order it adds them up. */
  const ScoredCategories: seq<Category> :=
    [EmaCross, MacdCross, RsiLevel, StochCross, Bollinger, AdxFilter, AtrFilter]

  datatype Side = Long | Short | NoVote

  /** A crossing rule: long above, short below, no vote on equality. */
  function CrossVote(a: real, b: real): (s: Side)
    ensures s == Long <==> a > b
    ensures s == Short <==> a < b
  {
    if a > b then Long else if a < b then Short else NoVote
  }

  /** The vote of one category on one snapshot. ADX and ATR are filters:
      when the trend is strong enough (ADX >= 25) or there is volatility
      (ATR > 0) they repeat the EMA-cross vote. */
  function Vote(c: Category, ind: IndicatorResult): Side
  {
    match c
    case EmaCross => CrossVote(ind.emaFast, ind.emaSlow)
    case MacdCross => CrossVote(ind.macd, ind.macdSignal)
    case RsiLevel => if ind.rsi < 30.0 then Long else if ind.rsi > 70.0 then Short else NoVote
    case StochCross => CrossVote(ind.stochK, ind.stochD)
    case Bollinger => if ind.close <= ind.bbLower then Long else if ind.close >= ind.bbUpper then Short else NoVote
    case AdxFilter => if ind.adx >= 25.0 then CrossVote(ind.emaFast, ind.emaSlow) else NoVote
    case AtrFilter => if ind.atr > 0.0 then CrossVote(ind.emaFast, ind.emaSlow) else NoVote
    case Pattern => NoVote
    case Divergence => NoVote
  }

  /** Sum of the weights of `cats`. */
  function TotalWeight(cats: seq<Category>): real
  {
    if cats == [] then 0.0 else TotalWeight(cats[..|cats| - 1]) + Weight(cats[|cats| - 1])
  }

  /** What category c adds to `side`'s score: its weight if it voted for that side. */
  function Contribution(c: Category, ind: IndicatorResult, side: Side): real
  {
    if Vote(c, ind) == side then Weight(c) else 0.0
  }

  /** The score of one side: the weights of the categories in `cats`, added
      in order, whose vote went to that side. */
  function SideScore(cats: seq<Category>, ind: IndicatorResult, side: Side): (s: real)
    ensures 0.0 <= s
  {
    if cats == [] then 0.0
    else SideScore(cats[..|cats| - 1], ind, side) + Contribution(cats[|cats| - 1], ind, side)
  }

  lemma SideScorePrefix(cats: seq<Category>, ind: IndicatorResult, side: Side, k: int)
    requires 0 < k <= |cats|
    ensures SideScore(cats[..k], ind, side) == SideScore(cats[..k - 1], ind, side) + Contribution(cats[k - 1], ind, side)
  {
    assert cats[..k][..k - 1] == cats[..k - 1];
  }

  lemma TotalWeightPrefix(cats: seq<Category>, k: int)
    requires 0 < k <= |cats|
    ensures TotalWeight(cats[..k]) == TotalWeight(cats[..k - 1]) + Weight(cats[k - 1])
  {
    assert cats[..k][..k - 1] == cats[..k - 1];
  }

  /** The first five consulted categories are the signal rules: EMA
      cross, MACD cross, RSI, stochastic cross and Bollinger bands. */
  const SignalCategories: seq<Category> := ScoredCategories[..5]

  /** The signal rules' part of a side score, written out term by term. */
  lemma SignalScoreExpanded(ind: IndicatorResult, side: Side)
    ensures SideScore(SignalCategories, ind, side) ==
      Contribution(EmaCross, ind, side) + Contribution(MacdCross, ind, side) +
      Contribution(RsiLevel, ind, side) + Contribution(StochCross, ind, side) +
      Contribution(Bollinger, ind, side)
  {
    var s := ScoredCategories;
    SideScorePrefix(s, ind, side, 1);
    SideScorePrefix(s, ind, side, 2);
    SideScorePrefix(s, ind, side, 3);
    SideScorePrefix(s, ind, side, 4);
    SideScorePrefix(s, ind, side, 5);
    assert s[..0] == [];
  }

  /** A side score is the signal rules' part plus the two filters'. */
  lemma SideScoreSplit(ind: IndicatorResult, side: Side)
    ensures SideScore(ScoredCategories, ind, side) ==
      SideScore(SignalCategories, ind, side) + Contribution(AdxFilter, ind, side) + Contribution(AtrFilter, ind, side)
  {
    var s := ScoredCategories;
    SideScorePrefix(s, ind, side, 6);
    SideScorePrefix(s, ind, side, 7);
    assert s[..7] == s;
  }

  function LongScore(ind: IndicatorResult): real
  {
    SideScore(ScoredCategories, ind, Long)
  }

  function ShortScore(ind: IndicatorResult): real
  {
    SideScore(ScoredCategories, ind, Short)
  }

  /** The direction and score the scorer reports for a snapshot under a
      minimum score. */
  function Score(ind: IndicatorResult, minScore: real): (r: (string, real))
    ensures r.1 == Max(LongScore(ind), ShortScore(ind))
    ensures r.0 == LONG <==> LongScore(ind) > ShortScore(ind) && r.1 >= minScore
    ensures r.0 == SHORT <==> ShortScore(ind) > LongScore(ind) && r.1 >= minScore
    ensures r.0 == LONG || r.0 == SHORT || r.0 == NEUTRAL
  {
    var l := LongScore(ind);
    var s := ShortScore(ind);
    var total := Max(l, s);
    if l > s && total >= minScore then (LONG, total)
    else if s > l && total >= minScore then (SHORT, total)
    else (NEUTRAL, total)
  }

  /** The two sides together never get more than the total weight of the
      categories consulted, since each category votes for at most one. */
  lemma {:induction false} SidesWithinWeight(cats: seq<Category>, ind: IndicatorResult)
    ensures SideScore(cats, ind, Long) + SideScore(cats, ind, Short) <= TotalWeight(cats)
  {
    if cats != [] {
      SidesWithinWeight(cats[..|cats| - 1], ind);
    }
  }

  /** The table holds 1.25 in all; the consulted categories hold 1.05. */
  lemma TableTotals()
    ensures TotalWeight(AllCategories) == 1.25
    ensures TotalWeight(ScoredCategories) == 1.05
  {
    var a := AllCategories;
    TotalWeightPrefix(a, 1);
    TotalWeightPrefix(a, 2);
    TotalWeightPrefix(a, 3);
    TotalWeightPrefix(a, 4);
    TotalWeightPrefix(a, 5);
    TotalWeightPrefix(a, 6);
    TotalWeightPrefix(a, 7);
    TotalWeightPrefix(a, 8);
    TotalWeightPrefix(a, 9);
    assert a[..0] == [] && a[..9] == a && a[..7] == ScoredCategories;
  }

  /** Both side scores are non-negative and add up to at most 1.05, and
      the reported score lies in [0, 1.05]. */
  lemma ScoreBounds(ind: IndicatorResult, minScore: real)
    ensures 0.0 <= LongScore(ind) && 0.0 <= ShortScore(ind)
    ensures LongScore(ind) + ShortScore(ind) <= 1.05
    ensures 0.0 <= Score(ind, minScore).1 <= 1.05
  {
    SidesWithinWeight(ScoredCategories, ind);
    TableTotals();
  }

  /** Pattern and divergence never vote, and the ADX and ATR filters vote
      only with the EMA cross; with equal EMAs none of the three votes. */
  lemma FiltersFollowEmaCross(ind: IndicatorResult)
    ensures Vote(Pattern, ind) == NoVote && Vote(Divergence, ind) == NoVote
    ensures Vote(AdxFilter, ind) != NoVote ==> ind.adx >= 25.0 && Vote(AdxFilter, ind) == Vote(EmaCross, ind)
    ensures Vote(AtrFilter, ind) != NoVote ==> ind.atr > 0.0 && Vote(AtrFilter, ind) == Vote(EmaCross, ind)
    ensures ind.emaFast == ind.emaSlow ==>
      Vote(EmaCross, ind) == NoVote && Vote(AdxFilter, ind) == NoVote && Vote(AtrFilter, ind) == NoVote
  {
  }

  /** The RSI rule votes long exactly below 30 and short exactly above 70;
      the Bollinger rule votes long exactly at or below the lower band and
      short exactly at or above the upper band when not already long. */
  lemma LevelRules(ind: IndicatorResult)
    ensures Vote(RsiLevel, ind) == Long <==> ind.rsi < 30.0
    ensures Vote(RsiLevel, ind) == Short <==> ind.rsi > 70.0
    ensures Vote(Bollinger, ind) == Long <==> ind.close <= ind.bbLower
    ensures Vote(Bollinger, ind) == Short <==> ind.bbLower < ind.close && ind.close >= ind.bbUpper
  {
  }

  /** A tie, including a snapshot on which nobody votes, reports NEUTRAL. */
  lemma TieIsNeutral(ind: IndicatorResult, minScore: real)
    requires LongScore(ind) == ShortScore(ind)
    ensures Score(ind, minScore).0 == NEUTRAL
  {
  }

  /** A strict winner whose score reaches the minimum is reported; raising
      the minimum above the score turns any result NEUTRAL. */
  lemma MinimumGates(ind: IndicatorResult, minScore: real)
    ensures Score(ind, minScore).1 < minScore ==> Score(ind, minScore).0 == NEUTRAL
    ensures LongScore(ind) > ShortScore(ind) && LongScore(ind) >= minScore ==> Score(ind, minScore).0 == LONG
    ensures ShortScore(ind) > LongScore(ind) && ShortScore(ind) >= minScore ==> Score(ind, minScore).0 == SHORT
  {
  }

  /** The scorer, holding the minimum score a winning side must reach. */
  class SignalScoringService {
    var minScore: real

    /** The constructor takes any minimum score; only the setter checks it. */
    constructor (minScore: real)
      ensures this.minScore == minScore
    {
      this.minScore := minScore;
    }

    /** Accepts a minimum score in [0, 1]; otherwise fails and keeps the old one. */
    method SetMinScore(m: real) returns (o: Outcome)
      modifies this
      ensures o.Pass? <==> 0.0 <= m <= 1.0
      ensures minScore == if o.Pass? then m else old(minScore)
    {
      if m < 0.0 || m > 1.0 {
        return Fail("Min score must lie between 0 and 1 (e.g. 0.7 = 70%)");
      }
      minScore := m;
      return Pass;
    }

    /** The scoring run: the rules add up the two scores, then the larger
        score and the direction of the side that strictly wins and reaches
        the minimum score are chosen. */
    method ScoreIndicators(ind: IndicatorResult) returns (direction: string, score: real)
      ensures (direction, score) == Score(ind, minScore)
    {
      var scoreLong, scoreShort := SignalRules(ind);
      scoreLong, scoreShort := FilterRules(ind, scoreLong, scoreShort);
      SignalScoreExpanded(ind, Long);
      SignalScoreExpanded(ind, Short);
      SideScoreSplit(ind, Long);
      SideScoreSplit(ind, Short);
      score := Max(scoreLong, scoreShort);
      direction := NEUTRAL;
      if scoreLong > scoreShort && score >= minScore { direction := LONG; }
      else if scoreShort > scoreLong && score >= minScore { direction := SHORT; }
    }
  }

  /** The signal rules, one after the other, each adding its weight to the
      long or the short score, starting from 0. */
  method SignalRules(ind: IndicatorResult) returns (scoreLong: real, scoreShort: real)
    ensures scoreLong == Contribution(EmaCross, ind, Long) + Contribution(MacdCross, ind, Long) +
      Contribution(RsiLevel, ind, Long) + Contribution(StochCross, ind, Long) + Contribution(Bollinger, ind, Long)
    ensures scoreShort == Contribution(EmaCross, ind, Short) + Contribution(MacdCross, ind, Short) +
      Contribution(RsiLevel, ind, Short) + Contribution(StochCross, ind, Short) + Contribution(Bollinger, ind, Short)
  {
    scoreLong := 0.0;
    scoreShort := 0.0;
    // the contributions of the rules applied so far, side by side
    ghost var long, short := 0.0, 0.0;

    if ind.emaFast > ind.emaSlow { scoreLong := scoreLong + Weight(EmaCross); }
    else if ind.emaFast < ind.emaSlow { scoreShort := scoreShort + Weight(EmaCross); }
    long, short := long + Contribution(EmaCross, ind, Long), short + Contribution(EmaCross, ind, Short);
    assert scoreLong == long && scoreShort == short;

    if ind.macd > ind.macdSignal { scoreLong := scoreLong + Weight(MacdCross); }
    else if ind.macd < ind.macdSignal { scoreShort := scoreShort + Weight(MacdCross); }
    long, short := long + Contribution(MacdCross, ind, Long), short + Contribution(MacdCross, ind, Short);
    assert scoreLong == long && scoreShort == short;

    if ind.rsi < 30.0 { scoreLong := scoreLong + Weight(RsiLevel); }
    else if ind.rsi > 70.0 { scoreShort := scoreShort + Weight(RsiLevel); }
    long, short := long + Contribution(RsiLevel, ind, Long), short + Contribution(RsiLevel, ind, Short);
    assert scoreLong == long && scoreShort == short;

    if ind.stochK > ind.stochD { scoreLong := scoreLong + Weight(StochCross); }
    else if ind.stochK < ind.stochD { scoreShort := scoreShort + Weight(StochCross); }
    long, short := long + Contribution(StochCross, ind, Long), short + Contribution(StochCross, ind, Short);
    assert scoreLong == long && scoreShort == short;

    if ind.close <= ind.bbLower { scoreLong := scoreLong + Weight(Bollinger); }
    else if ind.close >= ind.bbUpper { scoreShort := scoreShort + Weight(Bollinger); }
    long, short := long + Contribution(Bollinger, ind, Long), short + Contribution(Bollinger, ind, Short);
    assert scoreLong == long && scoreShort == short;
  }

  /** The ADX and ATR filters: when the trend is strong enough or there is
      volatility, they add their weight to the side the EMAs cross to. */
  method FilterRules(ind: IndicatorResult, scoreLong0: real, scoreShort0: real) returns (scoreLong: real, scoreShort: real)
    ensures scoreLong == scoreLong0 + Contribution(AdxFilter, ind, Long) + Contribution(AtrFilter, ind, Long)
    ensures scoreShort == scoreShort0 + Contribution(AdxFilter, ind, Short) + Contribution(AtrFilter, ind, Short)
  {
    scoreLong, scoreShort := scoreLong0, scoreShort0;
    if ind.adx >= 25.0 {
      if ind.emaFast > ind.emaSlow { scoreLong := scoreLong + Weight(AdxFilter); }
      else if ind.emaFast < ind.emaSlow { scoreShort := scoreShort + Weight(AdxFilter); }
    }

    if ind.atr > 0.0 {
      if ind.emaFast > ind.emaSlow { scoreLong := scoreLong + Weight(AtrFilter); }
      else if ind.emaFast < ind.emaSlow { scoreShort := scoreShort + Weight(AtrFilter); }
    }
  }
}
