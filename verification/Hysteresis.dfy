/** What the hysteresis band guarantees over a whole run in which every effort becomes the next prior. */
module Hysteresis {
  import opened Types
  import opened Select

  /** Two adjacent automatic levels and the score boundary between them. */
  datatype Band = Band(lower: ReasoningLevel, upper: ReasoningLevel, boundary: nat) {
    predicate Valid() {
      this in {Band(Low, Medium, 20), Band(Medium, High, 45), Band(High, ExtraHigh, 68), Band(ExtraHigh, Max, 84)}
    }

    predicate Member(level: ReasoningLevel) {
      level == lower || level == upper
    }

    /** The score alone would select one of the two levels. */
    predicate Covers(score: nat) {
      Member(EffortFor(score))
    }
  }

  function Passed(score: nat, boundary: nat): nat { if score > boundary then 1 else 0 }

  /** The effort of a score is Low, one level stronger for each of the four boundaries the score has passed. */
  lemma EffortCountsBoundaries(score: nat)
    ensures EffortFor(score).Rank()
         == Low.Rank() + Passed(score, 20) + Passed(score, 45) + Passed(score, 68) + Passed(score, 84)
  {
  }

  /** The levels of a run: each score is routed with the previous level as its prior. */
  function Levels(scores: seq<nat>, start: ReasoningLevel, margin: nat): (levels: seq<ReasoningLevel>)
    ensures |levels| == |scores|
  {
    if scores == [] then []
    else
      var next := EffortWithHysteresis(scores[0], Some(start), margin);
      [next] + Levels(scores[1..], next, margin)
  }

  function Changes(start: ReasoningLevel, levels: seq<ReasoningLevel>): nat
    decreases |levels|
  {
    if levels == [] then 0
    else (if levels[0] != start then 1 else 0) + Changes(levels[0], levels[1..])
  }

  /** Total distance the scores travel. */
  function Variation(scores: seq<nat>): nat {
    if |scores| < 2 then 0 else AbsDiff(scores[0], scores[1]) + Variation(scores[1..])
  }

  /** Inside the band the level never changes, and a level of the band stays in the band. */
  lemma BandRetains(band: Band, level: ReasoningLevel, score: nat, margin: nat)
    requires band.Valid() && band.Member(level) && band.Covers(score) && margin >= 1
    ensures var next := EffortWithHysteresis(score, Some(level), margin);
      && band.Member(next)
      && (AbsDiff(score, band.boundary) <= margin ==> next == level)
      && (next != level && level == band.lower ==> score >= band.boundary + margin + 1)
      && (next != level && level == band.upper ==> score + margin + 1 <= band.boundary)
  {
  }

  /** The distance a score still has to go before it is clear of the band on its own level's side. */
  function Slack(band: Band, level: ReasoningLevel, score: nat, margin: nat): nat {
    var distance := if level == band.lower then score - (band.boundary - margin - 1)
                    else band.boundary + margin + 1 - score;
    if distance < 0 then 0 else distance
  }

  lemma OneMoreChange(changes: nat, width: nat)
    ensures (changes + 1) * width == changes * width + width
  {
  }

  /** One score: what it moves plus the slack before it covers the slack after it, and a change costs a whole width. */
  lemma StepCost(band: Band, level: ReasoningLevel, at: nat, score: nat, margin: nat)
    requires band.Valid() && band.Member(level) && band.Covers(score) && margin >= 1
    ensures var next := EffortWithHysteresis(score, Some(level), margin);
      AbsDiff(at, score) + Slack(band, level, at, margin)
      >= Slack(band, next, score, margin) + if next == level then 0 else 2 * margin + 2
  {
    BandRetains(band, level, score, margin);
  }

  lemma {:induction false} ChangesCostVariation(
      band: Band, level: ReasoningLevel, at: nat, scores: seq<nat>, margin: nat)
    requires band.Valid() && band.Member(level) && margin >= 1
    requires forall s | s in scores :: band.Covers(s)
    ensures Variation([at] + scores) + Slack(band, level, at, margin)
         >= Changes(level, Levels(scores, level, margin)) * (2 * margin + 2)
    decreases |scores|
  {
    if scores != [] {
      var levels := Levels(scores, level, margin);
      var next := levels[0];
      BandRetains(band, level, scores[0], margin);
      StepCost(band, level, at, scores[0], margin);
      ChangesCostVariation(band, next, scores[0], scores[1..], margin);
      assert levels[1..] == Levels(scores[1..], next, margin);
      assert ([at] + scores)[1..] == scores == [scores[0]] + scores[1..];
      OneMoreChange(Changes(next, levels[1..]), 2 * margin + 2);
    }
  }

  /**
   * Every level change after the first costs a score movement of at least `2 * margin + 2`, so `f`
   * changes force a total variation of at least `(f - 1) * (2 * margin + 2)`.
   */
  lemma {:induction false} NoFlapping(band: Band, start: ReasoningLevel, scores: seq<nat>, margin: nat)
    requires band.Valid() && band.Member(start) && margin >= 1
    requires forall s | s in scores :: band.Covers(s)
    ensures Variation(scores) >= (Changes(start, Levels(scores, start, margin)) - 1) * (2 * margin + 2)
    decreases |scores|
  {
    if scores != [] {
      var levels := Levels(scores, start, margin);
      BandRetains(band, start, scores[0], margin);
      assert levels[1..] == Levels(scores[1..], levels[0], margin);
      if levels[0] == start {
        NoFlapping(band, start, scores[1..], margin);
      } else {
        ChangesCostVariation(band, levels[0], scores[0], scores[1..], margin);
        assert scores == [scores[0]] + scores[1..];
      }
    }
  }
}
