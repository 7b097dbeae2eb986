/**
 * The side-by-side comparison (src/components/parallel/CompareSection.tsx:17-33):
 * per timeline the three final scores and their rounded average, and the
 * timeline with the best average.
 */
module Compare {
  import opened Schema
  import opened Lists
  import Page

  /** One row of `scores`. */
  datatype ScoreRow = ScoreRow(
    id: string, name: string, emoji: string,
    happiness: int, wealth: int, growth: int, overall: int)

  /** `Math.round((happiness + wealth + growth) / 3)`: the integer nearest to
      the mean. A sum of integers divided by three is never halfway between
      two integers, so the rounding direction on ties does not arise. */
  function Overall(happiness: int, wealth: int, growth: int): (r: int)
    ensures var sum := happiness + wealth + growth;
      3 * r - 1 <= sum <= 3 * r + 1
  {
    (happiness + wealth + growth + 1) / 3
  }

  /** The rounded mean is the only integer within a third of the mean. */
  lemma OverallIsNearest(happiness: int, wealth: int, growth: int, r: int)
    requires var sum := happiness + wealth + growth; 3 * r - 1 <= sum <= 3 * r + 1
    ensures r == Overall(happiness, wealth, growth)
  {
  }

  /** Scores on the 0-100 scale average to a score on the same scale. */
  lemma OverallInScale(happiness: int, wealth: int, growth: int)
    requires 0 <= happiness <= 100 && 0 <= wealth <= 100 && 0 <= growth <= 100
    ensures 0 <= Overall(happiness, wealth, growth) <= 100
  {
  }

  /** Raising one score never lowers the average. */
  lemma OverallMonotone(happiness: int, wealth: int, growth: int, happiness': int)
    requires happiness <= happiness'
    ensures Overall(happiness, wealth, growth) <= Overall(happiness', wealth, growth)
  {
  }

  function Row(t: Timeline): (row: ScoreRow)
    ensures row.id == t.id && row.name == t.name && row.emoji == t.emoji
    ensures row.happiness == t.finalSnapshot.happinessScore && row.wealth == t.finalSnapshot.wealthScore
    ensures row.growth == t.finalSnapshot.growthScore
    ensures var sum := row.happiness + row.wealth + row.growth; 3 * row.overall - 1 <= sum <= 3 * row.overall + 1
  {
    var s := t.finalSnapshot;
    ScoreRow(t.id, t.name, t.emoji, s.happinessScore, s.wealthScore, s.growthScore,
             Overall(s.happinessScore, s.wealthScore, s.growthScore))
  }

  /** `timelines.map(...)`: one row per timeline, in order. */
  function Scores(timelines: seq<Timeline>): (rows: seq<ScoreRow>)
    ensures |rows| == |timelines|
    ensures forall i :: 0 <= i < |rows| ==> rows[i] == Row(timelines[i])
  {
    seq(|timelines|, i requires 0 <= i < |timelines| => Row(timelines[i]))
  }

  /** `scores.reduce((best, curr) => curr.overall > best.overall ? curr : best)`:
      the first row with the greatest average. The reduce has no initial value,
      so the list must not be empty. */
  function BestOverall(timelines: seq<Timeline>): (best: ScoreRow)
    requires |timelines| > 0
    ensures exists k :: 0 <= k < |timelines| && best == Row(timelines[k])
                        && forall j :: 0 <= j < k ==> Row(timelines[j]).overall < best.overall
    ensures forall j :: 0 <= j < |timelines| ==> Row(timelines[j]).overall <= best.overall
  {
    var rows := Scores(timelines);
    var overall := seq(|rows|, j requires 0 <= j < |rows| => rows[j].overall);
    var k := FirstMaxIndex(overall);
    assert forall j :: 0 <= j < |rows| ==> overall[j] == Row(timelines[j]).overall;
    rows[k]
  }

  /** The comparison's best average and the share text's "Best path", chosen
      by happiness alone, can name different timelines. */
  lemma BestOverallDiffersFromBestPath(a: Timeline, b: Timeline)
    requires a.finalSnapshot.happinessScore == 90 && a.finalSnapshot.wealthScore == 0 && a.finalSnapshot.growthScore == 0
    requires b.finalSnapshot.happinessScore == 80 && b.finalSnapshot.wealthScore == 80 && b.finalSnapshot.growthScore == 80
    requires a.id != b.id
    ensures Page.BestPath([a, b]) == 0
    ensures BestOverall([a, b]).id == b.id
  {
    assert Row(a).overall == 30 && Row(b).overall == 80;
  }
}
