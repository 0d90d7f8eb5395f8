/** The eight derived rates of the dashboard, each guarded against a zero
    denominator, and the numeric value of their fixed-decimal rendering. */
module Rates {

  import opened Optional
  import opened Stats

  /** What a rate formula returns: the guard's literal zero string ("0.000" or
      "0.00"), a ratio that is then rendered with `toFixed`, or the `NaN` that a
      division by a missing field produces. The text itself is left abstract. */
  datatype Rate = ZeroText | Ratio(value: real) | NotANumber

  /** Decimal places: AVG, OBP, SLG, OPS and BAA use three, ERA, WHIP and K/BB two. */
  datatype Places = Two | Three

  const BattingPlaces := Three
  const PitchingPlaces := Two

  /** 10 to the number of places. */
  function Scale(places: Places): real {
    match places
    case Two => 100.0
    case Three => 1000.0
  }

  /** One unit in the last place. */
  function Unit(places: Places): (u: real)
    ensures u * Scale(places) == 1.0
  {
    match places
    case Two => 0.01
    case Three => 0.001
  }

  /** `x` is exactly representable with the given number of decimal places. */
  predicate OnGrid(x: real, places: Places) {
    (x * Scale(places)).Floor as real == x * Scale(places)
  }

  /** The number `x.toFixed(places)` denotes, on exact reals: the nearest multiple
      of one unit in the last place, ties going away from zero (the larger one for
      positive `x`; a negative `x` is rendered as `-` followed by the rendering of `-x`). */
  function Rounded(x: real, places: Places): (r: real)
    ensures OnGrid(r, places)
    ensures -0.5 <= (r - x) * Scale(places) <= 0.5
    ensures 0.0 <= x ==> 0.0 <= r && -0.5 < (r - x) * Scale(places)
    decreases if x < 0.0 then 1 else 0
  {
    if x < 0.0 then
      var r := Rounded(-x, places);
      NegateOnGrid(r, places);
      -r
    else
      var n := (x * Scale(places) + 0.5).Floor;
      n as real / Scale(places)
  }

  lemma NegateOnGrid(x: real, places: Places)
    requires OnGrid(x, places)
    ensures OnGrid(-x, places)
  {
    var m := (x * Scale(places)).Floor;
    assert (-x) * Scale(places) == (-m) as real;
  }

  /** When `n` is the rounded count of units, the rendering is `n` units. */
  lemma RoundedIs(x: real, places: Places, n: int)
    requires 0.0 <= x
    requires n as real <= x * Scale(places) + 0.5 < n as real + 1.0
    ensures Rounded(x, places) == n as real / Scale(places)
  {
    assert (x * Scale(places) + 0.5).Floor == n;
  }

  /** Rounding a value that already has the given places returns it unchanged. */
  lemma RoundedOnGrid(x: real, places: Places)
    requires OnGrid(x, places)
    ensures Rounded(x, places) == x
    decreases if x < 0.0 then 1 else 0
  {
    if x < 0.0 {
      NegateOnGrid(x, places);
      RoundedOnGrid(-x, places);
    } else {
      RoundedIs(x, places, (x * Scale(places)).Floor);
    }
  }

  /** Sums of values with the given places have those places. */
  lemma OnGridAdd(x: real, y: real, places: Places)
    requires OnGrid(x, places) && OnGrid(y, places)
    ensures OnGrid(x + y, places)
  {
    var m := (x * Scale(places)).Floor;
    var n := (y * Scale(places)).Floor;
    assert (x + y) * Scale(places) == (m + n) as real;
  }

  /** The value `Number.parseFloat` reads back from a rendered rate: the zero
      string reads as 0, a ratio as its rounded value, "NaN" as no number. */
  function Shown(r: Rate, places: Places): (v: Option<real>)
    ensures r.NotANumber? <==> v.None?
    ensures r.ZeroText? ==> v == Some(0.0)
    ensures r.Ratio? ==> v == Some(Rounded(r.value, places))
    ensures v.Some? ==> OnGrid(v.value, places) && -0.5 <= (v.value - Exact(r)) * Scale(places) <= 0.5
  {
    match r
    case ZeroText => Some(0.0)
    case Ratio(q) => Some(Rounded(q, places))
    case NotANumber => None
  }

  /** The exact, unrounded value of a rate that is a number. */
  function Exact(r: Rate): real
    requires !r.NotANumber?
  {
    if r.Ratio? then r.value else 0.0
  }

  lemma QuotientAtMost(num: real, den: real, bound: real)
    requires 0.0 < den && num <= bound * den
    ensures num / den <= bound
  {
    assert (num / den) * den == num;
    assert (num / den - bound) * den <= 0.0;
  }

  /** Adding two read-back rates: the sum has the same places, so rendering it
      again rounds nothing, and it is within one unit of the sum of the exact rates. */
  lemma ShownSum(a: Rate, b: Rate, places: Places)
    requires !a.NotANumber? && !b.NotANumber?
    ensures var sum := Shown(a, places).value + Shown(b, places).value;
      && Rounded(sum, places) == sum
      && Exact(a) + Exact(b) - Unit(places) <= sum <= Exact(a) + Exact(b) + Unit(places)
  {
    SumOfRounded(Shown(a, places).value, Exact(a), Shown(b, places).value, Exact(b), places);
  }

  /** Two grid values, each within half a unit of an exact value: their sum is on
      the grid and within one unit of the exact sum. */
  lemma SumOfRounded(x: real, ex: real, y: real, ey: real, places: Places)
    requires OnGrid(x, places) && -0.5 <= (x - ex) * Scale(places) <= 0.5
    requires OnGrid(y, places) && -0.5 <= (y - ey) * Scale(places) <= 0.5
    ensures Rounded(x + y, places) == x + y
    ensures ex + ey - Unit(places) <= x + y <= ex + ey + Unit(places)
  {
    OnGridAdd(x, y, places);
    RoundedOnGrid(x + y, places);
    assert (x + y - (ex + ey)) * Scale(places) == (x - ex) * Scale(places) + (y - ey) * Scale(places);
    AtMostOneUnit(x + y - (ex + ey), places);
  }

  /** A difference of at most one unit when scaled is at most one unit. */
  lemma AtMostOneUnit(d: real, places: Places)
    requires -1.0 <= d * Scale(places) <= 1.0
    ensures -Unit(places) <= d <= Unit(places)
  {
  }

  predicate WithinUnit(r: Rate) {
    r.Ratio? ==> 0.0 <= r.value <= 1.0
  }

  // ---------------------------------------------------------------------------
  // Batting rates over the batting totals.

  /** Batting average: hits per at-bat. */
  function CalcAVG(t: BattingTotals): (r: Rate)
    ensures r.ZeroText? <==> t.AB == 0
    ensures !r.NotANumber?
    ensures r.Ratio? ==> r.value * t.AB as real == t.H as real
    ensures t.H <= t.AB ==> WithinUnit(r)
  {
    if t.AB == 0 then ZeroText
    else Ratio(t.H as real / t.AB as real)
  }

  /** On-base percentage: hits plus walks per at-bat plus walk. */
  function CalcOBP(t: BattingTotals): (r: Rate)
    ensures r.ZeroText? <==> t.AB + t.BB == 0
    ensures !r.NotANumber?
    ensures r.Ratio? ==> r.value * (t.AB + t.BB) as real == (t.H + t.BB) as real
    ensures t.H <= t.AB ==> WithinUnit(r)
  {
    if t.AB + t.BB == 0 then ZeroText
    else Ratio((t.H + t.BB) as real / (t.AB + t.BB) as real)
  }

  /** Total bases: one per hit, plus one more per double, two per triple, three per home run. */
  function TotalBases(t: BattingTotals): nat {
    t.H + t.doubles + 2 * t.triples + 3 * t.HR
  }

  /** Extra-base hits are hits, and hits are at-bats. */
  predicate ConsistentBatting(t: BattingTotals) {
    t.doubles + t.triples + t.HR <= t.H <= t.AB
  }

  /** Slugging percentage. The numerator is written as singles (hits minus
      extra-base hits, possibly negative for inconsistent input) plus weighted
      extra-base hits; it always equals the total bases. */
  function CalcSLG(t: BattingTotals): (r: Rate)
    ensures r.ZeroText? <==> t.AB == 0
    ensures !r.NotANumber?
    ensures r.Ratio? ==> r.value * t.AB as real == TotalBases(t) as real
    ensures r.Ratio? ==> 0.0 <= r.value
    ensures ConsistentBatting(t) && r.Ratio? ==> r.value <= 4.0
  {
    if t.AB == 0 then ZeroText
    else
      var singles: int := t.H - t.doubles - t.triples - t.HR;
      var bases: int := singles + 2 * t.doubles + 3 * t.triples + 4 * t.HR;
      assert bases == TotalBases(t);
      var q := bases as real / t.AB as real;
      assert ConsistentBatting(t) ==> bases <= 4 * t.H <= 4 * t.AB;
      if ConsistentBatting(t) then QuotientAtMost(bases as real, t.AB as real, 4.0); Ratio(q)
      else Ratio(q)
  }

  /** Slugging is never below the batting average. */
  lemma SluggingAtLeastAverage(t: BattingTotals)
    ensures CalcAVG(t).Ratio? <==> CalcSLG(t).Ratio?
    ensures CalcAVG(t).Ratio? ==> CalcAVG(t).value <= CalcSLG(t).value
  {
    if t.AB > 0 {
      var ab := t.AB as real;
      assert CalcAVG(t).value == t.H as real / ab;
      assert CalcSLG(t).value == TotalBases(t) as real / ab;
      QuotientAtMost(t.H as real, ab, TotalBases(t) as real / ab);
    }
  }

  /** `Number.parseFloat(a) + Number.parseFloat(b)` for two rendered rates. */
  function AddShown(a: Rate, b: Rate, places: Places): (r: Rate)
    ensures !a.NotANumber? && !b.NotANumber? ==>
      && r.Ratio?
      && r.value == Shown(a, places).value + Shown(b, places).value
      && Rounded(r.value, places) == r.value
      && Exact(a) + Exact(b) - Unit(places) <= r.value <= Exact(a) + Exact(b) + Unit(places)
    ensures a.NotANumber? || b.NotANumber? ==> r.NotANumber?
  {
    var x := Shown(a, places);
    var y := Shown(b, places);
    if x.Some? && y.Some? then
      ShownSum(a, b, places);
      Ratio(x.value + y.value)
    else
      NotANumber
  }

  /** OPS: the sum of the numbers read back from the already rounded OBP and SLG
      strings, rendered again with three places. Rendering the sum rounds nothing
      more, and the sum is within one unit in the last place of the exact OBP + SLG. */
  function CalcOPS(t: BattingTotals): (r: Rate)
    ensures r.Ratio?
    ensures r.value == Shown(CalcOBP(t), BattingPlaces).value + Shown(CalcSLG(t), BattingPlaces).value
    ensures Rounded(r.value, BattingPlaces) == r.value
    ensures var exact := Exact(CalcOBP(t)) + Exact(CalcSLG(t));
      exact - Unit(BattingPlaces) <= r.value <= exact + Unit(BattingPlaces)
    ensures t.AB + t.BB == 0 ==> r.value == 0.0
  {
    AddShown(CalcOBP(t), CalcSLG(t), BattingPlaces)
  }

  // ---------------------------------------------------------------------------
  // Pitching rates over the pitching totals.

  /** Earned run average: earned runs per nine innings. */
  function CalcERA(t: PitchingTotals): (r: Rate)
    ensures r.ZeroText? <==> t.IP == 0.0
    ensures !r.NotANumber?
    ensures r.Ratio? ==> r.value * t.IP == 9.0 * t.ER as real && 0.0 <= r.value
  {
    if t.IP == 0.0 then ZeroText
    else Ratio((t.ER as real / t.IP) * 9.0)
  }

  /** Walks plus hits per inning pitched. */
  function CalcWHIP(t: PitchingTotals): (r: Rate)
    ensures r.ZeroText? <==> t.IP == 0.0
    ensures !r.NotANumber?
    ensures r.Ratio? ==> r.value * t.IP == (t.BB + t.H) as real && 0.0 <= r.value
  {
    if t.IP == 0.0 then ZeroText
    else Ratio((t.BB + t.H) as real / t.IP)
  }

  /** Strikeouts per walk. */
  function CalcKBB(t: PitchingTotals): (r: Rate)
    ensures r.ZeroText? <==> t.BB == 0
    ensures !r.NotANumber?
    ensures r.Ratio? ==> r.value * t.BB as real == t.K as real && 0.0 <= r.value
  {
    if t.BB == 0 then ZeroText
    else Ratio(t.K as real / t.BB as real)
  }

  /** Batting average against: the batting-average guard and formula applied to
      whatever `AB` the totals carry. With no `AB` at all, the guard
      `AB === 0` does not fire and hits divided by a missing value is `NaN`. */
  function CalcBAA(t: PitchingTotals): (r: Rate)
    ensures r.NotANumber? <==> t.AB.None?
    ensures r.ZeroText? <==> t.AB == Some(0)
    ensures r.Ratio? ==> t.AB.Some? && r.value * t.AB.value as real == t.H as real
  {
    match t.AB
    case None => NotANumber
    case Some(ab) => if ab == 0 then ZeroText else Ratio(t.H as real / ab as real)
  }

  // ---------------------------------------------------------------------------
  // Relations between the formulas and the folds.

  /** Wherever an at-bats value is present, BAA is exactly AVG on the same hits and at-bats. */
  lemma BAAIsAVG(p: PitchingTotals, b: BattingTotals)
    requires p.AB == Some(b.AB) && p.H == b.H
    ensures CalcBAA(p) == CalcAVG(b)
  {
  }

  /** The dashboard applies BAA to the folded pitching totals, which carry no
      at-bats: the zero guard never fires there and the result is always `NaN`. */
  lemma BAAOfAggregateIsNaN(players: seq<Player>, selected: Option<string>)
    ensures CalcBAA(AggregatePitching(players, selected)) == NotANumber
  {
  }

  /** For a player with no entries every rate shows zero. */
  lemma UnselectedRatesAreZero(players: seq<Player>, selected: Option<string>)
    requires forall i :: 0 <= i < |players| ==> !Selects(selected, players[i])
    ensures CalcAVG(AggregateBatting(players, selected)) == ZeroText
    ensures CalcOBP(AggregateBatting(players, selected)) == ZeroText
    ensures CalcSLG(AggregateBatting(players, selected)) == ZeroText
    ensures CalcOPS(AggregateBatting(players, selected)) == Ratio(0.0)
    ensures CalcERA(AggregatePitching(players, selected)) == ZeroText
    ensures CalcWHIP(AggregatePitching(players, selected)) == ZeroText
    ensures CalcKBB(AggregatePitching(players, selected)) == ZeroText
  {
    NoMatchGivesZero(players, selected);
  }

  /** OPS adds the rounded parts, which can differ from rounding the exact sum:
      with one single in 2500 at-bats, OBP and SLG are both 0.0004 and show as
      0.000, so OPS is 0.000, while the exact 0.0008 would show as 0.001. */
  lemma OPSRoundsPartsNotSum()
    ensures var t := BattingTotals(2500, 1, 0, 0, 0, 0, 0, 0, 0, 0);
      && CalcOPS(t) == Ratio(0.0)
      && Rounded(Exact(CalcOBP(t)) + Exact(CalcSLG(t)), BattingPlaces) == 0.001
  {
    var t := BattingTotals(2500, 1, 0, 0, 0, 0, 0, 0, 0, 0);
    assert CalcOBP(t) == Ratio(0.0004);
    assert CalcSLG(t) == Ratio(0.0004);
    assert Scale(BattingPlaces) == 1000.0;
    RoundedIs(0.0004, BattingPlaces, 0);
    RoundedIs(0.0008, BattingPlaces, 1);
    assert Shown(CalcOBP(t), BattingPlaces) == Some(0.0);
    assert Shown(CalcSLG(t), BattingPlaces) == Some(0.0);
    assert Exact(CalcOBP(t)) + Exact(CalcSLG(t)) == 0.0008;
  }
}
