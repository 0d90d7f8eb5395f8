/** The dashboard's three built-in players, used as concrete checks of the folds
    and the rate formulas, plus two hand-made stat lines. */
module MockData {

  import opened Optional
  import opened Stats
  import opened Rates

  function Line(AB: nat, H: nat, doubles: nat, triples: nat, HR: nat, RBI: nat, R: nat, BB: nat, K: nat, SB: nat,
                IP: Innings, ER: nat, W: nat, L: nat, SV: nat, HBP: nat, WP: nat, BK: nat): DayStats
  {
    DayStats("2024-01-01", AB, H, doubles, triples, HR, RBI, R, BB, K, SB, IP, ER, W, L, SV, HBP, WP, BK)
  }

  const Soto := Player("1", "Juan Soto", "OF", "NYY",
    Line(500, 150, 30, 5, 30, 90, 80, 70, 100, 10, 0.0, 0, 0, 0, 0, 0, 0, 0))
  const Cole := Player("2", "Gerrit Cole", "P", "NYY",
    Line(0, 0, 0, 0, 0, 0, 0, 0, 0, 0, 200.0, 50, 15, 5, 0, 5, 10, 1))
  const Ohtani := Player("3", "Shohei Ohtani", "DH/P", "LAD",
    Line(500, 160, 35, 7, 40, 100, 90, 80, 90, 15, 150.0, 40, 12, 4, 0, 3, 8, 0))

  const MockPlayers := [Soto, Cole, Ohtani]

  /** The dashboard starts with the first player selected, falling back to null
      when the list is empty or the first id is the empty (falsy) string. */
  function InitialSelection(players: seq<Player>): (s: Option<string>)
    ensures s == None <==> |players| == 0 || players[0].id == ""
    ensures s.Some? ==> Selects(s, players[0]) && s.value != ""
  {
    if |players| == 0 || players[0].id == "" then None else Some(players[0].id)
  }

  lemma UnrollBatting(a: Player, b: Player, c: Player, selected: Option<string>)
    ensures AggregateBatting([a, b, c], selected)
         == BattingStep(BattingStep(BattingStep(ZeroBatting, a, selected), b, selected), c, selected)
  {
    var t1 := BattingStep(ZeroBatting, a, selected);
    var t2 := BattingStep(t1, b, selected);
    var t3 := BattingStep(t2, c, selected);
    assert [a, b, c][1..] == [b, c];
    assert [b, c][1..] == [c];
    assert [c][1..] == [];
    calc {
      AggregateBatting([a, b, c], selected);
      AggregateBattingFrom(t1, [b, c], selected);
      AggregateBattingFrom(t2, [c], selected);
      AggregateBattingFrom(t3, [], selected);
    }
  }

  lemma UnrollPitching(a: Player, b: Player, c: Player, selected: Option<string>)
    ensures AggregatePitching([a, b, c], selected)
         == PitchingStep(PitchingStep(PitchingStep(ZeroPitching, a, selected), b, selected), c, selected)
  {
    var t1 := PitchingStep(ZeroPitching, a, selected);
    var t2 := PitchingStep(t1, b, selected);
    var t3 := PitchingStep(t2, c, selected);
    assert [a, b, c][1..] == [b, c];
    assert [b, c][1..] == [c];
    assert [c][1..] == [];
    calc {
      AggregatePitching([a, b, c], selected);
      AggregatePitchingFrom(t1, [b, c], selected);
      AggregatePitchingFrom(t2, [c], selected);
      AggregatePitchingFrom(t3, [], selected);
    }
  }

  /** The first player's batting totals, and the rates the dashboard shows for them
      (AVG 150/500, OBP 220/570 shown as 0.386, SLG 280/500, OPS 0.386 + 0.560). */
  lemma SotoBatting()
    ensures InitialSelection(MockPlayers) == Some("1")
    ensures AggregateBatting(MockPlayers, Some("1")) == SotoTotals
  {
    UnrollBatting(Soto, Cole, Ohtani, Some("1"));
  }

  const SotoTotals := BattingTotals(500, 150, 30, 5, 30, 90, 80, 70, 100, 10)

  lemma SotoRates()
    ensures CalcAVG(SotoTotals) == Ratio(0.3)
    ensures CalcOBP(SotoTotals) == Ratio(220.0 / 570.0)
    ensures CalcSLG(SotoTotals) == Ratio(0.56)
    ensures CalcOPS(SotoTotals) == Ratio(0.946)
  {
    var t := SotoTotals;
    assert CalcAVG(t) == Ratio(150.0 / 500.0);
    assert CalcOBP(t) == Ratio(220.0 / 570.0);
    assert CalcSLG(t) == Ratio(280.0 / 500.0);
    RoundedIs(220.0 / 570.0, BattingPlaces, 386);
    RoundedIs(0.56, BattingPlaces, 560);
    assert Shown(CalcOBP(t), BattingPlaces) == Some(0.386);
    assert Shown(CalcSLG(t), BattingPlaces) == Some(0.56);
  }

  const ColeTotals := PitchingTotals(200.0, 0, 0, 50, 0, 0, 5, 10, 1, 15, 5, 0, None)

  lemma ColePitching()
    ensures AggregatePitching(MockPlayers, Some("2")) == ColeTotals
  {
    var sel := Some("2");
    assert Selects(sel, Cole);
    assert !Selects(sel, Soto) && !Selects(sel, Ohtani);
    var t1 := PitchingStep(ZeroPitching, Soto, sel);
    assert t1 == ZeroPitching;
    var t2 := PitchingStep(t1, Cole, sel);
    assert t2 == ColeTotals;
    var t3 := PitchingStep(t2, Ohtani, sel);
    assert t3 == ColeTotals;
    UnrollPitching(Soto, Cole, Ohtani, sel);
  }

  lemma ColeRates()
    ensures CalcERA(ColeTotals) == Ratio(2.25)
    ensures CalcWHIP(ColeTotals) == Ratio(0.0)
    ensures CalcKBB(ColeTotals) == ZeroText
    ensures CalcBAA(ColeTotals) == NotANumber
  {
  }

  const OhtaniTotals := PitchingTotals(150.0, 160, 90, 40, 80, 90, 3, 8, 0, 12, 4, 0, None)

  lemma OhtaniPitching()
    ensures AggregatePitching(MockPlayers, Some("3")) == OhtaniTotals
  {
    var sel := Some("3");
    assert Selects(sel, Ohtani);
    assert !Selects(sel, Soto) && !Selects(sel, Cole);
    var t1 := PitchingStep(ZeroPitching, Soto, sel);
    assert t1 == ZeroPitching;
    var t2 := PitchingStep(t1, Cole, sel);
    assert t2 == ZeroPitching;
    var t3 := PitchingStep(t2, Ohtani, sel);
    assert t3 == OhtaniTotals;
    UnrollPitching(Soto, Cole, Ohtani, sel);
  }

  /** Ohtani's K/BB of 1.125 is a tie at two places and shows as 1.13. */
  lemma OhtaniRates()
    ensures CalcERA(OhtaniTotals) == Ratio(2.4)
    ensures CalcWHIP(OhtaniTotals) == Ratio(1.6)
    ensures CalcKBB(OhtaniTotals) == Ratio(1.125)
    ensures Shown(CalcKBB(OhtaniTotals), PitchingPlaces) == Some(1.13)
  {
    RoundedIs(1.125, PitchingPlaces, 113);
  }

  /** An id that is not in the list yields the zero records. */
  lemma UnknownPlayer()
    ensures AggregateBatting(MockPlayers, Some("4")) == ZeroBatting
    ensures AggregatePitching(MockPlayers, Some("4")) == ZeroPitching
    ensures AggregateBatting(MockPlayers, None) == ZeroBatting
    ensures AggregatePitching(MockPlayers, None) == ZeroPitching
  {
    NoMatchGivesZero(MockPlayers, Some("4"));
    NoMatchGivesZero(MockPlayers, None);
  }

  /** Four at-bats with a double, a home run and a walk. */
  lemma SingleGameBatting()
    ensures var t := BattingTotals(4, 2, 1, 0, 1, 0, 0, 1, 0, 0);
      && CalcAVG(t) == Ratio(0.5)
      && CalcOBP(t) == Ratio(0.6)
      && CalcSLG(t) == Ratio(1.5)
      && CalcOPS(t) == Ratio(2.1)
  {
    var t := BattingTotals(4, 2, 1, 0, 1, 0, 0, 1, 0, 0);
    assert CalcOBP(t) == Ratio(0.6);
    assert CalcSLG(t) == Ratio(1.5);
    RoundedIs(0.6, BattingPlaces, 600);
    RoundedIs(1.5, BattingPlaces, 1500);
    assert Shown(CalcOBP(t), BattingPlaces) == Some(0.6);
    assert Shown(CalcSLG(t), BattingPlaces) == Some(1.5);
  }

  /** Nine innings, three earned runs, nine hits, three walks, six strikeouts;
      WHIP 12/9 shows as 1.33. */
  lemma CompleteGamePitching()
    ensures var t := PitchingTotals(9.0, 9, 0, 3, 3, 6, 0, 0, 0, 0, 0, 0, None);
      && CalcERA(t) == Ratio(3.0)
      && Shown(CalcWHIP(t), PitchingPlaces) == Some(1.33)
      && CalcKBB(t) == Ratio(2.0)
  {
    RoundedIs(12.0 / 9.0, PitchingPlaces, 133);
  }

  /** Innings are added as plain decimals: 6.1 and 0.2 (six and a third, and two
      thirds, in baseball notation) add up to 6.3, not to the seven innings pitched. */
  lemma InningsAddAsDecimals()
    ensures AggregatePitching(
      [Player("p", "", "", "", Line(0, 0, 0, 0, 0, 0, 0, 0, 0, 0, 6.1, 0, 0, 0, 0, 0, 0, 0)),
       Player("p", "", "", "", Line(0, 0, 0, 0, 0, 0, 0, 0, 0, 0, 0.2, 0, 0, 0, 0, 0, 0, 0))], Some("p")).IP == 6.3
  {
  }
}
