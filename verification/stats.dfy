/** The per-player statistics of the dashboard and the two folds that turn the
    player list into batting and pitching totals for the selected player. */
module Stats {

  import opened Optional

  /** Innings pitched; the entry form accepts any number from 0 up (one decimal
      step, written in the "thirds" convention, but stored as a plain number). */
  type Innings = x: real | 0.0 <= x

  /** One entry's stat line: every counting statistic is a non-negative whole number. */
  datatype DayStats = DayStats(
    date: string,
    AB: nat, H: nat, doubles: nat, triples: nat, HR: nat,
    RBI: nat, R: nat, BB: nat, K: nat, SB: nat,
    IP: Innings, ER: nat, W: nat, L: nat, SV: nat,
    HBP: nat, WP: nat, BK: nat)

  datatype Player = Player(id: string, name: string, position: string, team: string, stats: DayStats)

  datatype BattingTotals = BattingTotals(
    AB: nat, H: nat, doubles: nat, triples: nat, HR: nat,
    RBI: nat, R: nat, BB: nat, K: nat, SB: nat)

  /** The pitching totals object has no at-bats field; `AB` is kept as an optional
      field so that a formula reading it sees it missing, as the dashboard's does. */
  datatype PitchingTotals = PitchingTotals(
    IP: Innings, H: nat, R: nat, ER: nat, BB: nat, K: nat,
    HBP: nat, WP: nat, BK: nat, W: nat, L: nat, SV: nat,
    AB: Option<nat>)

  const ZeroBatting := BattingTotals(0, 0, 0, 0, 0, 0, 0, 0, 0, 0)
  const ZeroPitching := PitchingTotals(0.0, 0, 0, 0, 0, 0, 0, 0, 0, 0, 0, 0, None)

  /** `p.id === selectedPlayerId`: a `null` selection matches no entry. */
  predicate Selects(selected: Option<string>, p: Player) {
    selected == Some(p.id)
  }

  // ---------------------------------------------------------------------------
  // The two folds, as `players.reduce(step, zero)`.

  function BattingStep(acc: BattingTotals, p: Player, selected: Option<string>): BattingTotals {
    if Selects(selected, p) then
      var s := p.stats;
      BattingTotals(acc.AB + s.AB, acc.H + s.H, acc.doubles + s.doubles, acc.triples + s.triples,
                    acc.HR + s.HR, acc.RBI + s.RBI, acc.R + s.R, acc.BB + s.BB, acc.K + s.K, acc.SB + s.SB)
    else
      acc
  }

  function AggregateBattingFrom(acc: BattingTotals, players: seq<Player>, selected: Option<string>): BattingTotals
    decreases |players|
  {
    if |players| == 0 then acc
    else AggregateBattingFrom(BattingStep(acc, players[0], selected), players[1..], selected)
  }

  /** The dashboard's batting totals: each is the sum of that field over the
      selected player's entries. */
  function AggregateBatting(players: seq<Player>, selected: Option<string>): (t: BattingTotals)
    ensures forall f :: IsBattingField(f) ==> BattingValue(t, f) == Total(players, selected, f)
  {
    BattingFromFields(ZeroBatting, players, selected);
    AggregateBattingFrom(ZeroBatting, players, selected)
  }

  /** The pitching step reads `H`, `R`, `BB` and `K` from the same stat line as the
      batting step does; it builds no `AB` field. */
  function PitchingStep(acc: PitchingTotals, p: Player, selected: Option<string>): PitchingTotals {
    if Selects(selected, p) then
      var s := p.stats;
      PitchingTotals(acc.IP + s.IP, acc.H + s.H, acc.R + s.R, acc.ER + s.ER, acc.BB + s.BB, acc.K + s.K,
                     acc.HBP + s.HBP, acc.WP + s.WP, acc.BK + s.BK, acc.W + s.W, acc.L + s.L, acc.SV + s.SV,
                     None)
    else
      acc
  }

  function AggregatePitchingFrom(acc: PitchingTotals, players: seq<Player>, selected: Option<string>): PitchingTotals
    decreases |players|
  {
    if |players| == 0 then acc
    else AggregatePitchingFrom(PitchingStep(acc, players[0], selected), players[1..], selected)
  }

  /** The dashboard's pitching totals: each is the sum of that field over the
      selected player's entries, and the totals never carry an at-bats field. */
  function AggregatePitching(players: seq<Player>, selected: Option<string>): (t: PitchingTotals)
    ensures t.AB == None
    ensures forall f :: IsPitchingField(f) ==> PitchingValue(t, f) == Total(players, selected, f)
  {
    PitchingFromFields(ZeroPitching, players, selected);
    AggregatePitchingFrom(ZeroPitching, players, selected)
  }

  // ---------------------------------------------------------------------------
  // The reference definition: a field of the totals is the sum of that field
  // over the entries whose id is the selected one.

  datatype Field =
    | AtBats | Hits | Doubles | Triples | HomeRuns | RunsBattedIn | Runs | Walks | Strikeouts | StolenBases
    | InningsPitched | EarnedRuns | Wins | Losses | Saves | HitByPitch | WildPitches | Balks

  /** The value of one field of a stat line (innings are the only non-integral field). */
  function Value(s: DayStats, f: Field): real {
    match f
    case AtBats => s.AB as real
    case Hits => s.H as real
    case Doubles => s.doubles as real
    case Triples => s.triples as real
    case HomeRuns => s.HR as real
    case RunsBattedIn => s.RBI as real
    case Runs => s.R as real
    case Walks => s.BB as real
    case Strikeouts => s.K as real
    case StolenBases => s.SB as real
    case InningsPitched => s.IP
    case EarnedRuns => s.ER as real
    case Wins => s.W as real
    case Losses => s.L as real
    case Saves => s.SV as real
    case HitByPitch => s.HBP as real
    case WildPitches => s.WP as real
    case Balks => s.BK as real
  }

  /** Sum of field `f` over the entries of `players` whose id is `selected`. */
  function Total(players: seq<Player>, selected: Option<string>, f: Field): real
    decreases |players|
  {
    if |players| == 0 then 0.0
    else (if Selects(selected, players[0]) then Value(players[0].stats, f) else 0.0)
         + Total(players[1..], selected, f)
  }

  predicate IsBattingField(f: Field) {
    f.AtBats? || f.Hits? || f.Doubles? || f.Triples? || f.HomeRuns? ||
    f.RunsBattedIn? || f.Runs? || f.Walks? || f.Strikeouts? || f.StolenBases?
  }

  predicate IsPitchingField(f: Field) {
    f.InningsPitched? || f.Hits? || f.Runs? || f.EarnedRuns? || f.Walks? || f.Strikeouts? ||
    f.HitByPitch? || f.WildPitches? || f.Balks? || f.Wins? || f.Losses? || f.Saves?
  }

  function BattingValue(t: BattingTotals, f: Field): real
    requires IsBattingField(f)
  {
    match f
    case AtBats => t.AB as real
    case Hits => t.H as real
    case Doubles => t.doubles as real
    case Triples => t.triples as real
    case HomeRuns => t.HR as real
    case RunsBattedIn => t.RBI as real
    case Runs => t.R as real
    case Walks => t.BB as real
    case Strikeouts => t.K as real
    case StolenBases => t.SB as real
  }

  function PitchingValue(t: PitchingTotals, f: Field): real
    requires IsPitchingField(f)
  {
    match f
    case InningsPitched => t.IP
    case Hits => t.H as real
    case Runs => t.R as real
    case EarnedRuns => t.ER as real
    case Walks => t.BB as real
    case Strikeouts => t.K as real
    case HitByPitch => t.HBP as real
    case WildPitches => t.WP as real
    case Balks => t.BK as real
    case Wins => t.W as real
    case Losses => t.L as real
    case Saves => t.SV as real
  }

  // ---------------------------------------------------------------------------
  // Properties of the reference sum.

  lemma {:induction false} TotalConcat(a: seq<Player>, b: seq<Player>, selected: Option<string>, f: Field)
    ensures Total(a + b, selected, f) == Total(a, selected, f) + Total(b, selected, f)
    decreases |a|
  {
    if |a| > 0 {
      assert (a + b)[0] == a[0];
      assert (a + b)[1..] == a[1..] + b;
      TotalConcat(a[1..], b, selected, f);
    } else {
      assert a + b == b;
    }
  }

  /** Taking entry `k` out of the list removes exactly its contribution. */
  lemma TotalRemove(b: seq<Player>, k: nat, selected: Option<string>, f: Field)
    requires k < |b|
    ensures Total(b, selected, f) == Total([b[k]], selected, f) + Total(b[..k] + b[k+1..], selected, f)
  {
    assert b == b[..k] + [b[k]] + b[k+1..];
    TotalConcat(b[..k] + [b[k]], b[k+1..], selected, f);
    TotalConcat(b[..k], [b[k]], selected, f);
    TotalConcat(b[..k], b[k+1..], selected, f);
  }

  /** Removing the same element from two lists with equal multisets keeps them equal. */
  lemma MultisetRemove<T>(a: seq<T>, b: seq<T>, k: nat)
    requires multiset(a) == multiset(b)
    requires 0 < |a| && k < |b| && b[k] == a[0]
    ensures multiset(a[1..]) == multiset(b[..k] + b[k+1..])
  {
    assert a == [a[0]] + a[1..];
    assert b == b[..k] + [b[k]] + b[k+1..];
    assert multiset(a[1..]) == multiset(a) - multiset{a[0]};
    assert multiset(b[..k] + b[k+1..]) == multiset(b) - multiset{b[k]};
  }

  /** The sum depends only on which entries are present, not on their order. */
  lemma {:induction false} TotalPermutation(a: seq<Player>, b: seq<Player>, selected: Option<string>, f: Field)
    requires multiset(a) == multiset(b)
    ensures Total(a, selected, f) == Total(b, selected, f)
    decreases |a|
  {
    if |a| == 0 {
      assert |b| == |multiset(b)| == 0;
    } else {
      assert a[0] in multiset(b);
      var k :| 0 <= k < |b| && b[k] == a[0];
      MultisetRemove(a, b, k);
      TotalPermutation(a[1..], b[..k] + b[k+1..], selected, f);
      TotalRemove(b, k, selected, f);
    }
  }

  /** An entry that is not the selected player's contributes nothing. */
  lemma {:induction false} TotalNoMatch(players: seq<Player>, selected: Option<string>, f: Field)
    requires forall i :: 0 <= i < |players| ==> !Selects(selected, players[i])
    ensures Total(players, selected, f) == 0.0
    decreases |players|
  {
    if |players| > 0 {
      TotalNoMatch(players[1..], selected, f);
    }
  }

  lemma TotalIgnoresUnselected(players: seq<Player>, i: nat, q: Player, selected: Option<string>, f: Field)
    requires i <= |players|
    requires !Selects(selected, q)
    ensures Total(players[..i] + [q] + players[i..], selected, f) == Total(players, selected, f)
  {
    TotalConcat(players[..i] + [q], players[i..], selected, f);
    TotalConcat(players[..i], [q], selected, f);
    TotalConcat(players[..i], players[i..], selected, f);
    assert players[..i] + players[i..] == players;
  }

  // ---------------------------------------------------------------------------
  // The folds compute the reference sums.

  lemma {:induction false} BattingFromFields(acc: BattingTotals, players: seq<Player>, selected: Option<string>)
    ensures forall f :: IsBattingField(f) ==>
      BattingValue(AggregateBattingFrom(acc, players, selected), f) == BattingValue(acc, f) + Total(players, selected, f)
    decreases |players|
  {
    if |players| > 0 {
      BattingFromFields(BattingStep(acc, players[0], selected), players[1..], selected);
    }
  }

  lemma {:induction false} PitchingFromFields(acc: PitchingTotals, players: seq<Player>, selected: Option<string>)
    requires acc.AB.None?
    ensures AggregatePitchingFrom(acc, players, selected).AB.None?
    ensures forall f :: IsPitchingField(f) ==>
      PitchingValue(AggregatePitchingFrom(acc, players, selected), f) == PitchingValue(acc, f) + Total(players, selected, f)
    decreases |players|
  {
    if |players| > 0 {
      PitchingFromFields(PitchingStep(acc, players[0], selected), players[1..], selected);
    }
  }

  lemma BattingExtensional(a: BattingTotals, b: BattingTotals)
    requires forall f :: IsBattingField(f) ==> BattingValue(a, f) == BattingValue(b, f)
    ensures a == b
  {
    assert BattingValue(a, AtBats) == BattingValue(b, AtBats);
    assert BattingValue(a, Hits) == BattingValue(b, Hits);
    assert BattingValue(a, Doubles) == BattingValue(b, Doubles);
    assert BattingValue(a, Triples) == BattingValue(b, Triples);
    assert BattingValue(a, HomeRuns) == BattingValue(b, HomeRuns);
    assert BattingValue(a, RunsBattedIn) == BattingValue(b, RunsBattedIn);
    assert BattingValue(a, Runs) == BattingValue(b, Runs);
    assert BattingValue(a, Walks) == BattingValue(b, Walks);
    assert BattingValue(a, Strikeouts) == BattingValue(b, Strikeouts);
    assert BattingValue(a, StolenBases) == BattingValue(b, StolenBases);
  }

  lemma PitchingExtensional(a: PitchingTotals, b: PitchingTotals)
    requires a.AB == b.AB
    requires forall f :: IsPitchingField(f) ==> PitchingValue(a, f) == PitchingValue(b, f)
    ensures a == b
  {
    assert PitchingValue(a, InningsPitched) == PitchingValue(b, InningsPitched);
    assert PitchingValue(a, Hits) == PitchingValue(b, Hits);
    assert PitchingValue(a, Runs) == PitchingValue(b, Runs);
    assert PitchingValue(a, EarnedRuns) == PitchingValue(b, EarnedRuns);
    assert PitchingValue(a, Walks) == PitchingValue(b, Walks);
    assert PitchingValue(a, Strikeouts) == PitchingValue(b, Strikeouts);
    assert PitchingValue(a, HitByPitch) == PitchingValue(b, HitByPitch);
    assert PitchingValue(a, WildPitches) == PitchingValue(b, WildPitches);
    assert PitchingValue(a, Balks) == PitchingValue(b, Balks);
    assert PitchingValue(a, Wins) == PitchingValue(b, Wins);
    assert PitchingValue(a, Losses) == PitchingValue(b, Losses);
    assert PitchingValue(a, Saves) == PitchingValue(b, Saves);
  }

  // ---------------------------------------------------------------------------
  // Consequences for the dashboard.

  /** Reordering the player list does not change the batting totals. */
  lemma BattingOrderIndependent(a: seq<Player>, b: seq<Player>, selected: Option<string>)
    requires multiset(a) == multiset(b)
    ensures AggregateBatting(a, selected) == AggregateBatting(b, selected)
  {
    forall f | IsBattingField(f)
      ensures BattingValue(AggregateBatting(a, selected), f) == BattingValue(AggregateBatting(b, selected), f)
    {
      TotalPermutation(a, b, selected, f);
    }
    BattingExtensional(AggregateBatting(a, selected), AggregateBatting(b, selected));
  }

  /** Reordering the player list does not change the pitching totals. */
  lemma PitchingOrderIndependent(a: seq<Player>, b: seq<Player>, selected: Option<string>)
    requires multiset(a) == multiset(b)
    ensures AggregatePitching(a, selected) == AggregatePitching(b, selected)
  {
    forall f | IsPitchingField(f)
      ensures PitchingValue(AggregatePitching(a, selected), f) == PitchingValue(AggregatePitching(b, selected), f)
    {
      TotalPermutation(a, b, selected, f);
    }
    PitchingExtensional(AggregatePitching(a, selected), AggregatePitching(b, selected));
  }

  /** With no entry for the selected id (or no selection at all) both totals are the zero records. */
  lemma NoMatchGivesZero(players: seq<Player>, selected: Option<string>)
    requires forall i :: 0 <= i < |players| ==> !Selects(selected, players[i])
    ensures AggregateBatting(players, selected) == ZeroBatting
    ensures AggregatePitching(players, selected) == ZeroPitching
  {
    forall f ensures Total(players, selected, f) == 0.0 {
      TotalNoMatch(players, selected, f);
    }
    BattingExtensional(AggregateBatting(players, selected), ZeroBatting);
    PitchingExtensional(AggregatePitching(players, selected), ZeroPitching);
  }

  /** Inserting another player's entry anywhere in the list changes neither total. */
  lemma UnselectedEntryIgnored(players: seq<Player>, i: nat, q: Player, selected: Option<string>)
    requires i <= |players|
    requires !Selects(selected, q)
    ensures AggregateBatting(players[..i] + [q] + players[i..], selected) == AggregateBatting(players, selected)
    ensures AggregatePitching(players[..i] + [q] + players[i..], selected) == AggregatePitching(players, selected)
  {
    var longer := players[..i] + [q] + players[i..];
    forall f ensures Total(longer, selected, f) == Total(players, selected, f) {
      TotalIgnoresUnselected(players, i, q, selected, f);
    }
    BattingExtensional(AggregateBatting(longer, selected), AggregateBatting(players, selected));
    PitchingExtensional(AggregatePitching(longer, selected), AggregatePitching(players, selected));
  }

  /** Hits, runs, walks and strikeouts of the pitching totals are read from the same
      stat-line fields as the batting totals, so the two agree on them. */
  lemma SharedFieldsAgree(players: seq<Player>, selected: Option<string>)
    ensures AggregatePitching(players, selected).H == AggregateBatting(players, selected).H
    ensures AggregatePitching(players, selected).R == AggregateBatting(players, selected).R
    ensures AggregatePitching(players, selected).BB == AggregateBatting(players, selected).BB
    ensures AggregatePitching(players, selected).K == AggregateBatting(players, selected).K
  {
    assert PitchingValue(AggregatePitching(players, selected), Hits) == BattingValue(AggregateBatting(players, selected), Hits);
    assert PitchingValue(AggregatePitching(players, selected), Runs) == BattingValue(AggregateBatting(players, selected), Runs);
    assert PitchingValue(AggregatePitching(players, selected), Walks) == BattingValue(AggregateBatting(players, selected), Walks);
    assert PitchingValue(AggregatePitching(players, selected), Strikeouts) == BattingValue(AggregateBatting(players, selected), Strikeouts);
  }
}
