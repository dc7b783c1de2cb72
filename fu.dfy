/** Fu (point units) of a winning hand and their rounding. */
module FuCalc {
  import opened Hand

  /** Fu of one meld: a triplet is worth 8 when yaochu and 4 otherwise, half
      that when open; a run is worth nothing. */
  function MeldFu(m: Meld): (r: int)
    ensures r in {0, 2, 4, 8}
    ensures r == 0 <==> m.meldType != Koutsu
  {
    if m.meldType == Koutsu then
      var closedFu := if m.isYaochu then 8 else 4;
      if m.isOpen then closedFu / 2 else closedFu
    else
      0
  }

  /** Total fu of a sequence of melds, taken in order. */
  function MeldSum(ms: seq<Meld>): (r: int)
    ensures 0 <= r <= 8 * |ms|
    ensures r % 2 == 0
  {
    if ms == [] then 0 else MeldSum(ms[..|ms| - 1]) + MeldFu(ms[|ms| - 1])
  }

  /** Win-method fu: 2 for a closed tsumo, 10 for a closed ron, nothing for an
      open hand. */
  function WinMethodFu(s: State): (r: int)
    ensures r in {0, 2, 10}
    ensures r == 0 <==> !s.isMenzen
    ensures r == 10 <==> s.isMenzen && s.isRon
  {
    if !s.isRon && s.isMenzen then 2
    else if s.isRon && s.isMenzen then 10
    else 0
  }

  /** Wait fu: 2 for kanchan, penchan and tanki, 0 for ryanmen and shanpon. */
  function WaitFu(w: Wait): (r: int)
    ensures r in {0, 2}
    ensures r == 2 <==> w in {Kanchan, Penchan, Tanki}
  {
    if w == Kanchan || w == Penchan || w == Tanki then 2 else 0
  }

  /** Pair fu: 2 for a yakuhai pair (a double-yakuhai pair is not told apart). */
  function PairFu(p: Pair): (r: int)
    ensures r in {0, 2}
    ensures r == 2 <==> p.isYakuhai
  {
    if p.isYakuhai then 2 else 0
  }

  /** Fu of a standard hand outside the pinfu shortcut: the base 20 plus the
      win-method, wait, pair and meld fu. Always even. */
  function StandardFu(s: State): (r: int)
    ensures r % 2 == 0
    ensures 20 <= r <= 34 + 8 * |s.melds|
  {
    20 + WinMethodFu(s) + WaitFu(s.wait) + PairFu(s.pair) + MeldSum(s.melds)
  }

  /** Unrounded fu of the hand, the specification of CalculateFu. Only a
      seven-pairs hand is worth 25, because every other total is even. */
  function Fu(s: State): (r: int)
    ensures r >= 20
    ensures r == 25 <==> s.handType == Chiitoitsu
  {
    if s.handType == Chiitoitsu then 25
    else if s.isPinfu then (if s.isRon then 30 else 20)
    else StandardFu(s)
  }

  /** Computes the unrounded fu the way the calculator does: early returns for
      seven pairs and pinfu, then conditional increments and a pass over the
      melds. */
  method CalculateFu(s: State) returns (fu: int)
    ensures fu == Fu(s)
  {
    if s.handType == Chiitoitsu {
      return 25;
    }
    if s.isPinfu {
      return if s.isRon then 30 else 20;
    }
    fu := 20;
    if !s.isRon && s.isMenzen {
      fu := fu + 2;
    }
    if s.isRon && s.isMenzen {
      fu := fu + 10;
    }
    if s.wait in [Kanchan, Penchan, Tanki] {
      fu := fu + 2;
    }
    if s.pair.isYakuhai {
      fu := fu + 2;
    }
    var i := 0;
    while i < |s.melds|
      invariant 0 <= i <= |s.melds|
      invariant fu == 20 + WinMethodFu(s) + WaitFu(s.wait) + PairFu(s.pair) + MeldSum(s.melds[..i])
    {
      var meld := s.melds[i];
      if meld.meldType == Koutsu {
        var meldFu := if meld.isYaochu then 8 else 4;
        if meld.isOpen {
          meldFu := meldFu / 2;
        }
        fu := fu + meldFu;
      }
      assert s.melds[..i + 1][..i] == s.melds[..i];
      i := i + 1;
    }
    assert s.melds[..i] == s.melds;
  }

  /** Rounds fu up to a multiple of 10, except that 25 stays 25: the result is
      the one multiple of 10 in [fu, fu + 10). */
  function RoundUpFu(fu: int): (r: int)
    ensures fu == 25 ==> r == 25
    ensures fu != 25 ==> r % 10 == 0 && fu <= r < fu + 10
  {
    if fu == 25 then 25 else ((fu + 9) / 10) * 10
  }

  /** Rounding an already rounded fu changes nothing. */
  lemma RoundUpFuIdempotent(fu: int)
    ensures RoundUpFu(RoundUpFu(fu)) == RoundUpFu(fu)
  {
  }

  /** A triplet: closed it is worth 8 (yaochu) or 4, open exactly half of that. */
  lemma TripletFu(m: Meld)
    requires m.meldType == Koutsu
    ensures !m.isOpen ==> MeldFu(m) == (if m.isYaochu then 8 else 4)
    ensures m.isOpen ==> 2 * MeldFu(m) == MeldFu(m.(isOpen := false))
  {
  }

  /** Melds without a triplet carry no fu at all. */
  lemma {:induction false} MeldSumNoTriplets(ms: seq<Meld>)
    requires forall i | 0 <= i < |ms| :: ms[i].meldType == Shuntsu
    ensures MeldSum(ms) == 0
  {
    if ms != [] {
      MeldSumNoTriplets(ms[..|ms| - 1]);
    }
  }

  /** Seven pairs is worth 25 fu whatever the form says about the rest, and
      25 survives rounding. */
  lemma ChiitoitsuFu(f: Form)
    requires f.chiitoitsuChecked
    ensures var s := BuildState(f);
      s.isMenzen && s.wait == Tanki && s.melds == [] &&
      Fu(s) == 25 && RoundUpFu(Fu(s)) == 25
  {
  }

  /** A pinfu hand is worth 30 fu on ron and 20 on tsumo, whatever its wait,
      pair and melds. */
  lemma PinfuFu(s: State)
    requires s.handType == Standard && s.isPinfu
    ensures Fu(s) == (if s.isRon then 30 else 20)
    ensures forall w: Wait, p: Pair, ms: seq<Meld> ::
      Fu(s.(wait := w, pair := p, melds := ms)) == Fu(s)
  {
  }

  /** On a pinfu hand the controls allow, the general rule gives 30 fu on ron,
      as the shortcut does, and 22 on tsumo, which the shortcut overrides
      with 20. */
  lemma PinfuShortcut(f: Form)
    requires ControlsApplied(f) && f.isPinfu
    ensures StandardFu(BuildState(f)) == (if f.isRon then 30 else 22)
    ensures Fu(BuildState(f)) == (if f.isRon then 30 else 20)
  {
    var s := BuildState(f);
    ControlsAppliedState(f);
    MeldSumNoTriplets(s.melds);
  }

  /** A standard hand with at most four melds lies between 20 and 66 fu, and
      rounds to one of 20, 30, ..., 70. */
  lemma StandardFuRange(s: State)
    requires s.handType == Standard && |s.melds| <= 4
    ensures 20 <= Fu(s) <= 66
    ensures RoundUpFu(Fu(s)) in {20, 30, 40, 50, 60, 70}
  {
  }

  /** A closed kanchan-wait hand of closed runs and a plain pair: ron adds up
      to 20 + 10 + 2 = 32 and rounds to 40, tsumo to 20 + 2 + 2 = 24 and
      rounds to 30. */
  lemma KanchanExample(isRon: bool)
    ensures var run := Meld(Shuntsu, false, false);
      var s := BuildState(Form(false, 1, false, false, false, isRon, Kanchan, false,
                               [run, run, run, run]));
      Fu(s) == (if isRon then 32 else 24) &&
      RoundUpFu(Fu(s)) == (if isRon then 40 else 30)
  {
    var run := Meld(Shuntsu, false, false);
    MeldSumNoTriplets([run, run, run, run]);
  }
}
