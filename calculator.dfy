/** One run of the calculator (mainUpdate): read the form, count and round the
    fu, score the hand, rebuild the grid and find the cell to highlight. */
module Calculator {
  import opened Hand
  import opened FuCalc
  import opened Scoring
  import opened ScoreTable

  /** Everything one run produces for display. */
  datatype Outcome = Outcome(
    state: State,
    unroundedFu: int,
    roundedFu: int,
    score: Score,
    table: seq<seq<Cell>>,
    highlight: Option<(nat, nat)>)

  /** The han axis holds exactly the han values 1 to 13. */
  lemma HanOnAxis(han: int)
    ensures han in HanHeaders <==> 1 <= han <= 13
  {
  }

  /** The rounded fu of any hand with at most four melds is a column of the
      grid: 25 for seven pairs, 20 or 30 for pinfu, 20 to 70 otherwise. */
  lemma RoundedFuOnAxis(s: State)
    requires |s.melds| <= 4
    ensures RoundUpFu(Fu(s)) in FuHeaders
  {
  }

  /** Runs the pipeline on the form. For a form with at most four meld groups
      a cell is highlighted exactly when han is between 1 and 13, and unless
      it is the placeholder it shows the points of the score just computed. */
  method MainUpdate(f: Form) returns (out: Outcome)
    requires f.han >= 0
    ensures out.state == BuildState(f)
    ensures out.unroundedFu == Fu(out.state)
    ensures out.roundedFu == RoundUpFu(out.unroundedFu)
    ensures out.score == CalculateScore(f.han, out.roundedFu, f.isOya)
    ensures |out.table| == |HanHeaders|
    ensures forall i | 0 <= i < |out.table| :: |out.table[i]| == |FuHeaders|
    ensures forall i, j | 0 <= i < |out.table| && 0 <= j < |FuHeaders| ::
      out.table[i][j] == CellAt(HanHeaders[i], FuHeaders[j], f.isOya, f.isRon)
    ensures out.highlight == LocateCell(f.han, out.roundedFu)
    ensures |f.meldGroups| <= 4 ==> (out.highlight.Some? <==> 1 <= f.han <= 13)
    ensures out.highlight.Some? && !(f.han == 1 && out.roundedFu == 20) ==>
      var (row, col) := out.highlight.value;
      row < |out.table| && col < |out.table[row]| &&
      out.table[row][col] == Points(SeatValue(out.score, f.isOya, f.isRon))
  {
    var state := BuildState(f);
    var unroundedFu := CalculateFu(state);
    var roundedFu := RoundUpFu(unroundedFu);
    var score := CalculateScore(state.han, roundedFu, state.isOya);
    var table := GenerateScoreTable(state.isOya, state.isRon);
    var highlight := LocateCell(state.han, roundedFu);
    out := Outcome(state, unroundedFu, roundedFu, score, table, highlight);
    HanOnAxis(f.han);
    if |f.meldGroups| <= 4 {
      RoundedFuOnAxis(state);
    }
  }
}
