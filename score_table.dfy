/** The reference grid of scores over the han and fu axes, and the lookup of
    the cell that matches the current hand. */
module ScoreTable {
  import opened Scoring

  datatype Option<T> = None | Some(value: T)

  /** Fu axis of the grid (columns). */
  const FuHeaders: seq<int> := [20, 25, 30, 40, 50, 60, 70, 80, 90, 100, 110]

  /** Han axis of the grid (rows). */
  const HanHeaders: seq<int> := [1, 2, 3, 4, 5, 6, 7, 8, 9, 10, 11, 12, 13]

  /** A grid cell: the "-" placeholder, or a number of points. */
  datatype Cell = Placeholder | Points(points: int)

  /** What each of the three other players pays on a tsumo below the tiers:
      the same share from everyone to a dealer; to a non-dealer, the dealer's
      share from the dealer and the other share from the two others. */
  function TsumoShares(score: Score): seq<int>
    requires !score.Named?
  {
    if score.DealerScore? then [score.tsumo, score.tsumo, score.tsumo]
    else [score.tsumoOya, score.tsumoKo, score.tsumoKo]
  }

  function Sum(xs: seq<int>): int
  {
    if xs == [] then 0 else xs[0] + Sum(xs[1..])
  }

  /** The number a cell shows for a score: a named tier's total for the seat;
      otherwise the ron payment, or on tsumo what the three other players pay
      together. */
  function SeatValue(score: Score, isOya: bool, isRon: bool): (r: int)
    ensures score.Named? ==> r == (if isOya then score.oya else score.ko)
    ensures !score.Named? && isRon ==> r == score.ron
    ensures !score.Named? && !isRon ==> r == Sum(TsumoShares(score))
  {
    match score
    case Named(_, oya, ko) => if isOya then oya else ko
    case DealerScore(ron, tsumo) =>
      SumOfThree(tsumo, tsumo, tsumo);
      if isRon then ron else tsumo * 3
    case NonDealerScore(ron, tsumoOya, tsumoKo) =>
      SumOfThree(tsumoOya, tsumoKo, tsumoKo);
      if isRon then ron else tsumoOya + tsumoKo * 2
  }

  lemma SumOfThree(a: int, b: int, c: int)
    ensures Sum([a, b, c]) == a + b + c
  {
    assert [a, b, c][1..] == [b, c];
    assert [b, c][1..] == [c];
    assert [c][1..] == [];
    assert Sum([c]) == c;
    assert Sum([b, c]) == b + c;
  }

  /** The cell at (han, fu) for a seat and a win method. Only (1, 20) is the
      placeholder; every number is a whole number of hundreds and at most the
      dealer yakuman total, and it is positive when fu is. */
  function CellAt(han: int, fu: int, isOya: bool, isRon: bool): (c: Cell)
    requires han >= 0
    ensures c.Placeholder? <==> han == 1 && fu == 20
    ensures c.Points? ==> c.points % 100 == 0 && c.points <= 48000
    ensures c.Points? && fu > 0 ==> c.points > 0
    ensures c.Points? ==> c.points == SeatValue(CalculateScore(han, fu, isOya), isOya, isRon)
  {
    if han == 1 && fu == 20 then Placeholder
    else
      SeatValueBounds(han, fu, isOya, isRon);
      Points(SeatValue(CalculateScore(han, fu, isOya), isOya, isRon))
  }

  lemma HundredsCombine(x: int, y: int)
    requires x % 100 == 0 && y % 100 == 0
    ensures (x * 3) % 100 == 0 && (x + y * 2) % 100 == 0
  {
    var p, q := x / 100, y / 100;
    assert x * 3 == 100 * (3 * p);
    assert x + y * 2 == 100 * (p + 2 * q);
  }

  /** The formula's payments, shown for a seat and win method, are whole
      hundreds, at most the mangan total, and positive for positive base
      points. */
  lemma PaymentsShown(basePoints: int, isOya: bool, isRon: bool)
    requires basePoints <= 2000
    ensures var v := SeatValue(PaymentsOf(basePoints, isOya), isOya, isRon);
      v % 100 == 0 && v <= (if isOya then 12000 else 8000) && (basePoints > 0 ==> v > 0)
  {
    FormulaBelowMangan(basePoints, isOya);
    match PaymentsOf(basePoints, isOya)
    case DealerScore(_, tsumo) => HundredsCombine(tsumo, 0);
    case NonDealerScore(_, tsumoOya, tsumoKo) => HundredsCombine(tsumoOya, tsumoKo);
  }

  /** What any shown score satisfies: whole hundreds, at most 48000, and
      positive for a positive fu. */
  lemma SeatValueBounds(han: int, fu: int, isOya: bool, isRon: bool)
    requires han >= 0
    ensures var v := SeatValue(CalculateScore(han, fu, isOya), isOya, isRon);
      v % 100 == 0 && v <= 48000 && (fu > 0 ==> v > 0)
  {
    var r := CalculateScore(han, fu, isOya);
    if r.Named? {
      TierBands(han, fu, isOya);
    } else {
      if fu > 0 {
        BasePointsPositive(han, fu);
      }
      PaymentsShown(BasePoints(han, fu), isOya, isRon);
    }
  }

  /** Builds one row of the grid, column by column. */
  method GenerateRow(han: int, isOya: bool, isRon: bool) returns (row: seq<Cell>)
    requires han >= 0
    ensures |row| == |FuHeaders|
    ensures forall j | 0 <= j < |row| :: row[j] == CellAt(han, FuHeaders[j], isOya, isRon)
  {
    row := [];
    var j := 0;
    while j < |FuHeaders|
      invariant 0 <= j <= |FuHeaders|
      invariant |row| == j
      invariant forall l | 0 <= l < j :: row[l] == CellAt(han, FuHeaders[l], isOya, isRon)
    {
      var fu := FuHeaders[j];
      var cell;
      if han == 1 && fu == 20 {
        cell := Placeholder;
      } else {
        var score := CalculateScore(han, fu, isOya);
        cell := Points(SeatValue(score, isOya, isRon));
      }
      row := row + [cell];
      j := j + 1;
    }
  }

  /** Builds the grid row by row (generateScoreTable without the HTML). */
  method GenerateScoreTable(isOya: bool, isRon: bool) returns (table: seq<seq<Cell>>)
    ensures |table| == |HanHeaders|
    ensures forall i | 0 <= i < |table| :: |table[i]| == |FuHeaders|
    ensures forall i, j | 0 <= i < |table| && 0 <= j < |FuHeaders| ::
      table[i][j] == CellAt(HanHeaders[i], FuHeaders[j], isOya, isRon)
  {
    table := [];
    var i := 0;
    while i < |HanHeaders|
      invariant 0 <= i <= |HanHeaders|
      invariant |table| == i
      invariant forall k | 0 <= k < i :: |table[k]| == |FuHeaders|
      invariant forall k, j | 0 <= k < i && 0 <= j < |FuHeaders| ::
        table[k][j] == CellAt(HanHeaders[k], FuHeaders[j], isOya, isRon)
    {
      var row := GenerateRow(HanHeaders[i], isOya, isRon);
      table := table + [row];
      i := i + 1;
    }
  }

  /** Position of the first occurrence of `x` in `s`, if any. */
  function IndexOf(s: seq<int>, x: int): (r: Option<nat>)
    ensures r.Some? ==> r.value < |s| && s[r.value] == x
    ensures r.None? <==> x !in s
  {
    if s == [] then None
    else if s[0] == x then Some(0)
    else match IndexOf(s[1..], x)
      case None => None
      case Some(k) => Some(k + 1)
  }

  /** The (row, column) of the cell the calculator highlights for a hand of
      `han` han and `fu` rounded fu; none when either value is off the axes. */
  function LocateCell(han: int, fu: int): (r: Option<(nat, nat)>)
    ensures r.Some? ==>
      r.value.0 < |HanHeaders| && r.value.1 < |FuHeaders| &&
      HanHeaders[r.value.0] == han && FuHeaders[r.value.1] == fu
    ensures r.Some? <==> han in HanHeaders && fu in FuHeaders
  {
    var row, col := IndexOf(HanHeaders, han), IndexOf(FuHeaders, fu);
    if row.Some? && col.Some? then Some((row.value, col.value)) else None
  }

  /** The grid's single placeholder is its top-left cell. */
  lemma PlaceholderOnlyAtOrigin(isOya: bool, isRon: bool, i: nat, j: nat)
    requires i < |HanHeaders| && j < |FuHeaders|
    ensures CellAt(HanHeaders[i], FuHeaders[j], isOya, isRon).Placeholder? <==> i == 0 && j == 0
  {
  }

  /** A named tier shows at least the mangan total for the seat. */
  lemma NamedAtLeastMangan(han: int, fu: int, isOya: bool, isRon: bool)
    requires han >= 0 && CalculateScore(han, fu, isOya).Named?
    ensures SeatValue(CalculateScore(han, fu, isOya), isOya, isRon) >= (if isOya then 12000 else 8000)
  {
    TierBands(han, fu, isOya);
  }

  /** The formula shows at most the mangan total for the seat. */
  lemma FormulaAtMostMangan(han: int, fu: int, isOya: bool, isRon: bool)
    requires han >= 0 && !CalculateScore(han, fu, isOya).Named?
    ensures SeatValue(CalculateScore(han, fu, isOya), isOya, isRon) <= (if isOya then 12000 else 8000)
  {
    PaymentsShown(BasePoints(han, fu), isOya, isRon);
  }

  /** Of two named tiers, the one with more han shows no fewer points. */
  lemma NamedMonotone(han1: int, fu1: int, han2: int, fu2: int, isOya: bool, isRon: bool)
    requires 0 <= han1 <= han2
    requires CalculateScore(han1, fu1, isOya).Named? && CalculateScore(han2, fu2, isOya).Named?
    ensures SeatValue(CalculateScore(han1, fu1, isOya), isOya, isRon)
         <= SeatValue(CalculateScore(han2, fu2, isOya), isOya, isRon)
  {
    TierBands(han1, fu1, isOya);
    TierBands(han2, fu2, isOya);
  }

  /** More base points never show fewer points. */
  lemma PaymentsMonotone(b1: int, b2: int, isOya: bool, isRon: bool)
    requires b1 <= b2
    ensures SeatValue(PaymentsOf(b1, isOya), isOya, isRon) <= SeatValue(PaymentsOf(b2, isOya), isOya, isRon)
  {
    var r1, r2 := PaymentsOf(b1, isOya), PaymentsOf(b2, isOya);
    if isOya {
      RoundUp100Monotone(6 * b1, 6 * b2);
      RoundUp100Monotone(2 * b1, 2 * b2);
      assert r1.ron <= r2.ron && r1.tsumo <= r2.tsumo;
    } else {
      RoundUp100Monotone(4 * b1, 4 * b2);
      RoundUp100Monotone(2 * b1, 2 * b2);
      RoundUp100Monotone(b1, b2);
      assert r1.ron <= r2.ron && r1.tsumoOya <= r2.tsumoOya && r1.tsumoKo <= r2.tsumoKo;
    }
  }

  /** Along a row, more fu never shows fewer points. */
  lemma RowMonotone(han: int, fu1: int, fu2: int, isOya: bool, isRon: bool)
    requires han >= 0 && fu1 <= fu2
    ensures SeatValue(CalculateScore(han, fu1, isOya), isOya, isRon)
         <= SeatValue(CalculateScore(han, fu2, isOya), isOya, isRon)
  {
    var r1, r2 := CalculateScore(han, fu1, isOya), CalculateScore(han, fu2, isOya);
    BasePointsMonotoneInFu(han, fu1, fu2);
    if r1.Named? {
      NamedMonotone(han, fu1, han, fu2, isOya, isRon);
    } else if r2.Named? {
      FormulaAtMostMangan(han, fu1, isOya, isRon);
      NamedAtLeastMangan(han, fu2, isOya, isRon);
    } else {
      PaymentsMonotone(BasePoints(han, fu1), BasePoints(han, fu2), isOya, isRon);
    }
  }

  /** Down a column (fu not negative), more han never shows fewer points. */
  lemma ColumnMonotone(han1: int, han2: int, fu: int, isOya: bool, isRon: bool)
    requires 0 <= han1 <= han2 && fu >= 0
    ensures SeatValue(CalculateScore(han1, fu, isOya), isOya, isRon)
         <= SeatValue(CalculateScore(han2, fu, isOya), isOya, isRon)
  {
    var r1, r2 := CalculateScore(han1, fu, isOya), CalculateScore(han2, fu, isOya);
    BasePointsMonotoneInHan(han1, han2, fu);
    if r1.Named? {
      NamedMonotone(han1, fu, han2, fu, isOya, isRon);
    } else if r2.Named? {
      FormulaAtMostMangan(han1, fu, isOya, isRon);
      NamedAtLeastMangan(han2, fu, isOya, isRon);
    } else {
      PaymentsMonotone(BasePoints(han1, fu), BasePoints(han2, fu), isOya, isRon);
    }
  }

  /** The fu columns ascend from left to right. */
  lemma FuHeadersAscending(j1: nat, j2: nat)
    requires j1 <= j2 < |FuHeaders|
    ensures FuHeaders[j1] <= FuHeaders[j2]
  {
  }

  /** In the grid itself, every number in a row is at least the numbers to
      its left (the placeholder aside). */
  lemma GridRowMonotone(isOya: bool, isRon: bool, i: nat, j1: nat, j2: nat)
    requires i < |HanHeaders| && j1 <= j2 < |FuHeaders| && !(i == 0 && j1 == 0)
    ensures var c1, c2 := CellAt(HanHeaders[i], FuHeaders[j1], isOya, isRon),
                          CellAt(HanHeaders[i], FuHeaders[j2], isOya, isRon);
      c1.Points? && c2.Points? && c1.points <= c2.points
  {
    FuHeadersAscending(j1, j2);
    RowMonotone(HanHeaders[i], FuHeaders[j1], FuHeaders[j2], isOya, isRon);
  }

  /** In the grid itself, every number in a column is at least the numbers
      above it (the placeholder aside). */
  lemma GridColumnMonotone(isOya: bool, isRon: bool, i1: nat, i2: nat, j: nat)
    requires i1 <= i2 < |HanHeaders| && j < |FuHeaders| && !(i1 == 0 && j == 0)
    ensures var c1, c2 := CellAt(HanHeaders[i1], FuHeaders[j], isOya, isRon),
                          CellAt(HanHeaders[i2], FuHeaders[j], isOya, isRon);
      c1.Points? && c2.Points? && c1.points <= c2.points
  {
    ColumnMonotone(HanHeaders[i1], HanHeaders[i2], FuHeaders[j], isOya, isRon);
  }
}
