/** Points of a hand from its han and rounded fu: the named limit tiers, and
    below them the base-points formula with payments rounded up to 100. */
module Scoring {

  /** 2 to the power n. */
  function Pow2(n: nat): (r: nat)
    ensures r >= 1
  {
    if n == 0 then 1 else 2 * Pow2(n - 1)
  }

  /** Base points: fu times 2 to the power han + 2. At no han they are four
      times the fu, and every further han doubles them. */
  function BasePoints(han: int, fu: int): (r: int)
    requires han >= 0
    ensures han == 0 ==> r == 4 * fu
    ensures han > 0 ==> r == 2 * BasePoints(han - 1, fu)
  {
    DoubleMul(fu, Pow2(han + 1));
    fu * Pow2(han + 2)
  }

  lemma DoubleMul(a: int, b: int)
    ensures a * (2 * b) == 2 * (a * b)
  {
  }

  /** Rounds a payment up to the next multiple of 100: the one multiple of 100
      in [x, x + 100). */
  function RoundUp100(x: int): (r: int)
    ensures RoundedPayment(r, x)
  {
    ((x + 99) / 100) * 100
  }

  /** The named limit tiers: yakuman (役満), sanbaiman (三倍満), baiman (倍満),
      haneman (跳満) and mangan (満貫). */
  datatype Tier = Yakuman | Sanbaiman | Baiman | Haneman | Mangan

  /** A named tier with its dealer (oya) and non-dealer (ko) totals, or the
      payments of a dealer win (ron, and tsumo from each opponent), or those of
      a non-dealer win (ron, and tsumo from the dealer and from each other
      player). */
  datatype Score =
    | Named(tier: Tier, oya: int, ko: int)
    | DealerScore(ron: int, tsumo: int)
    | NonDealerScore(ron: int, tsumoOya: int, tsumoKo: int)

  /** `p` is the payment `raw` rounded up to 100. */
  predicate RoundedPayment(p: int, raw: int)
  {
    p % 100 == 0 && raw <= p < raw + 100
  }

  /** True when the han/fu thresholds name a tier before any formula is used:
      always from 5 han, from 40 fu at 4 han, from 70 fu at 3 han, and never
      below 3 han. */
  predicate TierByThreshold(han: int, fu: int): (r: bool)
    ensures han >= 5 ==> r
    ensures han == 4 ==> (r <==> fu >= 40)
    ensures han == 3 ==> (r <==> fu >= 70)
    ensures r ==> han >= 3
  {
    han >= 5 || (han == 4 && fu >= 40) || (han == 3 && fu >= 70)
  }

  /** The payments below the tiers for `basePoints` base points, each rounded
      up to 100: a dealer gets 6 shares on ron and 2 from each opponent on
      tsumo; a non-dealer gets 4 shares on ron, 2 from the dealer and 1 from
      each other player on tsumo. */
  function PaymentsOf(basePoints: int, isOya: bool): (r: Score)
    ensures r.DealerScore? <==> isOya
    ensures r.NonDealerScore? <==> !isOya
    ensures r.DealerScore? ==>
      RoundedPayment(r.ron, 6 * basePoints) && RoundedPayment(r.tsumo, 2 * basePoints)
    ensures r.NonDealerScore? ==>
      RoundedPayment(r.ron, 4 * basePoints) &&
      RoundedPayment(r.tsumoOya, 2 * basePoints) &&
      RoundedPayment(r.tsumoKo, basePoints)
  {
    if isOya then
      DealerScore(RoundUp100(basePoints * 6), RoundUp100(basePoints * 2))
    else
      NonDealerScore(RoundUp100(basePoints * 4), RoundUp100(basePoints * 2),
                     RoundUp100(basePoints * 1))
  }

  /** The score of a hand (calculateScore). A tier is named exactly when a
      threshold matches or the base points exceed 2000; a tier's dealer total
      is 1.5 times its non-dealer total; otherwise each payment is its share
      of the base points rounded up to 100, with the shape fixed by the seat. */
  function CalculateScore(han: int, fu: int, isOya: bool): (r: Score)
    requires han >= 0
    ensures r.Named? <==> TierByThreshold(han, fu) || BasePoints(han, fu) > 2000
    ensures r.Named? ==> 2 * r.oya == 3 * r.ko
    ensures !r.Named? ==> r == PaymentsOf(BasePoints(han, fu), isOya)
  {
    if han >= 13 then Named(Yakuman, 48000, 32000)
    else if han >= 11 then Named(Sanbaiman, 36000, 24000)
    else if han >= 8 then Named(Baiman, 24000, 16000)
    else if han >= 6 then Named(Haneman, 18000, 12000)
    else if TierByThreshold(han, fu) then Named(Mangan, 12000, 8000)
    else
      var basePoints := BasePoints(han, fu);
      if basePoints > 2000 then Named(Mangan, 12000, 8000)
      else PaymentsOf(basePoints, isOya)
  }

  /** The tiers by han band: the first matching threshold, from the top, wins. */
  lemma TierBands(han: int, fu: int, isOya: bool)
    requires han >= 0
    ensures var r := CalculateScore(han, fu, isOya);
      (han >= 13 ==> r == Named(Yakuman, 48000, 32000)) &&
      (11 <= han < 13 ==> r == Named(Sanbaiman, 36000, 24000)) &&
      (8 <= han < 11 ==> r == Named(Baiman, 24000, 16000)) &&
      (6 <= han < 8 ==> r == Named(Haneman, 18000, 12000)) &&
      (han < 6 && r.Named? ==> r == Named(Mangan, 12000, 8000))
  {
  }

  lemma {:induction false} Pow2Monotone(m: nat, n: nat)
    requires m <= n
    ensures Pow2(m) <= Pow2(n)
  {
    if m < n {
      Pow2Monotone(m, n - 1);
    }
  }

  lemma MulMonotone(a: int, b: int, c: int)
    requires a <= b && c >= 0
    ensures a * c <= b * c
  {
  }

  /** More fu, at the same han, never gives fewer base points. */
  lemma BasePointsMonotoneInFu(han: int, fu1: int, fu2: int)
    requires han >= 0 && fu1 <= fu2
    ensures BasePoints(han, fu1) <= BasePoints(han, fu2)
  {
  }

  /** A positive fu gives positive base points. */
  lemma BasePointsPositive(han: int, fu: int)
    requires han >= 0 && fu > 0
    ensures BasePoints(han, fu) > 0
  {
    MulMonotone(1, fu, Pow2(han + 2));
  }

  /** More han, at the same non-negative fu, never gives fewer base points. */
  lemma BasePointsMonotoneInHan(han1: int, han2: int, fu: int)
    requires 0 <= han1 <= han2 && fu >= 0
    ensures BasePoints(han1, fu) <= BasePoints(han2, fu)
  {
    Pow2Monotone(han1 + 2, han2 + 2);
    MulMonotone(Pow2(han1 + 2), Pow2(han2 + 2), fu);
  }

  /** For a non-negative fu the explicit 3-han and 4-han thresholds add
      nothing: the base points already exceed 2000 there. */
  lemma ThresholdsImpliedByBasePoints(han: int, fu: int)
    requires han >= 0 && fu >= 0
    ensures TierByThreshold(han, fu) || BasePoints(han, fu) > 2000
        <==> han >= 5 || BasePoints(han, fu) > 2000
  {
  }

  /** Rounding up to 100 keeps the order of payments. */
  lemma RoundUp100Monotone(x: int, y: int)
    requires x <= y
    ensures RoundUp100(x) <= RoundUp100(y)
  {
  }

  /** Below the cutoff the formula never pays more than mangan: a dealer win
      at most 12000 in all, a non-dealer win at most 8000. */
  lemma FormulaBelowMangan(basePoints: int, isOya: bool)
    requires basePoints <= 2000
    ensures var r := PaymentsOf(basePoints, isOya);
      (r.DealerScore? ==> r.ron <= 12000 && 3 * r.tsumo <= 12000) &&
      (r.NonDealerScore? ==> r.ron <= 8000 && r.tsumoOya + 2 * r.tsumoKo <= 8000)
  {
    var b := basePoints;
    if isOya {
      RoundUp100Monotone(6 * b, 12000);
      RoundUp100Monotone(2 * b, 4000);
    } else {
      RoundUp100Monotone(4 * b, 8000);
      RoundUp100Monotone(2 * b, 4000);
      RoundUp100Monotone(b, 2000);
    }
  }

  /** Base points of exactly 2000, the last value the formula handles, pay
      exactly the mangan amounts: the strict cutoff and an inclusive one give
      the same points. */
  lemma CutoffBoundary(han: int, fu: int, isOya: bool)
    requires han >= 0 && BasePoints(han, fu) == 2000 && !TierByThreshold(han, fu)
    ensures var r := CalculateScore(han, fu, isOya);
      (isOya ==> r == DealerScore(12000, 4000)) &&
      (!isOya ==> r == NonDealerScore(8000, 4000, 2000))
  {
  }

  /** Worked examples: a 3-han 30-fu dealer ron pays 5800; a 2-han 40-fu
      non-dealer tsumo is paid 1300 by the dealer and 700 by each other
      player, 2700 in all. */
  lemma ScoreExamples()
    ensures CalculateScore(3, 30, true).ron == 5800
    ensures var r := CalculateScore(2, 40, false);
      r.tsumoOya == 1300 && r.tsumoKo == 700 && r.tsumoOya + 2 * r.tsumoKo == 2700
  {
  }
}
