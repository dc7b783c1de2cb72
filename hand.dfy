/** The hand descriptor: what the form says about the winning hand, and the
    record the scoring engine reads (the calculator's shared `state`). */
module Hand {

  /** Standard four-melds-and-a-pair hand, or seven pairs (chiitoitsu). */
  datatype HandType = Standard | Chiitoitsu

  /** Shape of the wait. Only kanchan, penchan and tanki carry fu; a shanpon
      wait scores through the triplet it completes. */
  datatype Wait = Ryanmen | Kanchan | Penchan | Tanki | Shanpon

  /** A meld is a run (shuntsu) or a triplet (koutsu). */
  datatype MeldType = Shuntsu | Koutsu

  /** One meld group of the form: its kind, whether it was called (open),
      and whether its tiles are terminals or honours (yaochu). */
  datatype Meld = Meld(meldType: MeldType, isOpen: bool, isYaochu: bool)

  /** The pair; a seven-pairs hand carries an empty pair, read as not yakuhai. */
  datatype Pair = Pair(isYakuhai: bool)

  /** The raw values of the form controls, as the calculator reads them. */
  datatype Form = Form(
    isOya: bool,
    han: int,
    chiitoitsuChecked: bool,
    isPinfu: bool,
    isTanyao: bool,
    isRon: bool,
    wait: Wait,
    pairIsYakuhai: bool,
    meldGroups: seq<Meld>)

  /** The descriptor every calculation reads. */
  datatype State = State(
    isOya: bool,
    han: int,
    handType: HandType,
    isPinfu: bool,
    isTanyao: bool,
    isRon: bool,
    wait: Wait,
    pair: Pair,
    melds: seq<Meld>,
    isMenzen: bool)

  /** True when no meld of `ms` is open; the calculator's `melds.every(...)`. */
  function AllClosed(ms: seq<Meld>): (r: bool)
    ensures r <==> forall i | 0 <= i < |ms| :: !ms[i].isOpen
  {
    if ms == [] then true else !ms[0].isOpen && AllClosed(ms[1..])
  }

  /** The invariant of a descriptor built from the form: a seven-pairs hand is
      closed, waits tanki and has no melds and no yakuhai pair; a standard hand
      is closed exactly when none of its melds is open. */
  predicate Valid(s: State)
  {
    (s.handType == Chiitoitsu ==>
       s.isMenzen && s.wait == Tanki && s.melds == [] && !s.pair.isYakuhai) &&
    (s.handType == Standard ==>
       (s.isMenzen <==> forall i | 0 <= i < |s.melds| :: !s.melds[i].isOpen))
  }

  /** Builds the descriptor from the form (updateState). The seat, han, the two
      modifiers and the win method are copied; the standard-hand fields are
      read only for a standard hand. */
  function BuildState(f: Form): (s: State)
    ensures Valid(s)
    ensures s.handType == Chiitoitsu <==> f.chiitoitsuChecked
    ensures s.isOya == f.isOya && s.han == f.han && s.isRon == f.isRon
    ensures s.isPinfu == f.isPinfu && s.isTanyao == f.isTanyao
    ensures !f.chiitoitsuChecked ==>
      s.wait == f.wait && s.pair.isYakuhai == f.pairIsYakuhai && s.melds == f.meldGroups
  {
    var handType := if f.chiitoitsuChecked then Chiitoitsu else Standard;
    if handType == Standard then
      State(f.isOya, f.han, handType, f.isPinfu, f.isTanyao, f.isRon,
            f.wait, Pair(f.pairIsYakuhai), f.meldGroups, AllClosed(f.meldGroups))
    else
      State(f.isOya, f.han, handType, f.isPinfu, f.isTanyao, f.isRon,
            Tanki, Pair(false), [], true)
  }

  /** What the control logic (updateControlStates) guarantees of the form
      before it is read: pinfu forces closed runs, a ryanmen wait and a plain
      pair; tanyao forces non-yaochu melds and a plain pair; seven pairs
      switches both modifiers off. */
  predicate ControlsApplied(f: Form)
  {
    (f.chiitoitsuChecked ==> !f.isPinfu && !f.isTanyao) &&
    (f.isPinfu ==>
       f.wait == Ryanmen && !f.pairIsYakuhai &&
       forall i | 0 <= i < |f.meldGroups| ::
         f.meldGroups[i].meldType == Shuntsu && !f.meldGroups[i].isOpen) &&
    (f.isTanyao ==>
       !f.pairIsYakuhai &&
       forall i | 0 <= i < |f.meldGroups| :: !f.meldGroups[i].isYaochu)
  }

  /** A descriptor built from a form the controls have settled: a pinfu hand is
      a closed standard hand of closed runs, and a tanyao hand has no yaochu
      meld; neither has a yakuhai pair. */
  lemma ControlsAppliedState(f: Form)
    requires ControlsApplied(f)
    ensures var s := BuildState(f);
      (s.isPinfu ==>
         s.handType == Standard && s.isMenzen && s.wait == Ryanmen && !s.pair.isYakuhai &&
         forall i | 0 <= i < |s.melds| :: s.melds[i].meldType == Shuntsu) &&
      (s.isTanyao ==>
         s.handType == Standard && !s.pair.isYakuhai &&
         forall i | 0 <= i < |s.melds| :: !s.melds[i].isYaochu)
  {
  }
}
