/**
 * The opening positions of the levels: which cards a fresh board shows, and
 * the early deadlocks the level comments describe, proved from the level data.
 *
 * Boards here hold the 21 slots in cardCfg's key order, so a slot is named by
 * its position; CardKeys turns a position back into the key checkSide reads.
 */
module LevelScenarios {
  import opened Card
  import opened BoardLayout
  import opened Game
  import opened CardConfig

  /** A level's board before any tap: every slot in key order, uncleared, ranked by the level. */
  function FreshBoard(level: LevelConfig): (b: Board)
    requires LevelWellFormed(level)
  {
    seq(|CardKeys|, i requires 0 <= i < |CardKeys| =>
      (CardKeys[i], CardState(level.cards[i].1, false, FRONT, true)))
  }

  /** Each card of the fresh board carries the rank the level's cards object gives its key. */
  lemma FreshBoardReadsLevel(level: LevelConfig)
    requires LevelWellFormed(level)
    ensures DistinctKeys(level.cards)
    ensures forall i :: 0 <= i < |CardKeys| ==>
      CardKeys[i] in EntryMap(level.cards) && FreshBoard(level)[i].1.value == EntryMap(level.cards)[CardKeys[i]]
  {
    LevelKeysAreSlots(level);
    EntriesListed(level.cards, CardKeys);
  }

  /** The board once checkSide has run on the fresh board. */
  function Start(level: LevelConfig): Board
    requires LevelWellFormed(level)
  {
    Resolved(FreshBoard(level), Layout())
  }

  /** The cleared flag an elimination sets on the card with this key. */
  function ClearKey(b: Board, key: string): (r: Board)
    ensures |r| == |b|
    ensures forall i :: 0 <= i < |b| ==>
      r[i].0 == b[i].0 && r[i].1.value == b[i].1.value
      && r[i].1.isClear == (b[i].1.isClear || b[i].0 == key)
  {
    seq(|b|, i requires 0 <= i < |b| =>
      if b[i].0 == key then (b[i].0, b[i].1.(isClear := true)) else b[i])
  }

  /** One elimination: the card with this key is cleared and checkSide runs again. */
  function Take(b: Board, key: string): (r: Board)
    ensures |r| == |b|
    ensures forall i :: 0 <= i < |b| ==>
      r[i].0 == b[i].0 && r[i].1.value == b[i].1.value
      && r[i].1.isClear == (b[i].1.isClear || b[i].0 == key)
  {
    Resolved(ClearKey(b, key), Layout())
  }

  /** The keys of `b` are the slot keys, in cardCfg's order. */
  predicate KeysInOrder(b: Board) {
    |b| == |CardKeys| && forall i :: 0 <= i < |b| ==> b[i].0 == CardKeys[i]
  }

  /** On a board in key order the slot key at position `c` names exactly the card at `c`. */
  lemma CoverClearedAt(b: Board, c: nat)
    requires KeysInOrder(b) && c < |b|
    ensures CoverCleared(b, CardKeys[c]) <==> b[c].1.isClear
  {
    CardKeysDistinct();
    CoverClearedIff(b, CardKeys[c]);
  }

  /** Taking the card at `c` of a board in key order clears that card and no other. */
  lemma TakeClearsOne(b: Board, c: nat)
    requires KeysInOrder(b) && c < |b|
    ensures KeysInOrder(Take(b, CardKeys[c]))
    ensures forall i :: 0 <= i < |b| ==> Take(b, CardKeys[c])[i].1.isClear == (b[i].1.isClear || i == c)
  {
    CardKeysDistinct();
  }

  /** The layout checkSide reads gives the slot at position `i` its pyramid cover. */
  lemma CoverOfLayout(i: nat)
    requires i < |CardKeys|
    ensures |CardKeys| == 21
    ensures CoverOf(Layout(), CardKeys[i]) == PyramidCover(CardKeys, i)
  {
    CardCfgIsPyramid();
    assert CardKeys[i] in CardCfg;
  }

  /** On a board where nothing is eliminated no cover key counts as cleared. */
  lemma NothingClearedNoCoverCleared(b: Board, key: string)
    requires forall i :: 0 <= i < |b| ==> !b[i].1.isClear
    ensures !CoverCleared(b, key)
  {
  }

  /** On a fresh board exactly the six bottom-row cards, card16..card21, are face-up after checkSide. */
  lemma FreshBoardShowsBottomRow(level: LevelConfig)
    requires LevelWellFormed(level)
    ensures |Start(level)| == |CardKeys| == 21
    ensures forall i :: 0 <= i < |CardKeys| ==> (Start(level)[i].1.side == FRONT <==> i >= 15)
  {
    var b := FreshBoard(level);
    forall i | 0 <= i < |CardKeys|
      ensures Start(level)[i].1.side == FRONT <==> i >= 15
    {
      CoverOfLayout(i);
      PyramidCoverSlots(CardKeys, i);
      var cover := CoverOf(Layout(), CardKeys[i]);
      if |cover| > 0 {
        NothingClearedNoCoverCleared(b, cover[0]);
      }
    }
  }

  /**
   * A level comment's opening: taking the card at `first`, then the card at
   * `second`, is legal; it turns the card at `unlocked` face-up and leaves
   * no card matching the new hand.
   */
  predicate OpensIntoDeadlock(level: LevelConfig, first: nat, second: nat, unlocked: nat)
    requires LevelWellFormed(level)
    requires first < |CardKeys| && second < |CardKeys| && unlocked < |CardKeys|
  {
    var b0 := Start(level);
    var b1 := Take(b0, CardKeys[first]);
    var b2 := Take(b1, CardKeys[second]);
    && Eliminable(b0[first].1, level.handValue)
    && Eliminable(b1[second].1, b0[first].1.value)
    && b1[unlocked].1.side == BACK
    && b2[unlocked].1.Playable()
    && Deadlocked(b2, b1[second].1.value)
  }

  /** The cleared cards of `b` are exactly those at the positions in `taken`. */
  predicate ClearedExactly(b: Board, taken: set<nat>) {
    forall i :: 0 <= i < |b| ==> (b[i].1.isClear <==> i in taken)
  }

  /** The board of `level` at some point: keys in order and the level's ranks. */
  predicate LevelBoard(level: LevelConfig, b: Board)
    requires LevelWellFormed(level)
  {
    KeysInOrder(b) && forall i :: 0 <= i < |b| ==> b[i].1.value == level.cards[i].1
  }

  /**
   * With the cards at the positions in `taken` eliminated, every card matching
   * `hand` is either taken or lies under a card not taken.
   */
  predicate Stuck(level: LevelConfig, hand: int, taken: set<nat>) {
    forall i :: 0 <= i < |level.cards| && i < 21 && CanEliminate(level.cards[i].1, hand) ==>
      i in taken || (|CoverSlots(i)| > 0 && CoverSlots(i)[0] !in taken)
  }

  /** A stuck position is a deadlock once checkSide has run. */
  lemma StuckIsDeadlocked(level: LevelConfig, p: Board, hand: int, taken: set<nat>)
    requires LevelWellFormed(level) && LevelBoard(level, p)
    requires ClearedExactly(p, taken)
    requires Stuck(level, hand, taken)
    ensures Deadlocked(Resolved(p, Layout()), hand)
  {
    var r := Resolved(p, Layout());
    forall i | 0 <= i < |r| ensures !Eliminable(r[i].1, hand) {
      if CanEliminate(r[i].1.value, hand) && i !in taken {
        CoverOfLayout(i);
        PyramidCoverSlots(CardKeys, i);
        var c := CoverSlots(i)[0];
        CoverClearedAt(p, c);
        assert !CoverCleared(p, CoverOf(Layout(), CardKeys[i])[0]);
      }
    }
  }

  /** Both cards on top of `ku` gone: `ku` turns face-up; with only the first gone it stays down. */
  lemma UnlockStep(p1: Board, p2: Board, cfg: LayoutTable, k1: string, k2: string, ku: string, iu: nat)
    requires iu < |p1| && p1[iu].0 == ku && iu < |p2| && p2[iu].0 == ku
    requires CoverOf(cfg, ku) == [k1, k2] || CoverOf(cfg, ku) == [k2, k1]
    requires !CoverCleared(p1, k2)
    requires CoverCleared(p2, k1) && CoverCleared(p2, k2)
    ensures Resolved(p1, cfg)[iu].1.side == BACK
    ensures Resolved(p2, cfg)[iu].1.side == FRONT
  {
    var cover := CoverOf(cfg, ku);
    assert !ShowsFront(p1, cfg, ku) by {
      if cover == [k1, k2] {
        assert !CoverCleared(p1, cover[1]);
      } else {
        assert !CoverCleared(p1, cover[0]);
      }
    }
    assert CoverCleared(p2, cover[0]) && CoverCleared(p2, cover[1]);
  }

  /** A card with no cover, not cleared, matching the hand, can be taken after checkSide. */
  lemma UncoveredTakeable(p: Board, cfg: LayoutTable, i: nat, hand: int)
    requires i < |p| && CoverOf(cfg, p[i].0) == [] && !p[i].1.isClear
    requires CanEliminate(p[i].1.value, hand)
    ensures Eliminable(Resolved(p, cfg)[i].1, hand)
  {
  }

  /**
   * The data of a level comment's opening: two uncovered cards that match in
   * turn, the card they both cover, and a stuck position once both are gone.
   */
  predicate OpeningData(level: LevelConfig, first: nat, second: nat, unlocked: nat) {
    && LevelWellFormed(level)
    && first < 21 && second < 21 && unlocked < 21 && first != second
    && CoverSlots(first) == [] && CoverSlots(second) == []
    && (CoverSlots(unlocked) == [first, second] || CoverSlots(unlocked) == [second, first])
    && CanEliminate(level.cards[first].1, level.handValue)
    && CanEliminate(level.cards[second].1, level.cards[first].1)
    && Stuck(level, level.cards[second].1, {first, second})
  }

  /** The boards of the opening: after checkSide, after the first take, after the second. */
  lemma OpeningBoards(level: LevelConfig, first: nat, second: nat)
    requires LevelWellFormed(level) && first < 21 && second < 21 && first != second
    ensures LevelBoard(level, Start(level)) && ClearedExactly(Start(level), {})
    ensures LevelBoard(level, Take(Start(level), CardKeys[first]))
    ensures ClearedExactly(Take(Start(level), CardKeys[first]), {first})
    ensures LevelBoard(level, Take(Take(Start(level), CardKeys[first]), CardKeys[second]))
    ensures ClearedExactly(Take(Take(Start(level), CardKeys[first]), CardKeys[second]), {first, second})
  {
    var b0 := Start(level);
    TakeClearsOne(b0, first);
    TakeClearsOne(Take(b0, CardKeys[first]), second);
  }

  /** Both taps of the opening are legal. */
  lemma OpeningTakesLegal(level: LevelConfig, first: nat, second: nat, unlocked: nat)
    requires OpeningData(level, first, second, unlocked)
    ensures Eliminable(Start(level)[first].1, level.handValue)
    ensures Eliminable(Take(Start(level), CardKeys[first])[second].1, Start(level)[first].1.value)
  {
    var b0 := Start(level);
    OpeningBoards(level, first, second);
    CoverOfLayout(first);
    CoverOfLayout(second);
    UncoveredTakeable(FreshBoard(level), Layout(), first, level.handValue);
    UncoveredTakeable(ClearKey(b0, CardKeys[first]), Layout(), second, level.cards[first].1);
  }

  /** The covered card turns face-up only after the second tap. */
  lemma OpeningUnlocks(level: LevelConfig, first: nat, second: nat, unlocked: nat)
    requires OpeningData(level, first, second, unlocked)
    ensures Take(Start(level), CardKeys[first])[unlocked].1.side == BACK
    ensures Take(Take(Start(level), CardKeys[first]), CardKeys[second])[unlocked].1.Playable()
  {
    var b1 := Take(Start(level), CardKeys[first]);
    var p1 := ClearKey(Start(level), CardKeys[first]);
    var p2 := ClearKey(b1, CardKeys[second]);
    OpeningBoards(level, first, second);
    CoverOfLayout(unlocked);
    PyramidCoverSlots(CardKeys, unlocked);
    CoverClearedAt(p1, second);
    CoverClearedAt(p2, first);
    CoverClearedAt(p2, second);
    UnlockStep(p1, p2, Layout(), CardKeys[first], CardKeys[second], CardKeys[unlocked], unlocked);
  }

  /** After both taps no card matches the new hand. */
  lemma OpeningDeadlocks(level: LevelConfig, first: nat, second: nat, unlocked: nat)
    requires OpeningData(level, first, second, unlocked)
    ensures Deadlocked(Take(Take(Start(level), CardKeys[first]), CardKeys[second]), level.cards[second].1)
  {
    var b1 := Take(Start(level), CardKeys[first]);
    OpeningBoards(level, first, second);
    StuckIsDeadlocked(level, ClearKey(b1, CardKeys[second]), level.cards[second].1, {first, second});
  }

  /** The opening of a level comment follows from the level's data. */
  lemma OpeningFromData(level: LevelConfig, first: nat, second: nat, unlocked: nat)
    requires OpeningData(level, first, second, unlocked)
    ensures OpensIntoDeadlock(level, first, second, unlocked)
  {
    OpeningBoards(level, first, second);
    OpeningTakesLegal(level, first, second, unlocked);
    OpeningUnlocks(level, first, second, unlocked);
    OpeningDeadlocks(level, first, second, unlocked);
  }

  /** Level 2, hand 9: card16 (8), then card17 (7); card11 (2) turns up; hand 7 is stuck. */
  lemma Level2OpensIntoDeadlock()
    ensures LevelWellFormed(LevelConfigs[1])
    ensures OpensIntoDeadlock(LevelConfigs[1], 15, 16, 10)
  {
    LevelWellFormedAt(1);
    Level2Data();
    OpeningFromData(LevelConfigs[1], 15, 16, 10);
  }

  lemma Level2Data()
    ensures LevelConfigs[1].handValue == 9
    ensures LevelConfigs[1].cards[15].1 == 8 && LevelConfigs[1].cards[16].1 == 7
    ensures Stuck(LevelConfigs[1], 7, {15, 16})
  {
  }

  /** Level 3, hand 2: card21 (3), then card20 (4); card15 (9) turns up; hand 4 is stuck. */
  lemma Level3OpensIntoDeadlock()
    ensures LevelWellFormed(LevelConfigs[2])
    ensures OpensIntoDeadlock(LevelConfigs[2], 20, 19, 14)
  {
    LevelWellFormedAt(2);
    Level3Data();
    OpeningFromData(LevelConfigs[2], 20, 19, 14);
  }

  lemma Level3Data()
    ensures LevelConfigs[2].handValue == 2
    ensures LevelConfigs[2].cards[20].1 == 3 && LevelConfigs[2].cards[19].1 == 4
    ensures Stuck(LevelConfigs[2], 4, {20, 19})
  {
  }

  /** Level 4, hand 10: card18 (11), then card19 (12); card13 (6) turns up; hand 12 is stuck. */
  lemma Level4OpensIntoDeadlock()
    ensures LevelWellFormed(LevelConfigs[3])
    ensures OpensIntoDeadlock(LevelConfigs[3], 17, 18, 12)
  {
    LevelWellFormedAt(3);
    Level4Data();
    OpeningFromData(LevelConfigs[3], 17, 18, 12);
  }

  lemma Level4Data()
    ensures LevelConfigs[3].handValue == 10
    ensures LevelConfigs[3].cards[17].1 == 11 && LevelConfigs[3].cards[18].1 == 12
    ensures Stuck(LevelConfigs[3], 12, {17, 18})
  {
  }

  /** Level 5, hand 7: card16 (8), then card17 (9); card11 (2) turns up; hand 9 is stuck. */
  lemma Level5OpensIntoDeadlock()
    ensures LevelWellFormed(LevelConfigs[4])
    ensures OpensIntoDeadlock(LevelConfigs[4], 15, 16, 10)
  {
    LevelWellFormedAt(4);
    Level5Data();
    OpeningFromData(LevelConfigs[4], 15, 16, 10);
  }

  lemma Level5Data()
    ensures LevelConfigs[4].handValue == 7
    ensures LevelConfigs[4].cards[15].1 == 8 && LevelConfigs[4].cards[16].1 == 9
    ensures Stuck(LevelConfigs[4], 9, {15, 16})
  {
  }
}
