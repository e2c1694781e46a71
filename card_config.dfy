/**
 * Level data: the 21-slot pyramid cover graph (cardCfg) and the five levels
 * of rank assignments (levelConfigs), with the facts about them that the
 * resolver and the rules rely on, proved from the literal data.
 *
 * Both are JavaScript object literals, whose properties keep their
 * declaration order; they are written here as sequences of (key, value)
 * entries in that order, and `EntryMap` turns such a sequence into the
 * key-to-value map the object stands for.
 */
module CardConfig {
  import opened Wrappers
  import opened Card
  import opened BoardLayout
  import opened Game

  /** One pyramid slot: its serial id and the keys of the cards lying on it. */
  datatype SlotCfg = SlotCfg(id: nat, cover: seq<string>)

  /** One level: the starting hand rank and the rank of every slot, as (key, rank) entries. */
  datatype LevelConfig = LevelConfig(handValue: int, cards: seq<(string, int)>)

  /** An object literal with distinct keys, as the map from each key to its value. */
  function EntryMap<T>(entries: seq<(string, T)>): map<string, T>
    requires DistinctKeys(entries)
  {
    map i | 0 <= i < |entries| :: entries[i].0 := entries[i].1
  }

  /** Reading the property declared at position `i` gives the value declared there. */
  lemma PropertyAt<T>(entries: seq<(string, T)>, i: nat)
    requires DistinctKeys(entries) && i < |entries|
    ensures entries[i].0 in EntryMap(entries)
    ensures EntryMap(entries)[entries[i].0] == entries[i].1
  {
  }

  /** The keys of the object are exactly the declared keys. */
  lemma PropertyKeys<T>(entries: seq<(string, T)>, k: string)
    requires DistinctKeys(entries)
    ensures k in EntryMap(entries) <==> exists i :: 0 <= i < |entries| && entries[i].0 == k
  {
  }

  /** An object declared in the order of `keys` has exactly those keys, each with its declared value. */
  lemma EntriesListed<T>(entries: seq<(string, T)>, keys: seq<string>)
    requires DistinctKeys(entries) && |entries| == |keys|
    requires forall i :: 0 <= i < |keys| ==> entries[i].0 == keys[i]
    ensures forall i :: 0 <= i < |keys| ==>
      keys[i] in EntryMap(entries) && EntryMap(entries)[keys[i]] == entries[i].1
    ensures forall k :: k in EntryMap(entries) <==> k in keys
  {
    forall i | 0 <= i < |keys|
      ensures keys[i] in EntryMap(entries) && EntryMap(entries)[keys[i]] == entries[i].1
    {
      PropertyAt(entries, i);
    }
    forall k
      ensures k in EntryMap(entries) <==> k in keys
    {
      PropertyKeys(entries, k);
    }
  }

  /** cardCfg's properties in declaration order, without the `pos` coordinates. */
  const CardCfgEntries: seq<(string, SlotCfg)> := [
    ("card1", SlotCfg(1, ["card2", "card3"])),
    ("card2", SlotCfg(2, ["card4", "card5"])),
    ("card3", SlotCfg(3, ["card5", "card6"])),
    ("card4", SlotCfg(4, ["card7", "card8"])),
    ("card5", SlotCfg(5, ["card8", "card9"])),
    ("card6", SlotCfg(6, ["card9", "card10"])),
    ("card7", SlotCfg(7, ["card11", "card12"])),
    ("card8", SlotCfg(8, ["card12", "card13"])),
    ("card9", SlotCfg(9, ["card13", "card14"])),
    ("card10", SlotCfg(10, ["card14", "card15"])),
    ("card11", SlotCfg(11, ["card16", "card17"])),
    ("card12", SlotCfg(12, ["card17", "card18"])),
    ("card13", SlotCfg(13, ["card18", "card19"])),
    ("card14", SlotCfg(14, ["card19", "card20"])),
    ("card15", SlotCfg(15, ["card20", "card21"])),
    ("card16", SlotCfg(16, [])),
    ("card17", SlotCfg(17, [])),
    ("card18", SlotCfg(18, [])),
    ("card19", SlotCfg(19, [])),
    ("card20", SlotCfg(20, [])),
    ("card21", SlotCfg(21, []))]

  /** The slot keys in declaration order: the order `for (const key in cardCfg)` visits them. */
  const CardKeys: seq<string> := [
    "card1", "card2", "card3", "card4", "card5", "card6", "card7",
    "card8", "card9", "card10", "card11", "card12", "card13", "card14",
    "card15", "card16", "card17", "card18", "card19", "card20", "card21"]

  /** cardCfg: slot key to slot layout. */
  const CardCfg: map<string, SlotCfg> := (CardCfgKeysDistinct(); EntryMap(CardCfgEntries))

  const LevelConfigs: seq<LevelConfig> := [
    LevelConfig(6, [
      ("card1", 13), ("card2", 7), ("card3", 8), ("card4", 5), ("card5", 6),
      ("card6", 10), ("card7", 12), ("card8", 11), ("card9", 9), ("card10", 8),
      ("card11", 9), ("card12", 11), ("card13", 3), ("card14", 7), ("card15", 6),
      ("card16", 7), ("card17", 8), ("card18", 10), ("card19", 2), ("card20", 4), ("card21", 5)]),
    LevelConfig(9, [
      ("card1", 13), ("card2", 9), ("card3", 1), ("card4", 9), ("card5", 10),
      ("card6", 2), ("card7", 5), ("card8", 2), ("card9", 11), ("card10", 3),
      ("card11", 2), ("card12", 4), ("card13", 3), ("card14", 12), ("card15", 4),
      ("card16", 8), ("card17", 7), ("card18", 3), ("card19", 4), ("card20", 13), ("card21", 5)]),
    LevelConfig(2, [
      ("card1", 5), ("card2", 6), ("card3", 3), ("card4", 7), ("card5", 4),
      ("card6", 8), ("card7", 8), ("card8", 5), ("card9", 9), ("card10", 12),
      ("card11", 9), ("card12", 6), ("card13", 10), ("card14", 11), ("card15", 9),
      ("card16", 10), ("card17", 7), ("card18", 11), ("card19", 10), ("card20", 4), ("card21", 3)]),
    LevelConfig(10, [
      ("card1", 5), ("card2", 6), ("card3", 7), ("card4", 10), ("card5", 9),
      ("card6", 8), ("card7", 1), ("card8", 13), ("card9", 6), ("card10", 5),
      ("card11", 2), ("card12", 4), ("card13", 6), ("card14", 2), ("card15", 4),
      ("card16", 3), ("card17", 5), ("card18", 11), ("card19", 12), ("card20", 1), ("card21", 3)]),
    LevelConfig(7, [
      ("card1", 7), ("card2", 6), ("card3", 5), ("card4", 2), ("card5", 3),
      ("card6", 4), ("card7", 1), ("card8", 13), ("card9", 12), ("card10", 11),
      ("card11", 2), ("card12", 4), ("card13", 6), ("card14", 4), ("card15", 2),
      ("card16", 8), ("card17", 9), ("card18", 3), ("card19", 5), ("card20", 5), ("card21", 3)])]

  /** cardCfg as checkSide reads it: every slot has a cover list. */
  function Layout(): LayoutTable {
    map k | k in CardCfg :: CardLayoutCfg(Some(CardCfg[k].cover))
  }

  /** CardKeys lists the keys of cardCfg in the order they are declared. */
  lemma CardKeysInDeclarationOrder()
    ensures |CardKeys| == |CardCfgEntries|
    ensures forall i :: 0 <= i < |CardKeys| ==> CardKeys[i] == CardCfgEntries[i].0
  {
  }

  /** No key occurs twice in `keys`. */
  predicate Distinct(keys: seq<string>) {
    forall i, j :: 0 <= i < j < |keys| ==> keys[i] != keys[j]
  }

  /** card1..card9 have five characters, card10..card21 six. */
  lemma CardKeyLengths()
    ensures |CardKeys| == 21
    ensures forall i :: 0 <= i < 9 ==> |CardKeys[i]| == 5
    ensures forall i :: 9 <= i < 21 ==> |CardKeys[i]| == 6
  {
  }

  lemma ShortCardKeysDistinct()
    ensures forall i, j :: 0 <= i < j < 9 ==> CardKeys[i] != CardKeys[j]
  {
  }

  lemma LongCardKeysDistinct()
    ensures forall i, j :: 9 <= i < j < 21 ==> CardKeys[i] != CardKeys[j]
  {
  }

  lemma CardKeysDistinct()
    ensures Distinct(CardKeys)
  {
    CardKeyLengths();
    ShortCardKeysDistinct();
    LongCardKeysDistinct();
  }

  /** No key is declared twice in cardCfg. */
  lemma CardCfgKeysDistinct()
    ensures DistinctKeys(CardCfgEntries)
  {
    CardKeysInDeclarationOrder();
    CardKeysDistinct();
  }

  /** The pyramid row, 1 at the apex, of the slot at position `i`: row r holds r slots. */
  function Row(i: nat): (r: nat)
    requires i < 21
    ensures 1 <= r <= 6
    ensures r < 6 ==> i + r + 1 < 21
    ensures r == 6 <==> i >= 15
  {
    if i < 1 then 1 else if i < 3 then 2 else if i < 6 then 3 else if i < 10 then 4 else if i < 15 then 5 else 6
  }

  /** Above the bottom row, positions i + Row(i) and i + Row(i) + 1 both lie in the next row. */
  lemma RowBelow(i: nat)
    requires i < 15
    ensures Row(i + Row(i)) == Row(i) + 1 && Row(i + Row(i) + 1) == Row(i) + 1
  {
  }

  /**
   * The positions of the slots lying on the slot at position `i` of the
   * six-row pyramid: the slot at place p of row r lies under the slots at
   * places p and p + 1 of row r + 1, and the bottom row lies under nothing.
   */
  function CoverSlots(i: nat): (s: seq<nat>)
    requires i < 21
    ensures |s| == 0 <==> i >= 15
    ensures |s| == 0 || |s| == 2
    ensures forall j :: 0 <= j < |s| ==> i < s[j] < 21
  {
    if Row(i) < 6 then [i + Row(i), i + Row(i) + 1] else []
  }

  /** The cover list of the slot at position `i` of the pyramid laid out over `keys`. */
  function PyramidCover(keys: seq<string>, i: nat): seq<string>
    requires |keys| == 21 && i < 21
  {
    if Row(i) < 6 then [keys[i + Row(i)], keys[i + Row(i) + 1]] else []
  }

  /** The cover list names the keys at the cover positions. */
  lemma PyramidCoverSlots(keys: seq<string>, i: nat)
    requires |keys| == 21 && i < 21
    ensures |PyramidCover(keys, i)| == |CoverSlots(i)|
    ensures forall j :: 0 <= j < |CoverSlots(i)| ==> PyramidCover(keys, i)[j] == keys[CoverSlots(i)[j]]
  {
  }

  /** cardCfg declares that pyramid over CardKeys, with ids 1..21 from the apex down. */
  lemma PyramidCovers()
    ensures |CardCfgEntries| == |CardKeys| == 21
    ensures forall i :: 0 <= i < 21 ==> CardCfgEntries[i].1 == SlotCfg(i + 1, PyramidCover(CardKeys, i))
  {
  }

  /** `cfg` maps the i-th of `keys` to the i-th slot of the pyramid over `keys`, and nothing else. */
  predicate Pyramid(keys: seq<string>, cfg: map<string, SlotCfg>) {
    && |keys| == 21
    && (forall k :: k in cfg ==> k in keys)
    && (forall i :: 0 <= i < |keys| ==> keys[i] in cfg)
    && forall i {:trigger cfg[keys[i]]} :: 0 <= i < |keys| ==> cfg[keys[i]] == SlotCfg(i + 1, PyramidCover(keys, i))
  }

  /** cardCfg is the pyramid over CardKeys. */
  lemma CardCfgIsPyramid()
    ensures Pyramid(CardKeys, CardCfg)
  {
    CardKeysInDeclarationOrder();
    CardCfgKeysDistinct();
    PyramidCovers();
    EntriesListed(CardCfgEntries, CardKeys);
  }

  /** Every cover key names a slot whose id is larger than the covered slot's. */
  predicate IdsIncrease(cfg: map<string, SlotCfg>) {
    forall k, j :: k in cfg && 0 <= j < |cfg[k].cover| ==>
      cfg[k].cover[j] in cfg && cfg[cfg[k].cover[j]].id > cfg[k].id
  }

  lemma PyramidIdsIncrease(keys: seq<string>, cfg: map<string, SlotCfg>)
    requires Pyramid(keys, cfg)
    ensures IdsIncrease(cfg)
  {
    forall k, j | k in cfg && 0 <= j < |cfg[k].cover|
      ensures cfg[k].cover[j] in cfg && cfg[cfg[k].cover[j]].id > cfg[k].id
    {
      var i :| 0 <= i < |keys| && keys[i] == k;
      PyramidCoverSlots(keys, i);
      var c := CoverSlots(i)[j];
      assert cfg[k].cover[j] == keys[c];
    }
  }

  lemma CoverKeysAreLaterSlots()
    ensures IdsIncrease(CardCfg)
  {
    CardCfgIsPyramid();
    PyramidIdsIncrease(CardKeys, CardCfg);
  }

  /** `p` is a chain of cover edges: each slot is covered by the next one. */
  predicate CoverChain(cfg: map<string, SlotCfg>, p: seq<string>) {
    forall i :: 0 <= i < |p| - 1 ==> p[i] in cfg && p[i + 1] in cfg[p[i]].cover
  }

  lemma {:induction false} ChainIdsIncrease(cfg: map<string, SlotCfg>, p: seq<string>)
    requires IdsIncrease(cfg) && CoverChain(cfg, p) && |p| >= 2
    ensures p[0] in cfg && p[|p| - 1] in cfg && cfg[p[|p| - 1]].id > cfg[p[0]].id
  {
    if |p| > 2 {
      var init := p[..|p| - 1];
      assert CoverChain(cfg, init) by {
        forall i | 0 <= i < |init| - 1 ensures init[i] in cfg && init[i + 1] in cfg[init[i]].cover {
          assert init[i] == p[i] && init[i + 1] == p[i + 1];
        }
      }
      ChainIdsIncrease(cfg, init);
    }
    assert p[|p| - 1] in cfg[p[|p| - 2]].cover;
  }

  /** No card covers itself, directly or through other cards: the cover graph is acyclic. */
  lemma CoverGraphAcyclic(p: seq<string>)
    requires CoverChain(CardCfg, p) && |p| >= 2
    ensures p[|p| - 1] != p[0]
  {
    CoverKeysAreLaterSlots();
    ChainIdsIncrease(CardCfg, p);
  }

  /** Exactly the bottom-row slots, card16..card21, have empty cover lists. */
  lemma OnlyBottomRowUncovered()
    ensures |CardKeys| == 21
    ensures forall i :: 0 <= i < |CardKeys| ==>
      CardKeys[i] in CardCfg && (|CardCfg[CardKeys[i]].cover| == 0 <==> i >= 15)
  {
    CardCfgIsPyramid();
  }

  /** The level lists the slot keys in cardCfg's order. */
  predicate LevelKeysInOrder(level: LevelConfig) {
    |level.cards| == |CardKeys| && forall i :: 0 <= i < |level.cards| ==> level.cards[i].0 == CardKeys[i]
  }

  /** The level's hand and every rank lie in 1..13. */
  predicate LevelRanksValid(level: LevelConfig) {
    IsRank(level.handValue) && forall i :: 0 <= i < |level.cards| ==> IsRank(level.cards[i].1)
  }

  /**
   * A level lists exactly the slots of cardCfg, in cardCfg's order, and its
   * hand and every rank lie in 1..13.
   */
  predicate LevelWellFormed(level: LevelConfig) {
    LevelKeysInOrder(level) && LevelRanksValid(level)
  }

  /** The cards object of a well-formed level has exactly the keys of cardCfg. */
  lemma LevelKeysAreSlots(level: LevelConfig)
    requires LevelWellFormed(level)
    ensures DistinctKeys(level.cards)
    ensures forall k :: k in EntryMap(level.cards) <==> k in CardCfg
  {
    CardKeysDistinct();
    CardCfgIsPyramid();
    EntriesListed(level.cards, CardKeys);
  }

  lemma LevelWellFormedAt(l: nat)
    requires l < |LevelConfigs|
    ensures LevelWellFormed(LevelConfigs[l])
  {
    match l
    case 0 => Level1Keys(); Level1Ranks();
    case 1 => Level2Keys(); Level2Ranks();
    case 2 => Level3Keys(); Level3Ranks();
    case 3 => Level4Keys(); Level4Ranks();
    case 4 => Level5Keys(); Level5Ranks();
  }

  lemma Level1Keys()
    ensures LevelKeysInOrder(LevelConfigs[0])
  {
  }

  lemma Level1Ranks()
    ensures LevelRanksValid(LevelConfigs[0])
  {
  }

  lemma Level2Keys()
    ensures LevelKeysInOrder(LevelConfigs[1])
  {
  }

  lemma Level2Ranks()
    ensures LevelRanksValid(LevelConfigs[1])
  {
  }

  lemma Level3Keys()
    ensures LevelKeysInOrder(LevelConfigs[2])
  {
  }

  lemma Level3Ranks()
    ensures LevelRanksValid(LevelConfigs[2])
  {
  }

  lemma Level4Keys()
    ensures LevelKeysInOrder(LevelConfigs[3])
  {
  }

  lemma Level4Ranks()
    ensures LevelRanksValid(LevelConfigs[3])
  {
  }

  lemma Level5Keys()
    ensures LevelKeysInOrder(LevelConfigs[4])
  {
  }

  lemma Level5Ranks()
    ensures LevelRanksValid(LevelConfigs[4])
  {
  }

  lemma LevelsWellFormed()
    ensures forall l :: 0 <= l < |LevelConfigs| ==> LevelWellFormed(LevelConfigs[l])
  {
    forall l | 0 <= l < |LevelConfigs| {
      LevelWellFormedAt(l);
    }
  }
}
