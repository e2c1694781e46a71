/**
 * The visibility resolver: `checkSide` turns every board card face-up or
 * face-down from its cover list and the cleared flags of the covering cards.
 */
module BoardLayout {
  import opened Wrappers
  import opened Card

  /** Layout of one card, reduced to what the resolver reads: `cover?: string[]`. */
  datatype CardLayoutCfg = CardLayoutCfg(cover: Option<seq<string>>)

  /** `Record<string, CardLayoutCfg>`: the layout of every card, by key. */
  type LayoutTable = map<string, CardLayoutCfg>

  /** The cover list of a key; a key without layout or without a list has none. */
  function CoverOf(cfg: LayoutTable, key: string): seq<string> {
    if key in cfg && cfg[key].cover.Some? then cfg[key].cover.value else []
  }

  /** The covering card named `key` is eliminated; a key naming no card counts as not eliminated. */
  predicate CoverCleared(b: Board, key: string) {
    match KeyIndex(b, key)
    case None => false
    case Some(i) => b[i].1.isClear
  }

  /** Whether checkSide turns the card with this key face-up. */
  predicate ShowsFront(b: Board, cfg: LayoutTable, key: string) {
    var cover := CoverOf(cfg, key);
    |cover| == 0 || forall j :: 0 <= j < |cover| ==> CoverCleared(b, cover[j])
  }

  /**
   * The board after checkSide: every card, eliminated or not, is turned by
   * setFront or setBack; keys, order, ranks and cleared flags stay as they were.
   */
  function Resolved(b: Board, cfg: LayoutTable): (r: Board)
    ensures |r| == |b|
    ensures forall i :: 0 <= i < |b| ==>
      r[i].0 == b[i].0 && r[i].1.value == b[i].1.value && r[i].1.isClear == b[i].1.isClear
    ensures forall i :: 0 <= i < |b| ==>
      (r[i].1.side == FRONT && r[i].1.touchable) || (r[i].1.side == BACK && !r[i].1.touchable)
  {
    seq(|b|, i requires 0 <= i < |b| =>
      (b[i].0, if ShowsFront(b, cfg, b[i].0) then Front(b[i].1) else Back(b[i].1)))
  }

  /** `cardMap.get(key)?.isClear` on the live map, a missing key read as not cleared. */
  predicate CoverCardCleared(cardMap: CardMap, key: string)
    reads Views(cardMap)
  {
    match KeyIndex(cardMap, key)
    case None => false
    case Some(k) => cardMap[k].1.isClear
  }

  /** The live lookup agrees with the board lookup while keys and cleared flags agree. */
  lemma CoverCardClearedMatches(cardMap: CardMap, b: Board, key: string)
    requires |cardMap| == |b|
    requires forall j :: 0 <= j < |b| ==> cardMap[j].0 == b[j].0 && cardMap[j].1.isClear == b[j].1.isClear
    ensures CoverCardCleared(cardMap, key) == CoverCleared(b, key)
  {
    KeyIndexSameKeys(cardMap, b, key);
  }

  /**
   * checkSide over the live card map: each card's side and touchable flag are
   * set from the cover lists; nothing else of any card changes.
   */
  method CheckSide(cardMap: CardMap, cardCfg: LayoutTable)
    requires DistinctViews(cardMap)
    modifies Views(cardMap)`side, Views(cardMap)`touchable
    ensures Snapshot(cardMap) == Resolved(old(Snapshot(cardMap)), cardCfg)
  {
    ghost var before := Snapshot(cardMap);
    ghost var after := Resolved(before, cardCfg);
    for i := 0 to |cardMap|
      invariant forall j :: 0 <= j < |cardMap| ==> cardMap[j].1.isClear == before[j].1.isClear
      invariant forall j :: 0 <= j < i ==> cardMap[j].1.State() == after[j].1
      invariant forall j :: i <= j < |cardMap| ==> cardMap[j].1.State() == before[j].1
    {
      var (cfgKey, cardView) := cardMap[i];
      var cover := CoverOf(cardCfg, cfgKey);
      var front := true;
      if |cover| > 0 {
        forall j | 0 <= j < |cover|
          ensures CoverCardCleared(cardMap, cover[j]) == CoverCleared(before, cover[j])
        {
          CoverCardClearedMatches(cardMap, before, cover[j]);
        }
        front := forall j :: 0 <= j < |cover| ==> CoverCardCleared(cardMap, cover[j]);
      }
      assert front == ShowsFront(before, cardCfg, cfgKey);
      if front {
        cardView.SetFront();
      } else {
        cardView.SetBack();
      }
    }
  }

  /** JavaScript `Map` keys are distinct. */
  predicate DistinctKeys<T>(s: seq<(string, T)>) {
    forall i, j :: 0 <= i < j < |s| ==> s[i].0 != s[j].0
  }

  /** Two boards over the same keys, in the same order. */
  predicate SameKeys(b: Board, c: Board) {
    |b| == |c| && forall i :: 0 <= i < |b| ==> b[i].0 == c[i].0
  }

  /** From `b` to `c` cards were only eliminated: no cleared flag went back. */
  predicate ClearedGrows(b: Board, c: Board) {
    SameKeys(b, c) && forall i :: 0 <= i < |b| ==> b[i].1.isClear ==> c[i].1.isClear
  }

  /** Some card of the board has this key and is eliminated. */
  predicate NamesClearedCard(b: Board, key: string) {
    exists k :: 0 <= k < |b| && b[k].0 == key && b[k].1.isClear
  }

  /** With distinct keys, a cover key counts as cleared iff it names an eliminated card. */
  lemma CoverClearedIff(b: Board, key: string)
    requires DistinctKeys(b)
    ensures CoverCleared(b, key) <==> NamesClearedCard(b, key)
  {
    if k :| 0 <= k < |b| && b[k].0 == key && b[k].1.isClear {
      var i := KeyIndex(b, key).value;
      assert !(i < k) && !(k < i);
    }
  }

  lemma CoverClearedGrows(b: Board, c: Board, key: string)
    requires ClearedGrows(b, c)
    ensures CoverCleared(b, key) ==> CoverCleared(c, key)
  {
    KeyIndexSameKeys(b, c, key);
  }

  /** A card with no layout, or an empty cover list, ends face-up and touchable. */
  lemma UncoveredShowsFront(b: Board, cfg: LayoutTable, i: nat)
    requires i < |b|
    requires b[i].0 !in cfg || cfg[b[i].0].cover.None? || cfg[b[i].0].cover == Some([])
    ensures Resolved(b, cfg)[i].1.side == FRONT && Resolved(b, cfg)[i].1.touchable
  {
  }

  /**
   * A card with a non-empty cover list ends face-up iff every cover key names
   * an eliminated card of the map.
   */
  lemma CoveredShowsFrontIff(b: Board, cfg: LayoutTable, i: nat)
    requires DistinctKeys(b)
    requires i < |b| && |CoverOf(cfg, b[i].0)| > 0
    ensures var cover := CoverOf(cfg, b[i].0);
      Resolved(b, cfg)[i].1.side == FRONT <==>
        forall j :: 0 <= j < |cover| ==> NamesClearedCard(b, cover[j])
  {
    var cover := CoverOf(cfg, b[i].0);
    if ShowsFront(b, cfg, b[i].0) {
      assert Resolved(b, cfg)[i].1.side == FRONT;
      forall j | 0 <= j < |cover| ensures NamesClearedCard(b, cover[j]) {
        CoverClearedIff(b, cover[j]);
      }
    } else {
      assert Resolved(b, cfg)[i].1.side == BACK;
      var j :| 0 <= j < |cover| && !CoverCleared(b, cover[j]);
      CoverClearedIff(b, cover[j]);
    }
  }

  /** A cover key that names no card keeps the covered card face-down. */
  lemma MissingCoverHides(b: Board, cfg: LayoutTable, i: nat, j: nat)
    requires i < |b| && j < |CoverOf(cfg, b[i].0)|
    requires forall k :: 0 <= k < |b| ==> b[k].0 != CoverOf(cfg, b[i].0)[j]
    ensures Resolved(b, cfg)[i].1.side == BACK && !Resolved(b, cfg)[i].1.touchable
  {
    assert !CoverCleared(b, CoverOf(cfg, b[i].0)[j]);
  }

  /** The sides checkSide sets depend on the keys and cleared flags alone. */
  lemma ResolvedSidesDependOnClearedOnly(b: Board, c: Board, cfg: LayoutTable)
    requires ClearedGrows(b, c) && ClearedGrows(c, b)
    ensures forall i :: 0 <= i < |b| ==>
      Resolved(b, cfg)[i].1.side == Resolved(c, cfg)[i].1.side &&
      Resolved(b, cfg)[i].1.touchable == Resolved(c, cfg)[i].1.touchable
  {
    forall i | 0 <= i < |b|
      ensures ShowsFront(b, cfg, b[i].0) == ShowsFront(c, cfg, c[i].0)
    {
      var cover := CoverOf(cfg, b[i].0);
      forall j | 0 <= j < |cover| ensures CoverCleared(b, cover[j]) == CoverCleared(c, cover[j]) {
        CoverClearedGrows(b, c, cover[j]);
        CoverClearedGrows(c, b, cover[j]);
      }
    }
  }

  /** Running checkSide a second time, with no elimination in between, changes nothing. */
  lemma ResolvedIdempotent(b: Board, cfg: LayoutTable)
    ensures Resolved(Resolved(b, cfg), cfg) == Resolved(b, cfg)
  {
    var r := Resolved(b, cfg);
    ResolvedSidesDependOnClearedOnly(r, b, cfg);
  }

  /** Eliminating cards never turns a face-up card face-down. */
  lemma ResolvedMonotone(b: Board, c: Board, cfg: LayoutTable)
    requires ClearedGrows(b, c)
    ensures forall i :: 0 <= i < |b| && Resolved(b, cfg)[i].1.side == FRONT ==>
      Resolved(c, cfg)[i].1.side == FRONT
  {
    forall i | 0 <= i < |b| && ShowsFront(b, cfg, b[i].0)
      ensures ShowsFront(c, cfg, c[i].0)
    {
      var cover := CoverOf(cfg, b[i].0);
      forall j | 0 <= j < |cover| ensures CoverCleared(c, cover[j]) {
        CoverClearedGrows(b, c, cover[j]);
      }
    }
  }
}
