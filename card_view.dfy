/**
 * The rule-relevant state of one board card (CardView) and the card map that
 * holds the board: an insertion-ordered sequence of (key, card) pairs, as a
 * JavaScript `Map<string, CardView>` iterates them.
 */
module Card {
  import opened Wrappers

  /** Side index of the card's side controller: 0 shows the front, 1 the back. */
  const FRONT: int := 0
  const BACK: int := 1

  /** The value of a card's rule-relevant fields at one moment. */
  datatype CardState = CardState(value: int, isClear: bool, side: int, touchable: bool)
  {
    /** Face-up and not yet eliminated: the only cards the rules look at. */
    predicate Playable() { !isClear && side == FRONT }
  }

  /** The effect of `setFront` on a card's state. */
  function Front(c: CardState): CardState { c.(side := FRONT, touchable := true) }

  /** The effect of `setBack` on a card's state. */
  function Back(c: CardState): CardState { c.(side := BACK, touchable := false) }

  class CardView {
    var cfgKey: string
    /** Card rank (1-13 in every level). */
    var value: int
    var isClear: bool
    /** selectedIndex of the side controller. */
    var side: int
    var touchable: bool

    function State(): CardState
      reads this
    {
      CardState(value, isClear, side, touchable)
    }

    /** A fresh card: rank 0, not eliminated. Its side and key are set later. */
    constructor ()
      ensures value == 0 && !isClear
    {
      cfgKey := "";
      value := 0;
      isClear := false;
      side := FRONT;
      touchable := true;
    }

    /** Sets the rank; the suit it also picks is cosmetic and not modelled. */
    method SetDigital(v: int)
      modifies this`value
      ensures value == v
      ensures State() == old(State()).(value := v)
    {
      value := v;
    }

    method SetFront()
      modifies this`side, this`touchable
      ensures State() == Front(old(State()))
      ensures side == FRONT && touchable
    {
      side := FRONT;
      touchable := true;
    }

    method SetBack()
      modifies this`side, this`touchable
      ensures State() == Back(old(State()))
      ensures side == BACK && !touchable
    {
      side := BACK;
      touchable := false;
    }
  }

  /** The live card map, in insertion order. */
  type CardMap = seq<(string, CardView)>

  /** The card map's state at one moment: the object of every specification. */
  type Board = seq<(string, CardState)>

  /** Each key of the map has its own CardView object. */
  predicate DistinctViews(m: CardMap) {
    forall i, j :: 0 <= i < j < |m| ==> m[i].1 != m[j].1
  }

  /** The objects a card map refers to. */
  ghost function Views(m: CardMap): set<CardView> {
    set i | 0 <= i < |m| :: m[i].1
  }

  function Snapshot(m: CardMap): (s: Board)
    reads Views(m)
  {
    seq(|m|, i requires 0 <= i < |m| reads Views(m) => (m[i].0, m[i].1.State()))
  }

  /**
   * `Map.get` as an index: the first (with distinct keys, the only) entry
   * whose key is `key`, or None when no entry has that key.
   */
  function KeyIndex<T>(s: seq<(string, T)>, key: string): (r: Option<nat>)
    ensures r.Some? ==> r.value < |s| && s[r.value].0 == key
    ensures r.Some? ==> forall j :: 0 <= j < r.value ==> s[j].0 != key
    ensures r.None? <==> forall j :: 0 <= j < |s| ==> s[j].0 != key
  {
    if |s| == 0 then None
    else if s[0].0 == key then Some(0)
    else match KeyIndex(s[1..], key)
      case None => None
      case Some(k) => Some(k + 1)
  }

  /** Two sequences with the same keys, in the same order, look a key up alike. */
  lemma KeyIndexSameKeys<T, U>(s: seq<(string, T)>, t: seq<(string, U)>, key: string)
    requires |s| == |t|
    requires forall i :: 0 <= i < |s| ==> s[i].0 == t[i].0
    ensures KeyIndex(s, key) == KeyIndex(t, key)
  {
    var a, b := KeyIndex(s, key), KeyIndex(t, key);
    if a.Some? && b.Some? {
      assert !(a.value < b.value) by { assert t[a.value].0 == key; }
      assert !(b.value < a.value) by { assert s[b.value].0 == key; }
    }
  }
}
