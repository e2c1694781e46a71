/**
 * Game rules: the match rule, the board queries (all cleared, deadlock, one
 * eliminable card), the anti-deadlock hand value and the time-win check,
 * with the session fields of GameState.
 */
module Game {
  import opened Wrappers
  import opened Card

  /** Elapsed milliseconds after the first tap from which the game counts as won. */
  const SUCCESS_TIMEOUT_MS: int := 30000
  /** Consecutive deadlocked shuffles after which the next shuffle must match. */
  const DEADLOCK_THRESHOLD: int := 2
  /** Cards added to the shuffle pile on each refill. */
  const SHUFFLE_PILE_SIZE: int := 10

  predicate IsRank(v: int) { 1 <= v <= 13 }

  function Abs(x: int): nat { if x < 0 then -x else x }

  /** canEliminate: ranks one apart match, and so do 1 and 13. */
  predicate CanEliminate(cardValue: int, handValue: int) {
    Abs(cardValue - handValue) == 1
    || (cardValue == 1 && handValue == 13)
    || (cardValue == 13 && handValue == 1)
  }

  /** A card the player may take against `hand`: uncleared, face-up and matching. */
  predicate Eliminable(c: CardState, hand: int) {
    c.Playable() && CanEliminate(c.value, hand)
  }

  /** isAllCleared: every card of the map is eliminated. */
  predicate AllCleared(b: Board) {
    forall i :: 0 <= i < |b| ==> b[i].1.isClear
  }

  /** isDeadlock: no card of the map can be taken against `hand`. */
  predicate Deadlocked(b: Board, hand: int) {
    forall i :: 0 <= i < |b| ==> !Eliminable(b[i].1, hand)
  }

  /** Entry `i` is the first, in map order, that can be taken against `hand`. */
  predicate FirstEliminableAt(b: Board, hand: int, i: int) {
    0 <= i < |b| && Eliminable(b[i].1, hand)
    && forall j :: 0 <= j < i ==> !Eliminable(b[j].1, hand)
  }

  /** The hand values pushed for one face-up card of rank `v`. */
  function Neighbours(v: int): seq<int> {
    (if v > 1 then [v - 1] else [])
    + (if v < 13 then [v + 1] else [])
    + (if v == 1 then [13] else [])
    + (if v == 13 then [1] else [])
  }

  /** The `goodValues` list getGuaranteedHandValue builds, in map order. */
  function GoodValues(b: Board): seq<int> {
    if |b| == 0 then []
    else
      var last := b[|b| - 1].1;
      GoodValues(b[..|b| - 1]) + (if last.Playable() then Neighbours(last.value) else [])
  }

  /** `Math.floor(rand * n)` for a `rand` drawn by `Math.random()`: an index below n. */
  function PickIndex(rand: real, n: nat): (k: nat)
    requires 0.0 <= rand < 1.0 && 0 < n
    ensures k < n
  {
    var x := rand * n as real;
    assert x < n as real by {
      assert (1.0 - rand) * n as real > 0.0;
    }
    x.Floor
  }

  /** getGuaranteedHandValue for the random draw `rand`. */
  function GuaranteedHandValue(b: Board, rand: real): Option<int>
    requires 0.0 <= rand < 1.0
  {
    var goodValues := GoodValues(b);
    if |goodValues| == 0 then None else Some(goodValues[PickIndex(rand, |goodValues|)])
  }

  /**
   * The rank of the next shuffle card: from DEADLOCK_THRESHOLD consecutive
   * deadlocked shuffles on, a guaranteed hand value replaces the drawn rank
   * when there is one.
   */
  function NextShuffleValue(shuffleDeadlockCount: int, drawn: int, b: Board, rand: real): int
    requires 0.0 <= rand < 1.0
  {
    if shuffleDeadlockCount >= DEADLOCK_THRESHOLD then
      match GuaranteedHandValue(b, rand)
      case Some(v) => v
      case None => drawn
    else drawn
  }

  /** isWinByTime at clock reading `now`. */
  predicate WinByTime(gameStartTime: Option<int>, now: int) {
    match gameStartTime
    case None => false
    case Some(start) => now - start >= SUCCESS_TIMEOUT_MS
  }

  class GameState {
    /** Current hand rank; a board card adjacent to it can be eliminated. */
    var handValue: int
    /** Consecutive shuffles that left the board deadlocked. */
    var shuffleDeadlockCount: int
    /** Clock reading (ms) of the first tap; None before it. */
    var gameStartTime: Option<int>
    /** The game is won; taps are ignored from then on. */
    var gameSuccess: bool
    /** No elimination has happened yet. */
    var isFirstEliminate: bool

    constructor ()
      ensures handValue == 0 && shuffleDeadlockCount == 0 && gameStartTime == None
      ensures !gameSuccess && isFirstEliminate
    {
      handValue := 0;
      shuffleDeadlockCount := 0;
      gameStartTime := None;
      gameSuccess := false;
      isFirstEliminate := true;
    }

    method IsAllCleared(cardMap: CardMap) returns (r: bool)
      ensures r == AllCleared(Snapshot(cardMap))
    {
      for i := 0 to |cardMap|
        invariant forall j :: 0 <= j < i ==> cardMap[j].1.isClear
      {
        if !cardMap[i].1.isClear {
          assert !Snapshot(cardMap)[i].1.isClear;
          return false;
        }
      }
      return true;
    }

    method IsDeadlock(cardMap: CardMap) returns (r: bool)
      ensures r == Deadlocked(Snapshot(cardMap), handValue)
    {
      for i := 0 to |cardMap|
        invariant forall j :: 0 <= j < i ==> !Eliminable(cardMap[j].1.State(), handValue)
      {
        var cardView := cardMap[i].1;
        if cardView.isClear {
          continue;
        }
        if cardView.side != FRONT {
          continue;
        }
        if CanEliminate(cardView.value, handValue) {
          assert Eliminable(Snapshot(cardMap)[i].1, handValue);
          return false;
        }
      }
      return true;
    }

    method GetOneEliminable(cardMap: CardMap) returns (r: Option<CardView>)
      ensures r.None? <==> Deadlocked(Snapshot(cardMap), handValue)
      ensures r.Some? ==> exists i ::
        FirstEliminableAt(Snapshot(cardMap), handValue, i) && r.value == cardMap[i].1
    {
      for i := 0 to |cardMap|
        invariant forall j :: 0 <= j < i ==> !Eliminable(cardMap[j].1.State(), handValue)
      {
        var cardView := cardMap[i].1;
        if cardView.isClear {
          continue;
        }
        if cardView.side != FRONT {
          continue;
        }
        if CanEliminate(cardView.value, handValue) {
          assert FirstEliminableAt(Snapshot(cardMap), handValue, i);
          return Some(cardView);
        }
      }
      return None;
    }

    method GetGuaranteedHandValue(cardMap: CardMap, rand: real) returns (r: Option<int>)
      requires 0.0 <= rand < 1.0
      ensures r == GuaranteedHandValue(Snapshot(cardMap), rand)
    {
      ghost var b := Snapshot(cardMap);
      var goodValues: seq<int> := [];
      for i := 0 to |cardMap|
        invariant goodValues == GoodValues(b[..i])
      {
        assert b[..i + 1][..i] == b[..i];
        var cardView := cardMap[i].1;
        if cardView.isClear {
          continue;
        }
        if cardView.side != FRONT {
          continue;
        }
        var v := cardView.value;
        if v > 1 {
          goodValues := goodValues + [v - 1];
        }
        if v < 13 {
          goodValues := goodValues + [v + 1];
        }
        if v == 1 {
          goodValues := goodValues + [13];
        }
        if v == 13 {
          goodValues := goodValues + [1];
        }
      }
      assert b[..|cardMap|] == b;
      if |goodValues| == 0 {
        return None;
      }
      return Some(goodValues[PickIndex(rand, |goodValues|)]);
    }

    /** isWinByTime, with the clock reading `now` in place of `Date.now()`. */
    method IsWinByTime(now: int) returns (r: bool)
      ensures r == WinByTime(gameStartTime, now)
    {
      if gameStartTime == None {
        return false;
      }
      var elapsed := now - gameStartTime.value;
      return elapsed >= SUCCESS_TIMEOUT_MS;
    }
  }

  // ---- The match rule ----

  /** Two ranks match iff they are one apart or are exactly the pair {1, 13}. */
  lemma CanEliminateIff(c: int, h: int)
    ensures CanEliminate(c, h) <==> Abs(c - h) == 1 || {c, h} == {1, 13}
  {
    if {c, h} == {1, 13} {
      assert c in {1, 13} && h in {1, 13};
      assert 1 in {c, h} && 13 in {c, h};
    }
  }

  /** Swapping card rank and hand rank gives the same answer. */
  lemma CanEliminateSymmetric(c: int, h: int)
    ensures CanEliminate(c, h) == CanEliminate(h, c)
  {
  }

  /** On ranks, matching is adjacency on the ring 1, 2, ..., 13, 1. */
  lemma CanEliminateIsRingAdjacency(c: int, h: int)
    requires IsRank(c) && IsRank(h)
    ensures CanEliminate(c, h) <==> c % 13 == (h + 1) % 13 || h % 13 == (c + 1) % 13
  {
  }

  // ---- The board queries ----

  /** On a board where every card is eliminated, isDeadlock answers true. */
  lemma AllClearedIsDeadlocked(b: Board, hand: int)
    requires AllCleared(b)
    ensures Deadlocked(b, hand)
  {
  }

  /** Eliminated and face-down cards do not affect isDeadlock. */
  lemma DeadlockedIgnoresUnplayable(b: Board, c: Board, hand: int)
    requires |b| == |c|
    requires forall i :: 0 <= i < |b| ==> b[i].1.Playable() == c[i].1.Playable()
    requires forall i :: 0 <= i < |b| && b[i].1.Playable() ==> b[i].1.value == c[i].1.value
    ensures Deadlocked(b, hand) == Deadlocked(c, hand)
  {
  }

  // ---- The anti-deadlock hand value ----

  /** Each value pushed for a card matches that card; at least one is pushed. */
  lemma NeighboursMatch(v: int)
    ensures |Neighbours(v)| > 0
    ensures forall x :: x in Neighbours(v) ==> CanEliminate(v, x)
  {
  }

  /** For a rank, the pushed values are exactly the ranks it matches. */
  lemma NeighboursOfRank(v: int, x: int)
    requires IsRank(v) && IsRank(x)
    ensures x in Neighbours(v) <==> CanEliminate(v, x)
  {
  }

  lemma NeighboursAreRanks(v: int)
    requires IsRank(v)
    ensures forall x :: x in Neighbours(v) ==> IsRank(x)
  {
  }

  /** A good value is exactly a value pushed for some uncleared face-up card. */
  lemma {:induction false} GoodValuesIff(b: Board, x: int)
    ensures x in GoodValues(b) <==>
      exists i :: 0 <= i < |b| && b[i].1.Playable() && x in Neighbours(b[i].1.value)
  {
    if |b| > 0 {
      var init := b[..|b| - 1];
      GoodValuesIff(init, x);
      if x in GoodValues(init) {
        var i :| 0 <= i < |init| && init[i].1.Playable() && x in Neighbours(init[i].1.value);
        assert b[i] == init[i];
      }
      if i :| 0 <= i < |b| && b[i].1.Playable() && x in Neighbours(b[i].1.value) {
        if i < |b| - 1 {
          assert init[i] == b[i];
        }
      }
    }
  }

  /** No good value exists iff no card is both uncleared and face-up. */
  lemma {:induction false} GoodValuesEmptyIff(b: Board)
    ensures |GoodValues(b)| == 0 <==> forall i :: 0 <= i < |b| ==> !b[i].1.Playable()
  {
    if |b| > 0 {
      var init := b[..|b| - 1];
      GoodValuesEmptyIff(init);
      NeighboursMatch(b[|b| - 1].1.value);
      if |GoodValues(b)| == 0 {
        forall i | 0 <= i < |b| ensures !b[i].1.Playable() {
          if i < |b| - 1 {
            assert init[i] == b[i];
          }
        }
      }
    }
  }

  /** getGuaranteedHandValue returns null iff no card is both uncleared and face-up. */
  lemma GuaranteedNoneIff(b: Board, rand: real)
    requires 0.0 <= rand < 1.0
    ensures GuaranteedHandValue(b, rand).None? <==> forall i :: 0 <= i < |b| ==> !b[i].1.Playable()
  {
    GoodValuesEmptyIff(b);
  }

  /**
   * A guaranteed hand value matches some uncleared face-up card, so with it
   * as the hand the board is not deadlocked.
   */
  lemma GuaranteedBreaksDeadlock(b: Board, rand: real)
    requires 0.0 <= rand < 1.0
    requires GuaranteedHandValue(b, rand).Some?
    ensures var v := GuaranteedHandValue(b, rand).value;
      (exists i :: 0 <= i < |b| && Eliminable(b[i].1, v)) && !Deadlocked(b, v)
  {
    var v := GuaranteedHandValue(b, rand).value;
    GoodValuesIff(b, v);
    var i :| 0 <= i < |b| && b[i].1.Playable() && v in Neighbours(b[i].1.value);
    NeighboursMatch(b[i].1.value);
    CanEliminateSymmetric(b[i].1.value, v);
    assert Eliminable(b[i].1, v);
  }

  /** When the face-up uncleared cards carry ranks, so does the guaranteed value. */
  lemma GuaranteedIsRank(b: Board, rand: real)
    requires 0.0 <= rand < 1.0
    requires forall i :: 0 <= i < |b| && b[i].1.Playable() ==> IsRank(b[i].1.value)
    requires GuaranteedHandValue(b, rand).Some?
    ensures IsRank(GuaranteedHandValue(b, rand).value)
  {
    var v := GuaranteedHandValue(b, rand).value;
    GoodValuesIff(b, v);
    var i :| 0 <= i < |b| && b[i].1.Playable() && v in Neighbours(b[i].1.value);
    NeighboursAreRanks(b[i].1.value);
  }

  /** The draw k / n picks index k. */
  lemma PickIndexHits(k: nat, n: nat)
    requires k < n
    ensures 0.0 <= k as real / n as real < 1.0
    ensures PickIndex(k as real / n as real, n) == k
  {
    var rand := k as real / n as real;
    assert rand * n as real == k as real;
  }

  /** Every good value is returned for some random draw. */
  lemma EveryGoodValueCanBeDrawn(b: Board, k: nat)
    requires k < |GoodValues(b)|
    ensures exists rand :: 0.0 <= rand < 1.0 && GuaranteedHandValue(b, rand) == Some(GoodValues(b)[k])
  {
    var n := |GoodValues(b)|;
    PickIndexHits(k, n);
    var rand := k as real / n as real;
    assert GuaranteedHandValue(b, rand) == Some(GoodValues(b)[k]);
  }

  /**
   * From DEADLOCK_THRESHOLD deadlocked shuffles on, the next shuffle card
   * matches a board card whenever some card is uncleared and face-up; below
   * it the drawn rank is kept.
   */
  lemma ThresholdShuffleMatches(shuffleDeadlockCount: int, drawn: int, b: Board, rand: real)
    requires 0.0 <= rand < 1.0
    ensures shuffleDeadlockCount < DEADLOCK_THRESHOLD ==>
      NextShuffleValue(shuffleDeadlockCount, drawn, b, rand) == drawn
    ensures shuffleDeadlockCount >= DEADLOCK_THRESHOLD && (exists i :: 0 <= i < |b| && b[i].1.Playable()) ==>
      !Deadlocked(b, NextShuffleValue(shuffleDeadlockCount, drawn, b, rand))
  {
    if shuffleDeadlockCount >= DEADLOCK_THRESHOLD && exists i :: 0 <= i < |b| && b[i].1.Playable() {
      GuaranteedNoneIff(b, rand);
      GuaranteedBreaksDeadlock(b, rand);
    }
  }

  // ---- Winning by time ----

  /** Before the first tap the time win never holds; after it, it holds from start + 30 s on. */
  lemma WinByTimeIff(gameStartTime: Option<int>, now: int)
    ensures gameStartTime.None? ==> !WinByTime(gameStartTime, now)
    ensures gameStartTime.Some? ==>
      (WinByTime(gameStartTime, now) <==> now >= gameStartTime.value + 30000)
  {
  }

  /** Once the time win holds it keeps holding as the clock advances. */
  lemma WinByTimeStaysWon(gameStartTime: Option<int>, now: int, later: int)
    requires WinByTime(gameStartTime, now) && now <= later
    ensures WinByTime(gameStartTime, later)
  {
  }
}
