/** The pool of card widgets the main window recycles (app/ui_main.py):
    only as many cards exist as fit on screen, never fewer than ten, and
    `_ensure_pool_size` grows or shrinks the pool at its end. A card stands
    for the frame, labels and canvas window `_create_pool_card` builds; each
    new one gets a handle not used before. */
module CardPools {
  import opened Collections

  /** The smallest pool kept. */
  const MinPool: int := 10

  datatype Card = Card(handle: nat)

  function Max(a: int, b: int): int {
    if a < b then b else a
  }

  /** `n` new cards with the handles `from`, `from + 1`, .... */
  function NewCards(from: nat, n: nat): (cs: seq<Card>)
    ensures |cs| == n
    ensures forall i :: 0 <= i < n ==> cs[i] == Card(from + i)
  {
    if n == 0 then [] else NewCards(from, n - 1) + [Card(from + n - 1)]
  }

  /** The pool `_ensure_pool_size(desired)` leaves: the current cards cut
      or extended at the end to `max(desired, 10)`. */
  function Resized(cards: seq<Card>, next: nat, desired: int): seq<Card> {
    var target := Max(desired, MinPool);
    if |cards| >= target then cards[..target]
    else cards + NewCards(next, target - |cards|)
  }

  /** Exactly `max(desired, 10)` cards remain, the first ones are kept in
      place, and asking again for the same size changes nothing. */
  lemma ResizedShape(cards: seq<Card>, next: nat, desired: int, next': nat)
    ensures var r := Resized(cards, next, desired);
      var target := Max(desired, MinPool);
      |r| == target
      && (|cards| <= target ==> r[..|cards|] == cards)
      && (|cards| >= target ==> r == cards[..target])
      && Resized(r, next', desired) == r
  {
    var r := Resized(cards, next, desired);
    var target := Max(desired, MinPool);
    if |cards| < target {
      assert r[..|cards|] == cards;
    }
    assert r[..target] == r;
  }

  /** New cards get handles never seen before, so the pool never holds the
      same card twice. */
  lemma ResizedDistinct(cards: seq<Card>, next: nat, desired: int)
    requires NoDuplicates(cards) && forall i :: 0 <= i < |cards| ==> cards[i].handle < next
    ensures var r := Resized(cards, next, desired);
      NoDuplicates(r)
      && forall i :: 0 <= i < |r| ==> r[i].handle < next + Max(0, Max(desired, MinPool) - |cards|)
  {
    var r := Resized(cards, next, desired);
    var target := Max(desired, MinPool);
    if |cards| < target {
      var made := NewCards(next, target - |cards|);
      forall i, j | 0 <= i < j < |r| ensures r[i] != r[j] {
        if j >= |cards| && i < |cards| {
          assert r[i] == cards[i] && r[j] == made[j - |cards|];
        } else if j >= |cards| {
          assert r[i] == made[i - |cards|] && r[j] == made[j - |cards|];
        } else {
          assert r[i] == cards[i] && r[j] == cards[j];
        }
      }
      forall i | 0 <= i < |r| ensures r[i].handle < next + (target - |cards|) {
        if i >= |cards| { assert r[i] == made[i - |cards|]; } else { assert r[i] == cards[i]; }
      }
    } else {
      forall i, j | 0 <= i < j < |r| ensures r[i] != r[j] {
        assert r[i] == cards[i] && r[j] == cards[j];
      }
      forall i | 0 <= i < |r| ensures r[i].handle < next {
        assert r[i] == cards[i];
      }
    }
  }

  class CardPool {
    /** `_cards`, and the handle the next new card gets. */
    var cards: seq<Card>
    var next: nat

    /** Every card is a distinct widget made by this pool. */
    predicate Valid()
      reads this
    {
      NoDuplicates(cards) && forall i :: 0 <= i < |cards| ==> cards[i].handle < next
    }

    constructor ()
      ensures Valid() && cards == [] && next == 0
    {
      cards, next := [], 0;
    }

    /** `_ensure_pool_size`: append new cards while there are fewer than
        `max(desired, 10)`, then pop from the end while there are more. */
    method EnsurePoolSize(desired: int)
      requires Valid()
      modifies this
      ensures Valid()
      ensures cards == Resized(old(cards), old(next), desired)
    {
      ghost var c0, n0 := cards, next;
      ghost var target := Max(desired, MinPool);
      ResizedDistinct(c0, n0, desired);
      while |cards| < Max(desired, MinPool)
        invariant |c0| <= |cards| <= Max(|c0|, target)
        invariant next == n0 + (|cards| - |c0|)
        invariant cards == c0 + NewCards(n0, |cards| - |c0|)
        decreases target - |cards|
      {
        cards := cards + [Card(next)];
        next := next + 1;
      }
      while |cards| > Max(desired, MinPool)
        invariant |cards| >= target
        invariant next == n0 + Max(0, target - |c0|)
        invariant |c0| >= target ==> |cards| <= |c0| && cards == c0[..|cards|]
        invariant |c0| < target ==> cards == c0 + NewCards(n0, target - |c0|)
        decreases |cards|
      {
        cards := cards[..|cards| - 1];
      }
      assert cards == Resized(c0, n0, desired);
    }
  }
}
