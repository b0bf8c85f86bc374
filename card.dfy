/** A playing card of the memory game: an immutable identity and symbol, and a
    mutable state machine over four states. */
module Cards {

  /** The symbol printed on a card, one constructor per emoji of the deck
      (U+1F388, U+1F3A8, U+1F3AF, U+1F3AA, U+1F3AD, U+1F3B8, U+1F3BA, U+1F3B2).
      Only equality between symbols matters. */
  datatype Emoji = Balloon | Palette | Target | Circus | Masks | Guitar | Trumpet | Dice

  /** The four states of a card. `Matched` is declared but nothing ever moves a
      card into it: `SetMatched` sends a card to `Disappeared`. */
  datatype CardState = FaceDown | FaceUp | Matched | Disappeared

  /** A card that has left play, whichever of the two removed states it is in. */
  predicate IsRemoved(s: CardState) {
    s == Matched || s == Disappeared
  }

  /** The state a card is in after `flip()`: face-down and face-up swap, the
      two removed states stay as they are. */
  function Flipped(s: CardState): CardState {
    match s
    case FaceDown => FaceUp
    case FaceUp => FaceDown
    case Matched => Matched
    case Disappeared => Disappeared
  }

  /** Flipping turns a face-down card up and a face-up card down. */
  lemma FlipToggles(s: CardState)
    ensures s == FaceDown <==> Flipped(s) == FaceUp
    ensures s == FaceUp <==> Flipped(s) == FaceDown
  {
  }

  /** Flipping twice restores every state. */
  lemma FlipTwiceRestores(s: CardState)
    ensures Flipped(Flipped(s)) == s
  {
  }

  /** Flipping changes a card exactly when it is still in play. */
  lemma FlipKeepsRemoved(s: CardState)
    ensures Flipped(s) == s <==> IsRemoved(s)
  {
  }

  /** Flipping never produces `Matched` from a state that is not `Matched`. */
  lemma FlipNeverMatches(s: CardState)
    ensures s != Matched ==> Flipped(s) != Matched
  {
  }

  class Card {
    const id: int
    const emoji: Emoji
    var state: CardState

    /** A new card carries the given id and emoji and lies face down. */
    constructor (id: int, emoji: Emoji)
      ensures this.id == id && this.emoji == emoji
      ensures state == FaceDown
    {
      this.id := id;
      this.emoji := emoji;
      state := FaceDown;
    }

    /** `flip()`: a switch over the current state; removed cards are left alone. */
    method Flip()
      modifies this
      ensures state == Flipped(old(state))
    {
      match state
      case FaceDown => state := FaceUp;
      case FaceUp => state := FaceDown;
      case Matched =>
      case Disappeared =>
    }

    /** `setMatched()`: whatever the state, the card goes to `Disappeared`. */
    method SetMatched()
      modifies this
      ensures state == Disappeared
    {
      state := Disappeared;
    }
  }

  /** The `==` operator on cards: two cards are equal exactly when their ids
      are; emoji and state play no part. */
  predicate Equal(lhs: Card, rhs: Card) {
    lhs.id == rhs.id
  }

  /** Card equality is an equivalence relation that looks at the id alone. */
  lemma EqualIsEquivalence(a: Card, b: Card, c: Card)
    ensures Equal(a, a)
    ensures Equal(a, b) ==> Equal(b, a)
    ensures Equal(a, b) && Equal(b, c) ==> Equal(a, c)
  {
  }

  /** `setMatched()` is idempotent: a second call, and a flip after it,
      leave the card `Disappeared`, as the first call did. */
  method SetMatchedIsIdempotent(c: Card)
    modifies c
    ensures c.state == Disappeared
  {
    c.SetMatched();
    c.SetMatched();
    c.Flip();
  }
}
