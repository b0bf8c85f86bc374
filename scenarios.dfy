/** Sequences of calls on the engine, showing what its contracts imply when
    operations are combined. */
module Scenarios {
  import opened Cards
  import opened Game

  /** Two face-down cards with the same symbol, selected one after the other,
      counted as one move and then removed by the match closure for 10 points. */
  method MatchingPairScores(g: MemoryGame, i: int, j: int)
    requires g.Valid() && g.selectedCards == []
    requires 0 <= i < |g.cards| && 0 <= j < |g.cards| && i != j
    requires g.cards[i].state == FaceDown && g.cards[j].state == FaceDown
    requires g.cards[i].emoji == g.cards[j].emoji
    modifies g, g.cards[i], g.cards[j]
    ensures g.Valid()
    ensures g.cards == old(g.cards)
    ensures g.cards[i].state == Disappeared && g.cards[j].state == Disappeared
    ensures forall m :: 0 <= m < |g.cards| && m != i && m != j ==> g.cards[m].state == old(g.cards[m].state)
    ensures g.score == old(g.score) + MATCH_REWARD && g.moves == old(g.moves) + 1
    ensures g.events == old(g.events) + [MovesUpdated(g.moves), ScoreUpdated(g.score), CardsMatched]
    ensures g.pending == old(g.pending) && g.selectedCards == [] && !g.isCheckingMatch
  {
    EqualInDeckIsSamePosition(g.cards, i, j);
    g.SelectCard(i);
    g.SelectCard(j);
    g.FirePending(|g.pending| - 1);
  }

  /** Two face-down cards with different symbols: one move, then the mismatch
      closure turns both face down again and the score is unchanged. */
  method MismatchedPairFlipsBack(g: MemoryGame, i: int, j: int)
    requires g.Valid() && g.selectedCards == []
    requires 0 <= i < |g.cards| && 0 <= j < |g.cards|
    requires g.cards[i].state == FaceDown && g.cards[j].state == FaceDown
    requires g.cards[i].emoji != g.cards[j].emoji
    modifies g, g.cards[i], g.cards[j]
    ensures g.Valid()
    ensures g.cards == old(g.cards)
    ensures g.cards[i].state == FaceDown && g.cards[j].state == FaceDown
    ensures forall m :: 0 <= m < |g.cards| ==> g.cards[m].state == old(g.cards[m].state)
    ensures g.score == old(g.score) && g.moves == old(g.moves) + 1
    ensures g.events == old(g.events) + [MovesUpdated(g.moves)]
    ensures g.pending == old(g.pending) && g.selectedCards == [] && !g.isCheckingMatch
  {
    g.SelectCard(i);
    g.SelectCard(j);
    g.FirePending(|g.pending| - 1);
  }

  /** A removed card passes the guard of `selectCard`, so selecting it twice
      puts it in the selection twice, counts a move, matches it with itself and scores again. */
  method RemovedCardScoresAgain(g: MemoryGame, i: int)
    requires g.Valid() && g.selectedCards == []
    requires 0 <= i < |g.cards| && g.cards[i].state == Disappeared
    modifies g, g.cards[i]
    ensures g.Valid()
    ensures g.cards == old(g.cards)
    ensures forall m :: 0 <= m < |g.cards| ==> g.cards[m].state == old(g.cards[m].state)
    ensures g.score == old(g.score) + MATCH_REWARD && g.moves == old(g.moves) + 1
    ensures g.events == old(g.events) + [MovesUpdated(g.moves), ScoreUpdated(g.score), CardsMatched]
  {
    g.SelectCard(i);
    g.SelectCard(i);
    g.FirePending(|g.pending| - 1);
  }

  /** A reset while a matching pair is being checked leaves the closure
      scheduled; when it runs it scores 10 in the new game, with no move made
      and no card of the new deck touched. */
  method ResetThenStaleMatchScores(g: MemoryGame)
    requires g.Valid() && g.isCheckingMatch
    requires g.selectedCards[0].emoji == g.selectedCards[1].emoji
    modifies g, g.selectedCards[0], g.selectedCards[1]
    ensures g.Valid()
    ensures forall m :: 0 <= m < |g.cards| ==> g.cards[m].state == FaceDown
    ensures g.score == MATCH_REWARD && g.moves == 0
    ensures g.events == old(g.events) + [ScoreUpdated(0), MovesUpdated(0), ScoreUpdated(MATCH_REWARD), CardsMatched]
  {
    var k := |g.pending| - 1;
    g.ResetGame();
    g.FirePending(k);
  }

  /** A reset during a check, then one card of the new deck selected, then
      the stale closure: the selection is cleared but the card stays face up,
      and tapping it again is refused. */
  method StaleClosureStrandsFaceUpCard(g: MemoryGame, i: int)
    requires g.Valid() && g.isCheckingMatch
    requires 0 <= i < DECK_SIZE
    modifies g, g.selectedCards[0], g.selectedCards[1]
    ensures g.Valid()
    ensures g.cards[i].state == FaceUp
    ensures g.selectedCards == [] && !g.isCheckingMatch && g.moves == 0
  {
    var k := |g.pending| - 1;
    g.ResetGame();
    assert g.cards[i] in g.cards;
    g.SelectCard(i);
    g.FirePending(k);
    g.SelectCard(i);
  }
}
