/** The game engine: a shuffled deck of sixteen cards, a selection of at most
    two cards, move and score counters, and the delayed resolution of each
    selected pair. */
module Game {
  import opened Cards

  /** The eight symbols, in the order the deck is built from them. */
  const EMOJIS: seq<Emoji> := [Balloon, Palette, Target, Circus, Masks, Guitar, Trumpet, Dice]
  /** Two cards per symbol. */
  const DECK_SIZE := 16
  /** Points added for each resolved match. */
  const MATCH_REWARD := 10

  /** What the engine reports to its delegate, in the order it reports it. */
  datatype GameEvent =
    | ScoreUpdated(score: int)
    | MovesUpdated(moves: int)
    | CardsMatched
    | GameWon

  /** A deferred continuation of `checkForMatch`: the two selected cards and
      which of the two closures was scheduled. */
  datatype Resolution = Resolution(card1: Card, card2: Card, isMatch: bool)

  /** The position of a symbol in the table: the inverse of indexing it. */
  function EmojiNumber(e: Emoji): (t: int)
    ensures 0 <= t < |EMOJIS| && EMOJIS[t] == e
  {
    match e
    case Balloon => 0
    case Palette => 1
    case Target => 2
    case Circus => 3
    case Masks => 4
    case Guitar => 5
    case Trumpet => 6
    case Dice => 7
  }

  /** Indexing the table and then numbering the symbol gives back the index. */
  lemma EmojiNumberOfTable(t: int)
    requires 0 <= t < |EMOJIS|
    ensures EmojiNumber(EMOJIS[t]) == t
  {
    assert t == 0 || t == 1 || t == 2 || t == 3 || t == 4 || t == 5 || t == 6 || t == 7;
  }

  /** The eight symbols are pairwise different, and there is one per pair of
      cards. */
  lemma EmojisDistinct()
    ensures |EMOJIS| == DECK_SIZE / 2
    ensures forall i, j :: 0 <= i < j < |EMOJIS| ==> EMOJIS[i] != EMOJIS[j]
  {
    forall i, j | 0 <= i < j < |EMOJIS| ensures EMOJIS[i] != EMOJIS[j] {
      EmojiNumberOfTable(i);
      EmojiNumberOfTable(j);
    }
  }

  /** The shape of a deck built by `setupGame`, in whatever order: sixteen
      cards, the ids 0 to 15 each on some card and no id twice, and the card
      with id `k` carrying symbol number `k / 2`. */
  ghost predicate DeckShape(cs: seq<Card>) {
    && |cs| == DECK_SIZE
    && (forall i :: 0 <= i < |cs| ==> 0 <= cs[i].id < DECK_SIZE && EmojiNumber(cs[i].emoji) == cs[i].id / 2)
    && (forall i, j :: 0 <= i < j < |cs| ==> cs[i].id != cs[j].id)
    && (forall k :: 0 <= k < DECK_SIZE ==> k in Ids(cs))
  }

  /** The ids carried by the cards of a deck. */
  ghost function Ids(cs: seq<Card>): set<int> {
    set i | 0 <= i < |cs| :: cs[i].id
  }

  /** The positions of the deck holding the card with id `k`. */
  ghost function PositionsWithId(cs: seq<Card>, k: int): set<int> {
    set i | 0 <= i < |cs| && cs[i].id == k
  }

  /** The positions of the deck holding a card with symbol `e`. */
  ghost function PositionsWithEmoji(cs: seq<Card>, e: Emoji): set<int> {
    set i | 0 <= i < |cs| && cs[i].emoji == e
  }

  /** In a deck of this shape every id from 0 to 15 is on exactly one card
      and no other id occurs. */
  lemma EachIdOnce(cs: seq<Card>, k: int)
    requires DeckShape(cs)
    ensures |PositionsWithId(cs, k)| == if 0 <= k < DECK_SIZE then 1 else 0
  {
    if 0 <= k < DECK_SIZE {
      assert k in Ids(cs);
      var p :| 0 <= p < |cs| && cs[p].id == k;
      assert PositionsWithId(cs, k) == {p};
    } else {
      assert PositionsWithId(cs, k) == {};
    }
  }

  /** In a deck of this shape each of the eight symbols is on exactly two
      cards: those with ids `2 * t` and `2 * t + 1`, where `t` is its number. */
  lemma EachEmojiTwice(cs: seq<Card>, e: Emoji)
    requires DeckShape(cs)
    ensures PositionsWithEmoji(cs, e) ==
      PositionsWithId(cs, 2 * EmojiNumber(e)) + PositionsWithId(cs, 2 * EmojiNumber(e) + 1)
    ensures |PositionsWithEmoji(cs, e)| == 2
  {
    var t := EmojiNumber(e);
    assert 2 * t in Ids(cs) && 2 * t + 1 in Ids(cs);
    var p :| 0 <= p < |cs| && cs[p].id == 2 * t;
    var q :| 0 <= q < |cs| && cs[q].id == 2 * t + 1;
    assert EMOJIS[EmojiNumber(cs[p].emoji)] == EMOJIS[t];
    assert EMOJIS[EmojiNumber(cs[q].emoji)] == EMOJIS[t];
    var positions := PositionsWithEmoji(cs, e);
    forall i | i in positions ensures i in {p, q} {
      assert cs[i].id == 2 * t || cs[i].id == 2 * t + 1;
    }
    assert positions == {p, q};
    EmojiPositionsArePairPositions(cs, e);
  }

  /** The cards of a deck of this shape that show symbol `e` are the cards
      whose ids are `2 * t` and `2 * t + 1`, for `t` the number of `e`. */
  lemma EmojiPositionsArePairPositions(cs: seq<Card>, e: Emoji)
    requires DeckShape(cs)
    ensures PositionsWithEmoji(cs, e) ==
      PositionsWithId(cs, 2 * EmojiNumber(e)) + PositionsWithId(cs, 2 * EmojiNumber(e) + 1)
  {
    var t := EmojiNumber(e);
    forall i | 0 <= i < |cs|
      ensures cs[i].emoji == e <==> cs[i].id == 2 * t || cs[i].id == 2 * t + 1
    {
      assert EMOJIS[EmojiNumber(cs[i].emoji)] == cs[i].emoji;
    }
  }

  /** Within a deck of this shape, `==` on cards holds exactly between a
      position and itself. */
  lemma EqualInDeckIsSamePosition(cs: seq<Card>, i: int, j: int)
    requires DeckShape(cs)
    requires 0 <= i < |cs| && 0 <= j < |cs|
    ensures Equal(cs[i], cs[j]) <==> i == j
  {
    if i < j {
      assert cs[i].id != cs[j].id;
    } else if j < i {
      assert cs[j].id != cs[i].id;
    }
  }

  /** A value found at two positions is counted at least twice. */
  lemma RepeatCountsTwice<T>(s: seq<T>, i: int, j: int)
    requires 0 <= i < j < |s| && s[i] == s[j]
    ensures multiset(s)[s[i]] >= 2
  {
    assert s == s[..j] + s[j..];
    assert s[..j][i] == s[i];
    assert s[j..][0] == s[i];
    assert multiset(s) == multiset(s[..j]) + multiset(s[j..]);
  }

  /** In a sequence without repeats every value is counted at most once. */
  lemma {:induction false} NoRepeatCountsOnce<T>(s: seq<T>, x: T)
    requires forall p, q :: 0 <= p < q < |s| ==> s[p] != s[q]
    ensures multiset(s)[x] <= 1
  {
    if |s| > 0 {
      NoRepeatCountsOnce(s[1..], x);
      assert s == [s[0]] + s[1..];
      assert multiset(s) == multiset([s[0]]) + multiset(s[1..]);
      if s[0] == x {
        forall m | 0 <= m < |s[1..]| ensures s[1..][m] != x {
          assert s[1..][m] == s[m + 1];
        }
        assert x !in multiset(s[1..]);
      }
    }
  }

  /** `cards.shuffle()` reorders the same card objects, so the deck keeps its
      shape. */
  lemma ShufflePreservesDeckShape(built: seq<Card>, shuffled: seq<Card>)
    requires DeckShape(built)
    requires multiset(shuffled) == multiset(built)
    ensures DeckShape(shuffled)
  {
    assert |shuffled| == |multiset(shuffled)| == |multiset(built)| == |built|;
    forall i | 0 <= i < |shuffled| ensures shuffled[i] in built {
      assert shuffled[i] in multiset(shuffled);
    }
    forall i, j | 0 <= i < j < |shuffled| ensures shuffled[i].id != shuffled[j].id {
      if shuffled[i].id == shuffled[j].id {
        assert shuffled[i] in built && shuffled[j] in built;
        var m :| 0 <= m < |built| && built[m] == shuffled[i];
        var n :| 0 <= n < |built| && built[n] == shuffled[j];
        assert m == n;
        RepeatCountsTwice(shuffled, i, j);
        NoRepeatCountsOnce(built, shuffled[i]);
        assert false;
      }
    }
    forall k | 0 <= k < DECK_SIZE ensures k in Ids(shuffled) {
      assert k in Ids(built);
      var m :| 0 <= m < |built| && built[m].id == k;
      assert built[m] in multiset(built);
      assert built[m] in multiset(shuffled);
      var i :| 0 <= i < |shuffled| && shuffled[i] == built[m];
      assert shuffled[i].id == k;
    }
  }

  /** The cards built so far by `setupGame`, in building order: the card at
      position `i` has id `i`, symbol number `i / 2`, and lies face down. */
  ghost predicate BuiltInOrder(cs: seq<Card>)
    reads cs
  {
    && |cs| <= DECK_SIZE
    && forall i :: 0 <= i < |cs| ==>
         cs[i].id == i && EmojiNumber(cs[i].emoji) == i / 2 && cs[i].state == FaceDown
  }

  /** A full deck in building order has the deck shape. */
  lemma BuiltDeckHasShape(cs: seq<Card>)
    requires |cs| == DECK_SIZE && BuiltInOrder(cs)
    ensures DeckShape(cs)
  {
    forall k | 0 <= k < DECK_SIZE ensures k in Ids(cs) {
      assert cs[k].id == k;
    }
  }

  /** Shuffling the full deck in building order gives a deck of the right
      shape, face down, made of the same cards. */
  lemma ShuffledBuildIsNewDeck(built: seq<Card>, cs: seq<Card>)
    requires |built| == DECK_SIZE && BuiltInOrder(built)
    requires multiset(cs) == multiset(built)
    ensures DeckShape(cs)
    ensures forall i :: 0 <= i < |cs| ==> cs[i] in built && cs[i].state == FaceDown
  {
    BuiltDeckHasShape(built);
    ShufflePreservesDeckShape(built, cs);
    forall i | 0 <= i < |cs| ensures cs[i] in built && cs[i].state == FaceDown {
      assert cs[i] in multiset(cs);
    }
  }

  /** The guard cases in which `selectCard` returns without doing anything. */
  predicate SelectionIgnored(isGameWon: bool, isCheckingMatch: bool, s: CardState) {
    isGameWon || isCheckingMatch || s == Matched || s == FaceUp
  }

  class MemoryGame {
    var cards: seq<Card>
    var selectedCards: seq<Card>
    var isCheckingMatch: bool
    var score: int
    var moves: int
    var isGameWon: bool
    /** What has been reported to the delegate so far. */
    var events: seq<GameEvent>
    /** The scheduled continuations of `checkForMatch` that have not run yet,
        oldest first. `resetGame` leaves them in place. */
    var pending: seq<Resolution>

    /** The deck keeps its shape and no card in it is ever `Matched`. */
    ghost predicate DeckOk()
      reads this, cards
    {
      && DeckShape(cards)
      && (forall i :: 0 <= i < |cards| ==> cards[i].state != Matched)
    }

    /** At most two cards are selected, all from the deck and turned up (or
        already removed); the gate is up exactly when two are selected, and
        then the newest scheduled closure is the one for those two. */
    ghost predicate SelectionOk()
      reads this, cards
    {
      && (forall c :: c in selectedCards ==> c in cards && (c.state == FaceUp || c.state == Disappeared))
      && |selectedCards| <= 2
      && (isCheckingMatch <==> |selectedCards| == 2)
      && (isCheckingMatch ==>
            |pending| > 0 &&
            pending[|pending| - 1] ==
              Resolution(selectedCards[0], selectedCards[1], selectedCards[0].emoji == selectedCards[1].emoji))
    }

    /** Each scheduled closure is the one its two cards' symbols call for. */
    ghost predicate PendingOk()
      reads this
    {
      forall r :: r in pending ==> (r.isMatch <==> r.card1.emoji == r.card2.emoji)
    }

    /** The game is never won and no win is ever reported; the score is a
        multiple of the reward. */
    ghost predicate CountersOk()
      reads this
    {
      && !isGameWon
      && GameWon !in events
      && score >= 0 && score % MATCH_REWARD == 0
      && moves >= 0
    }

    /** The invariant every public operation keeps. */
    ghost predicate Valid()
      reads this, cards
    {
      DeckOk() && SelectionOk() && PendingOk() && CountersOk()
    }

    /** The state `setupGame` leaves: a full face-down deck, nothing selected,
        counters at zero and both flags down. */
    ghost predicate IsNewGame()
      reads this, cards
    {
      && DeckShape(cards)
      && (forall i :: 0 <= i < |cards| ==> cards[i].state == FaceDown)
      && selectedCards == []
      && score == 0 && moves == 0
      && !isGameWon && !isCheckingMatch
    }

    /** `init()`: a new game; nothing is reported. */
    constructor ()
      ensures Valid() && IsNewGame()
      ensures forall c :: c in cards ==> fresh(c)
      ensures pending == [] && events == []
    {
      cards := [];
      selectedCards := [];
      isCheckingMatch := false;
      score := 0;
      moves := 0;
      isGameWon := false;
      events := [];
      pending := [];
      new;
      SetupGame();
    }

    /** `setupGame()`: clear the counters, build the sixteen cards pair by pair
        with ids 0 to 15, then shuffle them. */
    method SetupGame()
      modifies this
      ensures IsNewGame()
      ensures forall c :: c in cards ==> fresh(c)
      ensures pending == old(pending) && events == old(events)
    {
      cards := [];
      selectedCards := [];
      score := 0;
      moves := 0;
      isGameWon := false;
      isCheckingMatch := false;

      var cardId := 0;
      for e := 0 to |EMOJIS|
        invariant cardId == 2 * e == |cards|
        invariant BuiltInOrder(cards) && forall c :: c in cards ==> fresh(c)
        invariant selectedCards == [] && score == 0 && moves == 0 && !isGameWon && !isCheckingMatch
        invariant pending == old(pending) && events == old(events)
      {
        for copy := 0 to 2
          invariant cardId == 2 * e + copy == |cards|
          invariant BuiltInOrder(cards) && forall c :: c in cards ==> fresh(c)
          invariant selectedCards == [] && score == 0 && moves == 0 && !isGameWon && !isCheckingMatch
          invariant pending == old(pending) && events == old(events)
        {
          EmojiNumberOfTable(e);
          var card := new Card(cardId, EMOJIS[e]);
          cards := cards + [card];
          cardId := cardId + 1;
        }
      }

      ghost var built := cards;
      Shuffle();
      ShuffledBuildIsNewDeck(built, cards);
    }

    /** `cards.shuffle()`: some reordering of the same card objects. */
    method Shuffle()
      modifies this`cards
      ensures multiset(cards) == multiset(old(cards))
    {
      var shuffled: seq<Card> :| multiset(shuffled) == multiset(cards);
      cards := shuffled;
    }

    /** `getCards()`: the deck, in its shuffled order. */
    function GetCards(): (r: seq<Card>)
      reads this
      requires DeckShape(cards)
      ensures r == cards && |r| == DECK_SIZE
    {
      cards
    }

    /** `selectCard(at:)`. The guard and the face-up/matched test make it a
        no-op (the guard returns before the index is used, so any index is
        accepted while a check is in progress); otherwise the card is flipped
        and appended to the selection, and the second card counts a move,
        reports it and starts the check. */
    method SelectCard(index: int)
      requires Valid()
      requires isGameWon || isCheckingMatch || 0 <= index < |cards|
      modifies this, if 0 <= index < |cards| then {cards[index]} else {}
      ensures Valid()
      ensures cards == old(cards) && score == old(score) && isGameWon == old(isGameWon)
      ensures forall i :: 0 <= i < |cards| && i != index ==> cards[i].state == old(cards[i].state)
      ensures old(isGameWon) || old(isCheckingMatch) ==> unchanged(this)
      ensures (0 <= index < |cards| &&
               SelectionIgnored(old(isGameWon), old(isCheckingMatch), old(cards[index].state))) ==>
        unchanged(this) && cards[index].state == old(cards[index].state)
      ensures (0 <= index < |cards| &&
               !SelectionIgnored(old(isGameWon), old(isCheckingMatch), old(cards[index].state))) ==>
        && cards[index].state == Flipped(old(cards[index].state))
        && selectedCards == old(selectedCards) + [cards[index]]
        && if |selectedCards| == 2 then
             && moves == old(moves) + 1
             && events == old(events) + [MovesUpdated(moves)]
             && isCheckingMatch
             && pending == old(pending) + [Resolution(selectedCards[0], selectedCards[1],
                                                      selectedCards[0].emoji == selectedCards[1].emoji)]
           else
             && moves == old(moves) && events == old(events)
             && !isCheckingMatch && pending == old(pending)
    {
      if isGameWon || isCheckingMatch {
        return;
      }
      forall i | 0 <= i < |cards| && i != index ensures cards[i] != cards[index] {
        EqualInDeckIsSamePosition(cards, i, index);
      }
      var card := cards[index];
      if card.state == Matched || card.state == FaceUp {
        return;
      }
      card.Flip();
      selectedCards := selectedCards + [card];
      if |selectedCards| == 2 {
        moves := moves + 1;
        events := events + [MovesUpdated(moves)];
        CheckForMatch();
      }
    }

    /** `checkForMatch()`: raise the gate and schedule the closure that the
        symbols of the two selected cards call for. */
    method CheckForMatch()
      requires |selectedCards| >= 2
      modifies this
      ensures cards == old(cards) && selectedCards == old(selectedCards)
      ensures isCheckingMatch
      ensures pending == old(pending) + [Resolution(selectedCards[0], selectedCards[1],
                                                    selectedCards[0].emoji == selectedCards[1].emoji)]
      ensures score == old(score) && moves == old(moves) && isGameWon == old(isGameWon)
      ensures events == old(events)
    {
      isCheckingMatch := true;
      var card1 := selectedCards[0];
      var card2 := selectedCards[1];
      if card1.emoji == card2.emoji {
        pending := pending + [Resolution(card1, card2, true)];
      } else {
        pending := pending + [Resolution(card1, card2, false)];
      }
    }

    /** The environment runs the scheduled closure `pending[k]`, which is
        then no longer pending. */
    method FirePending(k: int)
      requires Valid()
      requires 0 <= k < |pending|
      modifies this, pending[k].card1, pending[k].card2
      ensures Valid()
      ensures pending == old(pending[..k] + pending[k + 1..])
      ensures cards == old(cards) && moves == old(moves) && isGameWon == old(isGameWon)
      ensures selectedCards == [] && !isCheckingMatch
      ensures var r := old(pending[k]);
        if r.isMatch then
          && r.card1.state == Disappeared && r.card2.state == Disappeared
          && score == old(score) + MATCH_REWARD
          && events == old(events) + [ScoreUpdated(score), CardsMatched]
        else
          && r.card1 != r.card2
          && r.card1.state == Flipped(old(r.card1.state))
          && r.card2.state == Flipped(old(r.card2.state))
          && score == old(score) && events == old(events)
    {
      var r := pending[k];
      pending := pending[..k] + pending[k + 1..];
      assert forall q :: q in pending ==> q in old(pending);
      if r.isMatch {
        MatchClosure(r.card1, r.card2);
      } else {
        MismatchClosure(r.card1, r.card2);
      }
    }

    /** The closure scheduled on a match: remove both cards, add 10 points,
        report the score and the match, clear the selection, lower the gate,
        then test for a win. */
    method MatchClosure(card1: Card, card2: Card)
      requires DeckOk() && PendingOk() && CountersOk()
      modifies this, card1, card2
      ensures Valid()
      ensures card1.state == Disappeared && card2.state == Disappeared
      ensures score == old(score) + MATCH_REWARD
      ensures events == old(events) + [ScoreUpdated(score), CardsMatched]
      ensures selectedCards == [] && !isCheckingMatch
      ensures cards == old(cards) && moves == old(moves) && isGameWon == old(isGameWon)
      ensures pending == old(pending)
    {
      card1.SetMatched();
      card2.SetMatched();
      score := score + MATCH_REWARD;
      events := events + [ScoreUpdated(score)];
      events := events + [CardsMatched];
      selectedCards := [];
      isCheckingMatch := false;
      if CheckWinCondition() {
        // The Swift code sets isGameWon and reports GameWon here; the branch
        // is dead because CheckWinCondition never holds.
        assert false;
      }
    }

    /** The closure scheduled on a mismatch: flip both cards back, clear the
        selection and lower the gate. */
    method MismatchClosure(card1: Card, card2: Card)
      requires DeckOk() && PendingOk() && CountersOk()
      modifies this, card1, card2
      ensures Valid()
      ensures card1 != card2 ==>
        card1.state == Flipped(old(card1.state)) && card2.state == Flipped(old(card2.state))
      ensures card1 == card2 ==> card1.state == old(card1.state)
      ensures selectedCards == [] && !isCheckingMatch
      ensures cards == old(cards) && score == old(score) && moves == old(moves)
      ensures isGameWon == old(isGameWon) && events == old(events) && pending == old(pending)
    {
      card1.Flip();
      card2.Flip();
      selectedCards := [];
      isCheckingMatch := false;
    }

    /** `checkWinCondition()`: the test is whether every card is `Matched`,
        and since no card ever enters that state it never succeeds. */
    function CheckWinCondition(): (won: bool)
      reads this, cards
      requires Valid()
      ensures !won
    {
      assert cards[0].state != Matched;
      forall i :: 0 <= i < |cards| ==> cards[i].state == Matched
    }

    /** `resetGame()`: set the game up again and report the zeroed score and
        moves. Scheduled closures are not cancelled, and none of them refers
        to a card of the new deck. */
    method ResetGame()
      requires Valid()
      modifies this
      ensures Valid() && IsNewGame()
      ensures forall c :: c in cards ==> fresh(c)
      ensures pending == old(pending)
      ensures forall r :: r in pending ==> r.card1 !in cards && r.card2 !in cards
      ensures events == old(events) + [ScoreUpdated(0), MovesUpdated(0)]
    {
      SetupGame();
      events := events + [ScoreUpdated(score)];
      events := events + [MovesUpdated(moves)];
    }
  }
}
