# Memory game engine, modelled in Dafny

This project models the game-state engine of a memory-matching card game
with sixteen cards: eight emojis, two cards each. There are two parts.

- `card.dfy`, module `Cards`: a card with a fixed `id` and `emoji` and a
  mutable `state`. The state is one of `FaceDown`, `FaceUp`, `Matched` and
  `Disappeared`. `Flip` swaps face-down and face-up and leaves the two removed
  states alone. `SetMatched` always moves the card to `Disappeared`. Card
  `==` compares ids only.
- `memory_game.dfy`, module `Game`: class `MemoryGame` with the fields of the
  source. These are the deck `cards`, the selection `selectedCards`, `score`,
  `moves`, `isGameWon` and the gate `isCheckingMatch`. It builds and shuffles
  the deck, accepts `SelectCard`, counts a move for each completed pair and
  schedules a resolution. It also resets the game.

The two deferred closures of `checkForMatch` become entries of the field
`pending`. The environment runs one with `FirePending(k)`. The match
closure waits 0.5 s and the mismatch closure 1.0 s, so in Swift a later
closure can overtake an earlier one only when the earlier is a mismatch
closure and the later a match closure scheduled less than 0.5 s after it;
otherwise closures run oldest first. The model lets any pending entry run,
which covers every order Swift can produce. The delegate becomes the
append-only log `events`.

`scenarios.dfy`, module `Scenarios`, holds client methods. Each one combines
several calls and says what their contracts imply together.

The model follows the code as written, including these behaviours of the
code:

- **A win is never reported.** `setMatched()` produces `Disappeared`, but the
  win test asks for `Matched`. No card ever reaches `Matched`, so
  `MemoryGame.Valid()` keeps `!isGameWon` and `GameWon !in events` as
  invariants. The `isGameWon` half of the guard in `selectCard` can
  therefore never fire.
- **A removed card can be selected again.** The guard excludes only
  `Matched` and `FaceUp` cards. Calling `selectCard(at:)` twice on a
  `Disappeared` card selects it twice and counts a move. The card then
  matches itself and scores 10 (`Scenarios.RemovedCardScoresAgain`). In the
  app the view of a removed card is fully transparent and receives no taps,
  so only a direct call to the engine reaches this case.
- **Moves count pairs.** `moves` grows only when the second card of a pair
  is selected.
- **Reset does not cancel a scheduled closure.** After `ResetGame` the
  closure stays in `pending` and refers only to cards of the old deck. When
  it runs, it clears the new game's selection and lowers its gate; a stale
  match closure also adds 10 to the new game's score
  (`Scenarios.ResetThenStaleMatchScores`). So `score` is a multiple of 10
  but is not bounded by `10 * moves`. If one card of the new deck was
  selected when the stale closure runs, that card leaves the selection but
  stays `FaceUp`, and the face-up test in `selectCard` refuses it until the
  next reset (`Scenarios.StaleClosureStrandsFaceUpCard`).

In short, the code has four card states, a selection of at most two
cards, one move per pair, no per-card timers (only the two closures of
`checkForMatch`), a win test that never succeeds, and a trap on an
out-of-range index once the guard of `selectCard` has let the call through.

## Model

| member | source | states |
|---|---|---|
| `Cards.Card.constructor` | temp/Card.swift:22-26 | a new card carries exactly the given id and emoji and is face down |
| `Cards.Card.Flip` | temp/Card.swift:32-41 | the new state is `Flipped` of the old one; `id` and `emoji` are constants and cannot change |
| `Cards.FlipToggles` | temp/Card.swift:33-37 | flip sends face-down to face-up and face-up to face-down, in both directions |
| `Cards.FlipTwiceRestores` | temp/Card.swift:32-41 | flipping twice restores any state |
| `Cards.FlipKeepsRemoved` | temp/Card.swift:38-39 | flip leaves the state unchanged exactly when it is `Matched` or `Disappeared` |
| `Cards.FlipNeverMatches` | temp/Card.swift:32-41 | flip never produces `Matched` from another state |
| `Cards.Card.SetMatched` | temp/Card.swift:43-45 | from any state the card becomes `Disappeared` |
| `Cards.SetMatchedIsIdempotent` | temp/Card.swift:43-45 | calling `setMatched()` twice and then flipping leaves the card `Disappeared`, as one call does |
| `Cards.Equal` | temp/Card.swift:28-30 | two cards are equal exactly when their ids are; emoji and state play no part |
| `Cards.EqualIsEquivalence` | temp/Card.swift:28-30 | `==` depends on the id alone and is reflexive, symmetric and transitive |
| `Game.EmojiNumber` | temp/MemoryGame.swift:28 | numbers each emoji by its position in the table: indexing the table at the number gives the emoji back |
| `Game.EmojiNumberOfTable` | temp/MemoryGame.swift:28 | numbering the emoji at a position of the table gives back that position |
| `Game.EmojisDistinct` | temp/MemoryGame.swift:28 | the emoji table has eight pairwise different entries, one per pair of cards |
| `Game.MemoryGame.SetupGame` | temp/MemoryGame.swift:34-54 | the new deck has the deck shape, every card is face down and freshly made, selection is empty, counters are 0 and both flags false; pending closures and events are untouched |
| `Game.MemoryGame.constructor` | temp/MemoryGame.swift:30-32 | a new game is in the set-up state with nothing pending and nothing reported |
| `Game.BuiltDeckHasShape` | temp/MemoryGame.swift:43-50 | sixteen cards built in order (id `i`, emoji number `i / 2`, face down) have the deck shape |
| `Game.MemoryGame.Shuffle` | temp/MemoryGame.swift:53 | the deck afterwards holds the same card objects, each as often as before; no other field changes |
| `Game.ShuffledBuildIsNewDeck` | temp/MemoryGame.swift:43-53 | any reordering of the built deck has the deck shape, lies face down and holds only the built cards |
| `Game.ShufflePreservesDeckShape` | temp/MemoryGame.swift:53 | any reordering of the same card objects keeps 16 cards, unique ids covering 0..15, and each id tied to its emoji |
| `Game.EachIdOnce` | temp/MemoryGame.swift:43-50 | in a deck of that shape each id 0..15 is at exactly one position and no other id occurs |
| `Game.EachEmojiTwice` | temp/MemoryGame.swift:44-50 | in a deck of that shape each of the eight emojis is on exactly two cards, and its positions are those of ids `2 * t` and `2 * t + 1` for the emoji's number `t` |
| `Game.EmojiPositionsArePairPositions` | temp/MemoryGame.swift:44-50 | in a deck of that shape a card shows an emoji exactly when its id is `2 * t` or `2 * t + 1` for that emoji's number `t` |
| `Game.EqualInDeckIsSamePosition` | temp/Card.swift:28-30 | within a deck of that shape two cards are `==` exactly when they are at the same position |
| `Game.MemoryGame.GetCards` | temp/MemoryGame.swift:56-58 | returns the deck itself, sixteen cards in shuffled order |
| `Game.MemoryGame.SelectCard` | temp/MemoryGame.swift:60-80 | any index is accepted when won or checking, and then nothing changes; a deck position is required otherwise; when the card is face up or matched, nothing changes (fields, card, events); otherwise the card is flipped and appended, and if the selection reaches two, moves grows by 1, `MovesUpdated(moves)` is reported, the gate goes up and one resolution is scheduled; with one card selected, moves, events and pending stay; no other card changes; the invariant (at most two selected, gate up exactly when two are selected) is kept |
| `Game.MemoryGame.CheckForMatch` | temp/MemoryGame.swift:82-88 | raises the gate and appends one resolution for the two selected cards, flagged as a match exactly when their emojis are equal |
| `Game.MemoryGame.FirePending` | temp/MemoryGame.swift:88-113 | runs one scheduled closure and removes it from `pending`; the selection is cleared and the gate lowered; on a match both cards are `Disappeared`, score grows by exactly 10 and `ScoreUpdated` then `CardsMatched` are reported; on a mismatch both cards are flipped back and score and events stay; moves and all other cards never change |
| `Game.MemoryGame.MatchClosure` | temp/MemoryGame.swift:90-104 | both cards become `Disappeared`, score grows by exactly 10, `ScoreUpdated(score)` then `CardsMatched` are reported, selection is cleared, the gate is lowered, the win test fails and the invariant holds again |
| `Game.MemoryGame.MismatchClosure` | temp/MemoryGame.swift:107-112 | both cards are flipped (a card given twice is flipped twice, so it ends as it began), selection is cleared and the gate lowered; score, moves and events stay |
| `Game.MemoryGame.CheckWinCondition` | temp/MemoryGame.swift:116-118 | on any valid game the test that every card is `Matched` is false |
| `Game.MemoryGame.ResetGame` | temp/MemoryGame.swift:120-124 | restores the set-up state with a fresh deck, reports `ScoreUpdated(0)` then `MovesUpdated(0)`, keeps every pending closure, and no pending closure refers to a card of the new deck |
| `Scenarios.MatchingPairScores` | temp/MemoryGame.swift:60-104 | selecting two face-down cards with the same emoji and running the closure removes exactly those two, adds one move and 10 points, and reports moves, score and match in that order |
| `Scenarios.MismatchedPairFlipsBack` | temp/MemoryGame.swift:105-112 | selecting two face-down cards with different emojis and running the closure leaves every card as it was, adds one move and reports only the move |
| `Scenarios.RemovedCardScoresAgain` | temp/MemoryGame.swift:66-72 | tapping a removed card twice and running the closure adds one move and 10 points without changing any card |
| `Scenarios.ResetThenStaleMatchScores` | temp/MemoryGame.swift:120-124 | a reset during a match check followed by that closure leaves a face-down new deck with score 10 and moves 0 |
| `Scenarios.StaleClosureStrandsFaceUpCard` | temp/MemoryGame.swift:60-124 | after a reset during a check, selecting one new card and then running the stale closure leaves that card face up with an empty selection, and tapping it again changes nothing |

## Left out

- The view controller and card view (layout, labels, alerts, sound, animation) are not part of this model; they only read card state.
- Real time: the 0.5 s and 1.0 s delays become the choice of which pending entry `FirePending` runs.
- The random source of `shuffle()`: the model takes any sequence holding the same card objects.
- The weak delegate reference: the model always reports, to the `events` log; a missing delegate would drop the reports.
- Emoji strings as Unicode: each emoji is a constructor of the datatype `Emoji`, because only equality between emojis is used.
- Swift's trap on integer overflow of `score` and `moves`: the model uses unbounded integers.
- Game.MemoryGame.SelectCard: an out-of-range index that passes the guard traps in Swift at `cards[index]`; the model excludes it with a precondition. While the game is won or a check is in progress the guard returns first, and the model accepts any index there.
- Game.MemoryGame.MatchClosure: the source sets `isGameWon` and reports `GameWon` when the win test holds; the model proves that branch unreachable and puts `assert false` there in place of the two assignments.
