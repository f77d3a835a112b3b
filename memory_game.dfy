/**
 * The recall game `MemoryGame` (src/App.js:127-178). Each handler is one
 * atomic step: the React state updates it queues are applied in order, and
 * what it reads is the state of the render that created it.
 */
module Recall {
  import opened Wrappers

  /** The counts the game-over alert shows. */
  datatype Tally = Tally(remembered: nat, forgotten: nat)

  class MemoryGame {
    /** The deck received as the `images` prop. */
    var images: seq<string>
    var currentCardIndex: nat
    var rememberedCount: nat
    var forgottenCount: nat
    var isRevealed: bool

    /** The two counters add up to the index, and the index is a card of the deck (0 for an empty deck). */
    ghost predicate Valid()
      reads this
    {
      && rememberedCount + forgottenCount == currentCardIndex
      && (|images| == 0 ==> currentCardIndex == 0)
      && (|images| > 0 ==> currentCardIndex < |images|)
    }

    /** The initial `useState` values (src/App.js:128-132). */
    constructor (images: seq<string>)
      ensures Valid()
      ensures this.images == images
      ensures currentCardIndex == 0 && rememberedCount == 0 && forgottenCount == 0 && !isRevealed
    {
      this.images := images;
      currentCardIndex := 0;
      rememberedCount := 0;
      forgottenCount := 0;
      isRevealed := false;
    }

    /** `revealCard`: flips `isRevealed` and nothing else. */
    method RevealCard()
      requires Valid()
      modifies this
      ensures Valid()
      ensures isRevealed == !old(isRevealed)
      ensures images == old(images) && currentCardIndex == old(currentCardIndex)
      ensures rememberedCount == old(rememberedCount) && forgottenCount == old(forgottenCount)
    {
      isRevealed := !isRevealed;
    }

    /**
     * `nextCard`, given the counts its render captured. Before the last card it
     * advances; on the last card (or an empty deck) it reports `seen` and resets
     * the index and both counters. It never touches `isRevealed`.
     */
    method NextCard(seen: Tally) returns (summary: Option<Tally>)
      modifies this`currentCardIndex, this`rememberedCount, this`forgottenCount
      ensures old(currentCardIndex) < |images| - 1 ==>
        && summary == None
        && currentCardIndex == old(currentCardIndex) + 1
        && rememberedCount == old(rememberedCount)
        && forgottenCount == old(forgottenCount)
      ensures old(currentCardIndex) >= |images| - 1 ==>
        && summary == Some(seen)
        && currentCardIndex == 0 && rememberedCount == 0 && forgottenCount == 0
    {
      if currentCardIndex < |images| - 1 {
        currentCardIndex := currentCardIndex + 1;
        summary := None;
      } else {
        summary := Some(seen);
        currentCardIndex := 0;
        rememberedCount := 0;
        forgottenCount := 0;
      }
    }

    /**
     * `handleRemember`: ignored while the card is hidden; otherwise counts the
     * card as remembered and moves on. On the last card the reset overrides
     * the increment, and the summary carries the counts from before this mark.
     */
    method HandleRemember() returns (summary: Option<Tally>)
      requires Valid()
      modifies this
      ensures Valid()
      ensures images == old(images) && isRevealed == old(isRevealed)
      ensures !old(isRevealed) ==>
        && summary == None
        && currentCardIndex == old(currentCardIndex)
        && rememberedCount == old(rememberedCount)
        && forgottenCount == old(forgottenCount)
      ensures old(isRevealed) && old(currentCardIndex) < |images| - 1 ==>
        && summary == None
        && currentCardIndex == old(currentCardIndex) + 1
        && rememberedCount == old(rememberedCount) + 1
        && forgottenCount == old(forgottenCount)
      ensures old(isRevealed) && old(currentCardIndex) >= |images| - 1 ==>
        && summary == Some(Tally(old(rememberedCount), old(forgottenCount)))
        && currentCardIndex == 0 && rememberedCount == 0 && forgottenCount == 0
    {
      if !isRevealed {
        return None;
      }
      var seen := Tally(rememberedCount, forgottenCount);
      rememberedCount := rememberedCount + 1;
      summary := NextCard(seen);
    }

    /** `handleForget`: as HandleRemember, counting the card as forgotten. */
    method HandleForget() returns (summary: Option<Tally>)
      requires Valid()
      modifies this
      ensures Valid()
      ensures images == old(images) && isRevealed == old(isRevealed)
      ensures !old(isRevealed) ==>
        && summary == None
        && currentCardIndex == old(currentCardIndex)
        && rememberedCount == old(rememberedCount)
        && forgottenCount == old(forgottenCount)
      ensures old(isRevealed) && old(currentCardIndex) < |images| - 1 ==>
        && summary == None
        && currentCardIndex == old(currentCardIndex) + 1
        && rememberedCount == old(rememberedCount)
        && forgottenCount == old(forgottenCount) + 1
      ensures old(isRevealed) && old(currentCardIndex) >= |images| - 1 ==>
        && summary == Some(Tally(old(rememberedCount), old(forgottenCount)))
        && currentCardIndex == 0 && rememberedCount == 0 && forgottenCount == 0
    {
      if !isRevealed {
        return None;
      }
      var seen := Tally(rememberedCount, forgottenCount);
      forgottenCount := forgottenCount + 1;
      summary := NextCard(seen);
    }

    /** `images[currentCardIndex]`, the card shown (src/App.js:172); None where JavaScript gives `undefined`. */
    function CurrentImage(): (r: Option<string>)
      reads this
      requires Valid()
      ensures r.Some? <==> |images| > 0
      ensures r.Some? ==> r.value in images
    {
      if currentCardIndex < |images| then Some(images[currentCardIndex]) else None
    }

    /**
     * A re-render with a new `images` prop (the App first renders with an
     * empty deck, then with the loaded one): the game state is kept, and the
     * invariant survives whenever the index is still a card of the new deck,
     * in particular at the start of a round.
     */
    method ReceiveImages(newImages: seq<string>)
      requires Valid()
      modifies this`images
      ensures images == newImages
      ensures (currentCardIndex == 0 || currentCardIndex < |newImages|) ==> Valid()
    {
      images := newImages;
    }
  }

  /** Revealing twice restores every field. */
  method RevealTwice(g: MemoryGame)
    requires g.Valid()
    modifies g
    ensures g.Valid()
    ensures g.isRevealed == old(g.isRevealed) && g.images == old(g.images)
    ensures g.currentCardIndex == old(g.currentCardIndex)
    ensures g.rememberedCount == old(g.rememberedCount) && g.forgottenCount == old(g.forgottenCount)
  {
    g.RevealCard();
    g.RevealCard();
  }

  /**
   * Three cards, played as the code behaves: a mark leaves the next card
   * revealed, so a second click on it hides it and the mark that follows is
   * ignored; the game-over summary omits the final mark.
   */
  method ThreeCardRound()
  {
    var g := new MemoryGame(["a", "b", "c"]);
    g.RevealCard();
    var s := g.HandleRemember();
    assert s == None && g.currentCardIndex == 1 && g.rememberedCount == 1 && g.isRevealed;
    g.RevealCard();
    s := g.HandleForget();
    assert s == None && g.currentCardIndex == 1 && g.forgottenCount == 0 && !g.isRevealed;
    g.RevealCard();
    s := g.HandleForget();
    assert s == None && g.currentCardIndex == 2 && g.forgottenCount == 1;
    s := g.HandleRemember();
    assert s == Some(Tally(1, 1));
    assert g.currentCardIndex == 0 && g.rememberedCount == 0 && g.forgottenCount == 0 && g.isRevealed;
  }
}
