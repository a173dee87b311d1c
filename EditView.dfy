/**
 * The editing screen (EditCards.swift): two text fields for a new card and
 * the list of cards with swipe-to-delete.  It works on the same deck object
 * as the study screen, and every change it makes is saved.
 */
module EditView {
  import opened CardModel
  import opened Whitespace
  import opened Offsets
  import opened DeckStore

  class EditCards {
    /** The deck object shared with the study screen. */
    const cards: Cards
    var newPrompt: string
    var newAnswer: string

    constructor (cards: Cards)
      ensures this.cards == cards
      ensures newPrompt == "" && newAnswer == ""
    {
      this.cards := cards;
      newPrompt := "";
      newAnswer := "";
    }

    /**
     * "Add": trims both fields; if either is blank nothing happens.
     * Otherwise a card with the fresh id `freshId` (Swift's `UUID()`)
     * goes to the front of the deck, the deck is saved with outcome `io`,
     * and both fields are cleared.
     */
    method AddCard(freshId: Uuid, io: WriteResult)
      modifies this`newPrompt, this`newAnswer, cards
      ensures Trim(old(newPrompt)) == [] || Trim(old(newAnswer)) == [] ==>
                cards.allCards == old(cards.allCards) && cards.store == old(cards.store) &&
                newPrompt == old(newPrompt) && newAnswer == old(newAnswer)
      ensures Trim(old(newPrompt)) != [] && Trim(old(newAnswer)) != [] ==>
                cards.allCards == [Card(freshId, Trim(old(newPrompt)), Trim(old(newAnswer)))] + old(cards.allCards) &&
                (io.Written? ==> cards.store == Readable(cards.allCards)) &&
                (io.FailedBeforeWrite? ==> cards.store == old(cards.store)) &&
                (io.FailedMidWrite? ==> cards.store == Unreadable) &&
                newPrompt == "" && newAnswer == ""
      ensures DistinctIds(old(cards.allCards)) && freshId !in Ids(old(cards.allCards)) ==>
                DistinctIds(cards.allCards)
    {
      var trimmedPrompt := Trim(newPrompt);
      var trimmedAnswer := Trim(newAnswer);
      if trimmedPrompt == [] || trimmedAnswer == [] {
        return;
      }
      var card := Card(freshId, trimmedPrompt, trimmedAnswer);
      if DistinctIds(cards.allCards) && freshId !in Ids(cards.allCards) {
        PrependKeepsDistinct(card, cards.allCards);
      }
      cards.allCards := [card] + cards.allCards;
      cards.SaveData(io);
      newPrompt := "";
      newAnswer := "";
    }

    /**
     * Swipe-to-delete: removes the cards at the given list positions,
     * keeping the others in order, then saves with outcome `io`.  The list
     * deletes only rows it shows, one per deck position, so every offset is
     * in range.
     */
    method RemoveCards(offsets: set<int>, io: WriteResult)
      requires forall o :: o in offsets ==> 0 <= o < |cards.allCards|
      modifies cards
      ensures cards.allCards == RemovingOffsets(old(cards.allCards), offsets)
      ensures |cards.allCards| == old(|cards.allCards|) - |offsets|
      ensures io.Written? ==> cards.store == Readable(cards.allCards)
      ensures io.FailedBeforeWrite? ==> cards.store == old(cards.store)
      ensures io.FailedMidWrite? ==> cards.store == Unreadable
      ensures DistinctIds(old(cards.allCards)) ==> DistinctIds(cards.allCards)
    {
      if DistinctIds(cards.allCards) {
        RemovingOffsetsKeepsDistinct(cards.allCards, offsets);
      }
      RemovingOffsetsLength(cards.allCards, offsets);
      cards.allCards := RemovingOffsets(cards.allCards, offsets);
      cards.SaveData(io);
    }
  }

  /** A card made by "Add" carries non-blank text with no whitespace at either end. */
  lemma AddedCardIsClean(prompt: string, answer: string)
    requires Trim(prompt) != [] && Trim(answer) != []
    ensures !AllWhitespace(prompt, 0, |prompt|) && !AllWhitespace(answer, 0, |answer|)
    ensures !IsWhitespace(Trim(prompt)[0]) && !IsWhitespace(Trim(prompt)[|Trim(prompt)| - 1])
    ensures !IsWhitespace(Trim(answer)[0]) && !IsWhitespace(Trim(answer)[|Trim(answer)| - 1])
    ensures Trim(Trim(prompt)) == Trim(prompt) && Trim(Trim(answer)) == Trim(answer)
  {
    TrimEmptyIff(prompt);
    TrimEmptyIff(answer);
    TrimHasNoEdgeWhitespace(prompt);
    TrimHasNoEdgeWhitespace(answer);
    TrimIdempotent(prompt);
    TrimIdempotent(answer);
  }
}
