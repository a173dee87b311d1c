/**
 * The study screen's session state (ContentView.swift): a countdown that
 * starts at 100, an activity flag, and the shared deck.  The timer
 * publisher and the scene phase are event sources outside the model; each
 * event is a method call.
 */
module StudyView {
  import opened CardModel
  import opened DeckStore

  /** The countdown's starting value, in seconds. */
  const InitialTime: int := 100

  class ContentView {
    /** The deck object shared with the editing screen. */
    const cards: Cards
    var timeRemaining: int
    var isActive: bool

    /** The countdown stays between 0 and its starting value. */
    ghost predicate Valid()
      reads this
    {
      0 <= timeRemaining <= InitialTime
    }

    /** The view's initial state, before it appears: a fresh deck object over the file on disk. */
    constructor (disk: Store)
      ensures Valid() && fresh(cards)
      ensures cards.allCards == [] && cards.store == disk
      ensures timeRemaining == InitialTime && isActive
    {
      cards := new Cards(disk);
      timeRemaining := InitialTime;
      isActive := true;
    }

    /** One second of the timer: only while active, and never below zero. */
    method Tick()
      requires Valid()
      modifies this`timeRemaining
      ensures Valid()
      ensures !isActive ==> timeRemaining == old(timeRemaining)
      ensures isActive && old(timeRemaining) > 0 ==> timeRemaining == old(timeRemaining) - 1
      ensures isActive && old(timeRemaining) == 0 ==> timeRemaining == 0
    {
      if !isActive {
        return;
      }
      if timeRemaining > 0 {
        timeRemaining := timeRemaining - 1;
      }
    }

    /**
     * A scene-phase change; `active` says whether the new phase is `.active`.
     * Leaving the active phase deactivates; coming back reactivates only
     * over a non-empty deck.
     */
    method ScenePhaseChanged(active: bool)
      requires Valid()
      modifies this`isActive
      ensures Valid()
      ensures !active ==> !isActive
      ensures active && cards.allCards != [] ==> isActive
      ensures active && cards.allCards == [] ==> isActive == old(isActive)
    {
      if active {
        if cards.allCards != [] {
          isActive := true;
        }
      } else {
        isActive := false;
      }
    }

    /** "Start Again" and the view's first appearance: restart the countdown, reactivate, reload the deck. */
    method ResetCards()
      requires Valid()
      modifies this, cards
      ensures Valid()
      ensures timeRemaining == InitialTime && isActive
      ensures cards.store.Readable? ==> cards.allCards == cards.store.cards
      ensures cards.store.Unreadable? ==> cards.allCards == []
      ensures cards.store == old(cards.store)
    {
      timeRemaining := InitialTime;
      isActive := true;
      cards.LoadData();
    }

    /**
     * Discards one card for this session only (a swipe, or the "Wrong" and
     * "Correct" buttons on the top card): nothing is saved.  A negative
     * index is ignored; an index past the end traps in Swift's `Array.remove(at:)`, so it is
     * excluded here.  Emptying the deck deactivates the session.
     */
    method RemoveCard(index: int)
      requires Valid()
      requires index < |cards.allCards|
      modifies this`isActive, cards`allCards
      ensures Valid()
      ensures timeRemaining == old(timeRemaining) && cards.store == old(cards.store)
      ensures index < 0 ==> cards.allCards == old(cards.allCards) && isActive == old(isActive)
      ensures 0 <= index ==> cards.allCards == old(cards.allCards[..index] + cards.allCards[index + 1..])
      ensures 0 <= index && cards.allCards == [] ==> !isActive
      ensures index < 0 || cards.allCards != [] ==> isActive == old(isActive)
      ensures DistinctIds(old(cards.allCards)) ==> DistinctIds(cards.allCards)
    {
      if index < 0 {
        return;
      }
      if DistinctIds(cards.allCards) {
        RemoveAtKeepsDistinct(cards.allCards, index);
      }
      cards.allCards := cards.allCards[..index] + cards.allCards[index + 1..];
      if cards.allCards == [] {
        isActive := false;
      }
    }

    /** Removes the top card, as the accessibility buttons do: `removeCard(at: count - 1)`. */
    method RemoveTopCard()
      requires Valid()
      modifies this`isActive, cards`allCards
      ensures Valid()
      ensures timeRemaining == old(timeRemaining) && cards.store == old(cards.store)
      ensures old(cards.allCards) == [] ==> cards.allCards == [] && isActive == old(isActive)
      ensures old(cards.allCards) != [] ==> cards.allCards == old(cards.allCards[..|cards.allCards| - 1])
      ensures old(|cards.allCards|) == 1 ==> !isActive
      ensures old(|cards.allCards|) != 1 ==> isActive == old(isActive)
      ensures DistinctIds(old(cards.allCards)) ==> DistinctIds(cards.allCards)
    {
      RemoveCard(|cards.allCards| - 1);
    }
  }
}
