/**
 * The deck and its persistence (Cards.swift): the in-memory `allCards`
 * and the file "Cards" in the documents directory.  The file is modelled
 * by its meaning: either it decodes to a deck, or it cannot be read or
 * decoded.  The JSON codec itself is taken to round-trip.
 */
module DeckStore {
  import opened CardModel

  /** What the file at the save path holds, as `loadData` would see it. */
  datatype Store = Unreadable | Readable(cards: seq<Card>)

  /**
   * The outcome of writing the encoded deck to the file: success, a failure
   * before anything was written (the old content stays), or a failure part
   * way through the non-atomic write (what is left no longer decodes).
   */
  datatype WriteResult = Written | FailedBeforeWrite | FailedMidWrite

  class Cards {
    /** The in-memory deck. */
    var allCards: seq<Card>
    /** The file at the save path. */
    var store: Store

    /** A fresh object starts with an empty deck; the file is whatever is on disk. */
    constructor (disk: Store)
      ensures allCards == [] && store == disk
    {
      allCards := [];
      store := disk;
    }

    /** Replaces the deck with the file's content; any read or decode failure gives an empty deck and is not reported. */
    method LoadData()
      modifies this`allCards
      ensures store.Readable? ==> allCards == store.cards
      ensures store.Unreadable? ==> allCards == []
      ensures store == old(store)
    {
      match store {
        case Readable(cards) =>
          allCards := cards;
        case Unreadable =>
          allCards := [];
      }
    }

    /** Writes the deck to the file; a failure is only logged: the deck stays as it was and nothing is reported. */
    method SaveData(io: WriteResult)
      modifies this`store
      ensures allCards == old(allCards)
      ensures io.Written? ==> store == Readable(allCards)
      ensures io.FailedBeforeWrite? ==> store == old(store)
      ensures io.FailedMidWrite? ==> store == Unreadable
    {
      match io {
        case Written =>
          store := Readable(allCards);
        case FailedBeforeWrite =>
        case FailedMidWrite =>
          store := Unreadable;
      }
    }
  }

  /**
   * Round trip over the file: a successful `saveData` followed by
   * `loadData` gives back the deck that was saved.
   */
  method SaveThenLoad(c: Cards)
    modifies c
    ensures c.allCards == old(c.allCards)
    ensures c.store == Readable(old(c.allCards))
  {
    c.SaveData(Written);
    c.LoadData();
  }
}
