/**
 * Clients of the model: the two screens over one shared deck object, as the
 * app wires them (`EditCards(cards: cards)`), showing what their contracts
 * allow a caller to conclude.
 */
module Scenarios {
  import opened CardModel
  import opened Whitespace
  import opened DeckStore
  import opened StudyView
  import opened EditView

  /**
   * A two-card deck on disk: the study screen loads it, a swipe discards
   * the top card for the session only, and a fresh load brings both cards
   * back because the swipe saved nothing.
   */
  method SessionRemovalIsEphemeral(c1: Card, c2: Card)
  {
    var view := new ContentView(Readable([c1, c2]));
    view.ResetCards();
    assert view.cards.allCards == [c1, c2];
    view.RemoveTopCard();
    assert view.cards.allCards == [c1] && view.isActive;
    view.cards.LoadData();
    assert view.cards.allCards == [c1, c2];
  }

  /**
   * Deleting on the editing screen is saved: a later `resetCards` on the
   * study screen, as `.onAppear` runs it, reloads the shortened deck.  The
   * study screen's countdown is not touched by the editing screen.
   */
  method EditRemovalIsPermanent(c1: Card, c2: Card)
  {
    var view := new ContentView(Readable([c1, c2]));
    view.ResetCards();
    view.Tick();
    assert view.timeRemaining == 99;
    var editor := new EditCards(view.cards);
    editor.RemoveCards({0}, Written);
    assert view.timeRemaining == 99;
    view.ResetCards();
    assert view.cards.allCards == [c2] && view.timeRemaining == 100;
  }

  /** A whitespace-only prompt adds nothing, saves nothing and leaves both fields as typed. */
  method AddingBlankIsNoOp(c: Card, prompt: string, answer: string)
    requires AllWhitespace(prompt, 0, |prompt|)
  {
    var cards := new Cards(Readable([c]));
    cards.LoadData();
    var editor := new EditCards(cards);
    editor.newPrompt, editor.newAnswer := prompt, answer;
    TrimEmptyIff(prompt);
    editor.AddCard(7, Written);
    assert cards.allCards == [c] && cards.store == Readable([c]);
    assert editor.newPrompt == prompt && editor.newAnswer == answer;
  }

  /** Non-blank input goes to the front of the deck trimmed and clears the fields. */
  method AddingTrimmed(c: Card, prompt: string, answer: string)
    requires Trim(prompt) != [] && Trim(answer) != []
  {
    var cards := new Cards(Readable([c]));
    cards.LoadData();
    var editor := new EditCards(cards);
    editor.newPrompt, editor.newAnswer := prompt, answer;
    editor.AddCard(7, Written);
    assert cards.allCards == [Card(7, Trim(prompt), Trim(answer)), c];
    assert editor.newPrompt == "" && editor.newAnswer == "";
  }

  /** A card added on the editing screen is saved: reloading the deck gives it back at the front. */
  method AddedCardSurvivesReload(c: Card, prompt: string, answer: string)
    requires Trim(prompt) != [] && Trim(answer) != []
  {
    var cards := new Cards(Readable([c]));
    cards.LoadData();
    var editor := new EditCards(cards);
    editor.newPrompt, editor.newAnswer := prompt, answer;
    editor.AddCard(7, Written);
    ghost var saved := cards.allCards;
    cards.LoadData();
    assert cards.allCards == saved;
  }

  /**
   * A failed save never puts a deck in the file that was not saved: a
   * reload after it gives the previously saved deck or an empty one.
   */
  method FailedSaveLosesNoSavedDeck(c: Card, d: Card, io: WriteResult)
    requires !io.Written?
  {
    var cards := new Cards(Readable([c]));
    cards.LoadData();
    cards.allCards := [d];
    cards.SaveData(io);
    cards.LoadData();
    assert cards.allCards == [c] || cards.allCards == [];
  }
}
