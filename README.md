# MakeMeSmart: deck and study-session model

MakeMeSmart is a flashcard app. A deck of prompt/answer cards is kept in memory (`Cards.allCards`)
and in a JSON file named "Cards" in the documents directory. The study screen (`ContentView`) shows
the cards as a stack, runs a 100-second countdown and discards cards as they are swiped away. The
editing screen (`EditCards`) adds cards and deletes them for good. Both screens work on one shared
`Cards` object.

This project models that state in Dafny:

- `CardModel.dfy`: the `Card` record (id, prompt, answer), with lemmas that adding a card with an
  unused id and removing cards keep card ids distinct. The deck methods carry these as
  postconditions: if the ids were distinct before (and, for "Add", the new id was unused), they
  are distinct afterwards.
- `Whitespace.dfy`: `trimmingCharacters(in: .whitespaces)`. The whitespace set is Unicode category
  Zs plus the tab character; line breaks are not in it. Characters are Unicode scalar values.
  Every member of `.whitespaces` is one scalar, so trimming scalar by scalar is what Foundation
  does. Trimming is defined by counting the
  leading and trailing whitespace. It is also characterised on its own terms: cut whitespace off
  both ends until a non-whitespace character is reached.
- `Offsets.dfy`: SwiftUI's `remove(atOffsets:)` on `MutableCollection & RangeReplaceableCollection`. It is characterised through the ordered list of
  positions it keeps.
- `DeckStore.dfy`: the `Cards` class with its deck and an abstract `store` standing for the file.
  `loadData` replaces the deck with the stored one, or with an empty deck on any failure. `saveData`
  writes the deck. The write outcome is a parameter: success, a failure before anything was
  written (the file keeps its old content), or a failure part way through (the file no longer
  decodes).
- `StudyView.dfy`: the `ContentView` class. It holds `timeRemaining`, `isActive` and the shared
  deck, with the timer tick, the scene-phase change, "Start Again" and per-session removal.
- `EditView.dfy`: the `EditCards` class. It holds the `newPrompt`/`newAnswer` fields, "Add" and
  swipe-to-delete, and saves after every change.
- `Scenarios.dfy`: client methods. They drive both screens over one deck and show what the
  contracts let a caller conclude. Examples: a swipe is undone by reloading; an edit-screen delete
  survives a reload; blank input adds nothing.

Inputs from outside the program are parameters: the file's content when the app starts, the result
of each write, the scene phase as a boolean, and the UUID of a new card.

Two behaviours of the code worth knowing:

- `removeCard(at:)` ignores only negative indices. An index at or past the end traps in
  `Array.remove(at:)`, so the model makes `index < |allCards|` a precondition. Every call site
  meets it: the stack passes positions of cards on screen, and the buttons pass `count - 1`.
- The session can be active over an empty deck. `resetCards` sets `isActive` to true even when
  the reloaded deck is empty. A delete on the editing screen can empty the deck without touching
  `isActive`.

## Model

| member | source | states |
|---|---|---|
| `CardModel.PrependKeepsDistinct` | MakeMeSmart/EditCards.swift:59-60 | putting a card whose id is not in the deck at the front keeps all ids distinct |
| `CardModel.RemovingOffsetsKeepsDistinct` | MakeMeSmart/EditCards.swift:69 | batch deletion keeps the ids of a deck distinct |
| `CardModel.RemoveAtKeepsDistinct` | MakeMeSmart/ContentView.swift:168 | removing one card keeps the ids of a deck distinct |
| `Whitespace.IsWhitespace` | MakeMeSmart/EditCards.swift:55-56 | membership in `.whitespaces`: space and tab are in it; line feed, carriage return, vertical tab, form feed, NEL and the line and paragraph separators are not |
| `Whitespace.LeadingCount` | MakeMeSmart/EditCards.swift:55-56 | the number of leading whitespace characters never exceeds the length |
| `Whitespace.TrailingCount` | MakeMeSmart/EditCards.swift:55-56 | the number of trailing whitespace characters never exceeds the length |
| `Whitespace.LeadingCountIsMaximal` | MakeMeSmart/EditCards.swift:55-56 | the counted prefix is all whitespace, and the next character (if any) is not |
| `Whitespace.TrailingCountIsMaximal` | MakeMeSmart/EditCards.swift:55-56 | the counted suffix is all whitespace, and the character before it (if any) is not |
| `Whitespace.TrimStart` | MakeMeSmart/EditCards.swift:55-56 | removing leading whitespace leaves a suffix of the input |
| `Whitespace.TrimEnd` | MakeMeSmart/EditCards.swift:55-56 | removing trailing whitespace leaves a prefix of the input |
| `Whitespace.Trim` | MakeMeSmart/EditCards.swift:55-56 | `trimmingCharacters(in: .whitespaces)` (leading, then trailing whitespace removed) is never longer than its input; what it means is stated by the lemmas below |
| `Whitespace.TrimIsTrimmedSlice` | MakeMeSmart/EditCards.swift:55-56 | the trimmed text is a contiguous slice `s[lo..hi]`; all of `s` outside it is whitespace; a non-empty slice starts and ends with non-whitespace |
| `Whitespace.TrimUnique` | MakeMeSmart/EditCards.swift:55-56 | any slice with those properties is exactly the trimmed text, so trimming is fully determined by its meaning |
| `Whitespace.TrimHasNoEdgeWhitespace` | MakeMeSmart/EditCards.swift:55-56 | the trimmed text has no leading or trailing whitespace |
| `Whitespace.TrimIdempotent` | MakeMeSmart/EditCards.swift:55-56 | trimming twice gives the same text as trimming once |
| `Whitespace.TrimEmptyIff` | MakeMeSmart/EditCards.swift:55-57 | the trimmed text is empty exactly when the input is all whitespace (the blank-input guard of "Add") |
| `Offsets.KeptIndices` | MakeMeSmart/EditCards.swift:69 | lists, in strictly increasing order, exactly the positions below n that are not in the offset set |
| `Offsets.RemovingOffsets` | MakeMeSmart/EditCards.swift:69 | `remove(atOffsets:)`: the result is no longer than the input and holds only elements of the input; its exact content is stated by `RemovingOffsetsAt` |
| `Offsets.RemovingOffsetsAt` | MakeMeSmart/EditCards.swift:69 | the batch-delete result has one element per kept position: element j is the input element at the j-th kept position |
| `Offsets.KeptCount` | MakeMeSmart/EditCards.swift:69 | the number of kept positions is n minus the number of offsets below n |
| `Offsets.RemovingOffsetsLength` | MakeMeSmart/EditCards.swift:69 | when every offset is in range, the result is exactly `|offsets|` elements shorter |
| `Offsets.RemovingOffsetsElements` | MakeMeSmart/EditCards.swift:69 | every element at a position not in the offset set survives, and every survivor comes from such a position |
| `Offsets.RemoveAtIsSingleOffset` | MakeMeSmart/ContentView.swift:168 | `remove(at: i)`, i.e. `s[..i] + s[i+1..]`, is batch deletion of the offset set `{i}` |
| `DeckStore.Cards.constructor` | MakeMeSmart/Cards.swift:10-13 | a fresh `Cards` has an empty deck; the file is whatever is on disk |
| `DeckStore.Cards.LoadData` | MakeMeSmart/Cards.swift:15-22 | the deck becomes exactly the stored cards, replacing what was there; when the file is missing or does not decode, the deck becomes empty and no error escapes; the file is unchanged |
| `DeckStore.Cards.SaveData` | MakeMeSmart/Cards.swift:24-31 | the deck never changes; a successful write makes the file hold the current deck; a failed write is not reported; a failure before writing leaves the file as it was, a failure part way through the non-atomic write leaves it unreadable |
| `DeckStore.SaveThenLoad` | MakeMeSmart/Cards.swift:15-31 | a successful save followed by a load gives back the saved deck (round trip over the file) |
| `StudyView.ContentView.constructor` | MakeMeSmart/ContentView.swift:18-27 | the screen starts with a fresh deck object, the countdown at 100 and the session active |
| `StudyView.ContentView.Tick` | MakeMeSmart/ContentView.swift:134-139 | while inactive the countdown is unchanged; while active it drops by exactly 1 when positive, stays at 0 when 0, and never goes negative |
| `StudyView.ContentView.ScenePhaseChanged` | MakeMeSmart/ContentView.swift:142-150 | a non-active phase deactivates; an active phase activates over a non-empty deck and leaves `isActive` unchanged over an empty one |
| `StudyView.ContentView.ResetCards` | MakeMeSmart/ContentView.swift:159-163 | the countdown is 100 and the session active, even if the reloaded deck is empty; the deck is what `loadData` gives; the file is unchanged |
| `StudyView.ContentView.RemoveCard` | MakeMeSmart/ContentView.swift:166-173 | a negative index changes nothing; otherwise the deck loses exactly the card at that index; the session deactivates if the deck becomes empty and is otherwise unchanged; the countdown and the file are never touched; distinct ids stay distinct |
| `StudyView.ContentView.RemoveTopCard` | MakeMeSmart/ContentView.swift:98-124 | the "Wrong"/"Correct" buttons drop the last card; on an empty deck (index -1) they change nothing; removing the only card deactivates; distinct ids stay distinct |
| `EditView.EditCards.constructor` | MakeMeSmart/EditCards.swift:12-15 | the editor works on the given shared deck object; both text fields start empty |
| `EditView.EditCards.AddCard` | MakeMeSmart/EditCards.swift:54-66 | if either trimmed field is blank, deck, file and fields are untouched; otherwise the card with the fresh id and the trimmed texts goes to the front of the deck, the deck is saved, and both fields are cleared; distinct ids stay distinct when the fresh id is not already in the deck |
| `EditView.EditCards.RemoveCards` | MakeMeSmart/EditCards.swift:68-71 | the deck becomes the batch-delete result (the others keep their order) and is `|offsets|` shorter; it is then saved; distinct ids stay distinct. Only the length needs every offset in range, which the list guarantees by deleting only rows it shows |
| `EditView.AddedCardIsClean` | MakeMeSmart/EditCards.swift:55-59 | a card that "Add" accepts has non-blank prompt and answer with no whitespace at either end, and trimming them again changes nothing |

The countdown changes only through `Tick` (by -1) and `ResetCards` (to 100). The frames show
this: no other method of `ContentView` may modify `timeRemaining`. The editing screen's methods
may modify only the shared `Cards` object and their own text fields, never `timeRemaining` or
`isActive`.

## Left out

- All SwiftUI layout, theming, sheets, `dismiss()`, the `showingEditCards` flag and the
  accessibility labels and hints: these are presentation.
- `stacked(at:total:)`: floating-point rendering geometry.
- `CardView.swift`: drag thresholds on `CGSize`, haptic feedback and opacity/rotation are floating
  point and platform calls. Its only effect on the model is calling `removeCard(at:)`, which is
  modelled.
- `allowsHitTesting`: swiping works only on the top card, and only while `timeRemaining > 0`.
  The timer gate covers the card stack alone. The "Wrong"/"Correct" buttons sit outside it and
  remove the top card even at `timeRemaining == 0`. These are presentation gates, so neither
  `RemoveCard` nor `RemoveTopCard` requires them.
- JSON encoding and decoding and the file write: Foundation library calls. The file is modelled by
  what it decodes to, and the codec is taken to round-trip.
- The `print` in `saveData`'s error branch: logging only.
- `Timer.publish` and `scenePhase` as event sources: each event is a method call. The scene phase
  is a boolean "is `.active`".
- `UUID()`: the id of a new card is a parameter. `Card.example` is a preview constant with no
  behaviour.
- `@MainActor`, `ObservableObject` and `@Published`: threading and change notification, not logic.
