/** One flashcard (Card.swift): an identity and two pieces of text. */
module CardModel {
  import opened Offsets

  /** A UUID, kept opaque: the model only compares identities. */
  type Uuid = nat

  datatype Card = Card(id: Uuid, prompt: string, answer: string)

  /** The ids of a deck, as a set. */
  function Ids(deck: seq<Card>): (ids: set<Uuid>)
  {
    set i | 0 <= i < |deck| :: deck[i].id
  }

  /** No two positions of the deck hold cards with the same id. */
  ghost predicate DistinctIds(deck: seq<Card>)
  {
    forall i, j :: 0 <= i < j < |deck| ==> deck[i].id != deck[j].id
  }

  /** Putting a card with an unused id in front keeps the ids distinct. */
  lemma PrependKeepsDistinct(c: Card, deck: seq<Card>)
    requires DistinctIds(deck) && c.id !in Ids(deck)
    ensures DistinctIds([c] + deck)
  {
    var d := [c] + deck;
    forall i, j | 0 <= i < j < |d| ensures d[i].id != d[j].id {
      if i == 0 {
        assert d[j] == deck[j - 1];
      } else {
        assert d[i] == deck[i - 1] && d[j] == deck[j - 1];
      }
    }
  }

  /** Batch deletion (`remove(atOffsets:)`) keeps the ids of a deck distinct. */
  lemma RemovingOffsetsKeepsDistinct(deck: seq<Card>, offsets: set<int>)
    requires DistinctIds(deck)
    ensures DistinctIds(RemovingOffsets(deck, offsets))
  {
    var r, k := RemovingOffsets(deck, offsets), KeptIndices(|deck|, offsets);
    RemovingOffsetsAt(deck, offsets);
    forall j1, j2 | 0 <= j1 < j2 < |r| ensures r[j1].id != r[j2].id {
      assert r[j1] == deck[k[j1]] && r[j2] == deck[k[j2]];
    }
  }

  /** Removing one card (`remove(at:)`) keeps the ids of a deck distinct. */
  lemma RemoveAtKeepsDistinct(deck: seq<Card>, i: int)
    requires DistinctIds(deck) && 0 <= i < |deck|
    ensures DistinctIds(deck[..i] + deck[i + 1..])
  {
    RemoveAtIsSingleOffset(deck, i);
    RemovingOffsetsKeepsDistinct(deck, {i});
  }
}
