/** The Card entity: a leaf of the board whose setters reassign its fields in place. */
module Cards {

  import opened Outcomes
  import opened Identifiers
  import opened Text
  import opened Lookup

  class Card {
    const id: CardId
    var title: Option<string>
    var description: Option<string>
    var position: int
    const createdAt: Instant
    var updatedAt: Instant

    /** Rebuilds a card from stored fields; nothing is validated and every field,
        `updatedAt` included, is kept as given. */
    constructor Reconstitute(id: CardId, title: Option<string>, description: Option<string>,
                             position: int, createdAt: Instant, updatedAt: Instant)
      ensures this.id == id && this.title == title && this.description == description
      ensures this.position == position
      ensures this.createdAt == createdAt && this.updatedAt == updatedAt
    {
      this.id := id;
      this.title := title;
      this.description := description;
      this.position := position;
      this.createdAt := createdAt;
      this.updatedAt := updatedAt;
    }

    /** Factory for a new card; `id` is the freshly generated identifier and `now`
        the clock reading.  Only the title is checked: description and position are
        stored as given. */
    static method Create(title: Option<string>, description: Option<string>, position: int,
                         id: CardId, now: Instant) returns (r: Result<Card>)
      ensures r.Failure? <==> !Present(title)
      ensures r.Failure? ==> r.error == BlankText("title")
      ensures r.Success? ==> fresh(r.value)
      ensures r.Success? ==> r.value.id == id && r.value.title == title
      ensures r.Success? ==> r.value.description == description && r.value.position == position
      ensures r.Success? ==> r.value.createdAt == now && r.value.updatedAt == now
    {
      if !Present(title) {
        return Failure(BlankText("title"));
      }
      var card := new Card.Reconstitute(id, title, description, position, now, now);
      return Success(card);
    }

    /** Replaces the title when the new one is non-null and non-blank; otherwise
        fails and leaves the card as it was. */
    method UpdateTitle(newTitle: Option<string>, now: Instant) returns (r: Outcome)
      modifies this
      ensures r.Pass? <==> Present(newTitle)
      ensures r.Fail? ==> r.error == BlankText("title")
      ensures title == (if r.Pass? then newTitle else old(title))
      ensures updatedAt == (if r.Pass? then now else old(updatedAt))
      ensures description == old(description) && position == old(position)
    {
      if !Present(newTitle) {
        return Fail(BlankText("title"));
      }
      title := newTitle;
      updatedAt := now;
      return Pass;
    }

    /** Stores any description, null included. */
    method UpdateDescription(newDescription: Option<string>, now: Instant)
      modifies this
      ensures description == newDescription && updatedAt == now
      ensures title == old(title) && position == old(position)
    {
      description := newDescription;
      updatedAt := now;
    }

    /** Stores a non-negative position; a negative one fails with no change. */
    method UpdatePosition(newPosition: int, now: Instant) returns (r: Outcome)
      modifies this
      ensures r.Pass? <==> newPosition >= 0
      ensures r.Fail? ==> r.error == NegativePosition
      ensures position == (if r.Pass? then newPosition else old(position))
      ensures updatedAt == (if r.Pass? then now else old(updatedAt))
      ensures title == old(title) && description == old(description)
    {
      if newPosition < 0 {
        return Fail(NegativePosition);
      }
      position := newPosition;
      updatedAt := now;
      return Pass;
    }
  }

  /** The ids of `cards`, in order. */
  function CardIds(cards: seq<Card>): (ids: seq<CardId>)
    ensures |ids| == |cards| && forall i :: 0 <= i < |cards| ==> ids[i] == cards[i].id
  {
    seq(|cards|, i requires 0 <= i < |cards| => cards[i].id)
  }

  /** Index of the first card in `cards` whose id is `cardId` (`Card.equals`
      compares ids only), or None when no card has it. */
  function IndexOfCard(cards: seq<Card>, cardId: CardId): (r: Option<nat>)
    ensures r.Some? ==> r.value < |cards| && cards[r.value].id == cardId
  {
    IndexOf(CardIds(cards), cardId)
  }

  /** The index found is the first one, and there is none exactly when no
      card has the id. */
  lemma IndexOfCardFirst(cards: seq<Card>, cardId: CardId)
    ensures IndexOfCard(cards, cardId).None? <==> forall j :: 0 <= j < |cards| ==> cards[j].id != cardId
    ensures IndexOfCard(cards, cardId).Some? ==>
              forall j :: 0 <= j < IndexOfCard(cards, cardId).value ==> cards[j].id != cardId
  {
    IndexOfFirst(CardIds(cards), cardId);
  }

}
