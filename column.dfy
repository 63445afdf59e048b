/** The Column entity: owns an ordered list of cards that it appends to and
    removes from in place. */
module Columns {

  import opened Outcomes
  import opened Identifiers
  import opened Text
  import opened Lookup
  import opened Cards

  class Column {
    const id: ColumnId
    var name: Option<string>
    var position: int
    var cards: seq<Card>
    const createdAt: Instant
    var updatedAt: Instant

    /** Rebuilds a column from stored fields, keeping each one exactly as given. */
    constructor Reconstitute(id: ColumnId, name: Option<string>, position: int, cards: seq<Card>,
                             createdAt: Instant, updatedAt: Instant)
      ensures this.id == id && this.name == name && this.position == position
      ensures this.cards == cards
      ensures this.createdAt == createdAt && this.updatedAt == updatedAt
    {
      this.id := id;
      this.name := name;
      this.position := position;
      this.cards := cards;
      this.createdAt := createdAt;
      this.updatedAt := updatedAt;
    }

    /** Factory for a new, empty column.  The name must be present; the position
        is stored without any check. */
    static method Create(name: Option<string>, position: int, id: ColumnId, now: Instant)
      returns (r: Result<Column>)
      ensures r.Failure? <==> !Present(name)
      ensures r.Failure? ==> r.error == BlankText("name")
      ensures r.Success? ==> fresh(r.value)
      ensures r.Success? ==> r.value.id == id && r.value.name == name && r.value.position == position
      ensures r.Success? ==> r.value.cards == []
      ensures r.Success? ==> r.value.createdAt == now && r.value.updatedAt == now
    {
      if !Present(name) {
        return Failure(BlankText("name"));
      }
      var column := new Column.Reconstitute(id, name, position, [], now, now);
      return Success(column);
    }

    /** Appends `card` at the end.  The card's own position is the caller's business. */
    method AddCard(card: Card, now: Instant)
      modifies this
      ensures cards == old(cards) + [card] && updatedAt == now
      ensures name == old(name) && position == old(position)
    {
      cards := cards + [card];
      updatedAt := now;
    }

    /** Detaches and returns the first card with id `cardId`; fails with no change
        when the column holds no such card. */
    method RemoveCard(cardId: CardId, now: Instant) returns (r: Result<Card>)
      modifies this
      ensures name == old(name) && position == old(position)
      ensures old(IndexOfCard(cards, cardId)).None? ==>
                r == Failure(CardNotFound) && cards == old(cards) && updatedAt == old(updatedAt)
      ensures old(IndexOfCard(cards, cardId)).Some? ==>
                var i := old(IndexOfCard(cards, cardId)).value;
                r == Success(old(cards)[i]) && cards == RemoveAt(old(cards), i) && updatedAt == now
    {
      var found := FindCard(cardId);
      if found.None? {
        return Failure(CardNotFound);
      }
      // `cards.remove(card)` compares by id, so it removes the first card with
      // this id, which is the one `findCard` returned.
      var i := IndexOfCard(cards, cardId).value;
      cards := RemoveAt(cards, i);
      updatedAt := now;
      return Success(found.value);
    }

    /** The first card whose id is `cardId`, or None; reads the column only. */
    function FindCard(cardId: CardId): (r: Option<Card>)
      reads this
      ensures r.None? <==> forall j :: 0 <= j < |cards| ==> cards[j].id != cardId
      ensures r.Some? ==> exists i :: 0 <= i < |cards| && cards[i] == r.value && r.value.id == cardId
                                      && forall j :: 0 <= j < i ==> cards[j].id != cardId
    {
      IndexOfCardFirst(cards, cardId);
      if IndexOfCard(cards, cardId).Some? then Some(cards[IndexOfCard(cards, cardId).value]) else None
    }

    /** Whether some card of the column has id `cardId`. */
    function ContainsCard(cardId: CardId): (b: bool)
      reads this
      ensures b <==> exists j :: 0 <= j < |cards| && cards[j].id == cardId
    {
      FindCard(cardId).Some?
    }

    /** Renames the column; a null or blank name fails with no change. */
    method UpdateName(newName: Option<string>, now: Instant) returns (r: Outcome)
      modifies this
      ensures r.Pass? <==> Present(newName)
      ensures r.Fail? ==> r.error == BlankText("name")
      ensures name == (if r.Pass? then newName else old(name))
      ensures updatedAt == (if r.Pass? then now else old(updatedAt))
      ensures position == old(position) && cards == old(cards)
    {
      if !Present(newName) {
        return Fail(BlankText("name"));
      }
      name := newName;
      updatedAt := now;
      return Pass;
    }

    /** Moves the column to a non-negative position; a negative one fails with no change. */
    method UpdatePosition(newPosition: int, now: Instant) returns (r: Outcome)
      modifies this
      ensures r.Pass? <==> newPosition >= 0
      ensures r.Fail? ==> r.error == NegativePosition
      ensures position == (if r.Pass? then newPosition else old(position))
      ensures updatedAt == (if r.Pass? then now else old(updatedAt))
      ensures name == old(name) && cards == old(cards)
    {
      if newPosition < 0 {
        return Fail(NegativePosition);
      }
      position := newPosition;
      updatedAt := now;
      return Pass;
    }
  }

  /** The ids of `columns`, in order. */
  function ColumnIds(columns: seq<Column>): (ids: seq<ColumnId>)
    ensures |ids| == |columns| && forall i :: 0 <= i < |columns| ==> ids[i] == columns[i].id
  {
    seq(|columns|, i requires 0 <= i < |columns| => columns[i].id)
  }

  /** Index of the first column in `columns` whose id is `columnId` (`Column.equals`
      compares ids only), or None when no column has it. */
  function IndexOfColumn(columns: seq<Column>, columnId: ColumnId): (r: Option<nat>)
    ensures r.Some? ==> r.value < |columns| && columns[r.value].id == columnId
  {
    IndexOf(ColumnIds(columns), columnId)
  }

  /** The index found is the first one, and there is none exactly when no
      column has the id. */
  lemma IndexOfColumnFirst(columns: seq<Column>, columnId: ColumnId)
    ensures IndexOfColumn(columns, columnId).None? <==> forall j :: 0 <= j < |columns| ==> columns[j].id != columnId
    ensures IndexOfColumn(columns, columnId).Some? ==>
              forall j :: 0 <= j < IndexOfColumn(columns, columnId).value ==> columns[j].id != columnId
  {
    IndexOfFirst(ColumnIds(columns), columnId);
  }

  /** No two columns share an id: each column is the one its own id finds.
      (Triggering on the lookup rather than on `columns[i]` keeps the solver
      from chasing the index terms the lookup's own contract produces.) */
  predicate UniqueColumnIds(columns: seq<Column>)
  {
    forall i {:trigger IndexOfColumn(columns, columns[i].id)} :: 0 <= i < |columns| ==> IndexOfColumn(columns, columns[i].id) == Some(i)
  }

  /** Appending a column whose id is new keeps the ids unique. */
  lemma AppendedColumnKeepsIdsUnique(columns: seq<Column>, column: Column)
    requires UniqueColumnIds(columns) && IndexOfColumn(columns, column.id).None?
    ensures UniqueColumnIds(columns + [column])
  {
    var c := columns + [column];
    assert ColumnIds(c) == ColumnIds(columns) + [column.id];
    forall i | 0 <= i < |c| ensures IndexOfColumn(c, c[i].id) == Some(i) {
      IndexOfAppend(ColumnIds(columns), column.id, c[i].id);
      if i < |columns| {
        assert c[i] == columns[i] && IndexOfColumn(columns, columns[i].id) == Some(i);
      }
    }
  }

  /** With unique ids, removing the column an id finds leaves no column with
      that id, and the remaining ids stay unique. */
  lemma RemovedColumnIsGone(columns: seq<Column>, columnId: ColumnId)
    requires UniqueColumnIds(columns) && IndexOfColumn(columns, columnId).Some?
    ensures UniqueColumnIds(RemoveAt(columns, IndexOfColumn(columns, columnId).value))
    ensures IndexOfColumn(RemoveAt(columns, IndexOfColumn(columns, columnId).value), columnId).None?
  {
    var i := IndexOfColumn(columns, columnId).value;
    var r := RemoveAt(columns, i);
    forall n, k | 0 <= n < |columns| && 0 <= k < |columns| && columns[n].id == columns[k].id
      ensures n == k
    {
      assert IndexOfColumn(columns, columns[n].id) == Some(n);
      assert IndexOfColumn(columns, columns[k].id) == Some(k);
    }
    forall j | 0 <= j < |r| ensures IndexOfColumn(r, r[j].id) == Some(j) {
      IndexOfColumnFirst(r, r[j].id);
      var v := IndexOfColumn(r, r[j].id).value;
      var fv, fj := if v < i then v else v + 1, if j < i then j else j + 1;
      assert r[v] == columns[fv] && r[j] == columns[fj];
    }
    forall j | 0 <= j < |r| ensures r[j].id != columnId {
      var fj := if j < i then j else j + 1;
      assert r[j] == columns[fj] && fj != i;
    }
    IndexOfColumnFirst(r, columnId);
  }

}
