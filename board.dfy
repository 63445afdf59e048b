/** The Board aggregate root: an ordered list of columns, each owning an ordered
    list of cards, mutated in place.  The first half of the module describes the
    board's card lists as values (one list per column, in column order) and proves
    what each structural change does to them; the class then ties every mutating
    method to those descriptions. */
module Boards {

  import opened Outcomes
  import opened Identifiers
  import opened Text
  import opened Lookup
  import opened Cards
  import opened Columns

  // ---------------------------------------------------------------------------
  // The board's card lists as values
  // ---------------------------------------------------------------------------

  /** Number of cards on the board. */
  function Total(lists: seq<seq<Card>>): nat
  {
    if |lists| == 0 then 0 else |lists[0]| + Total(lists[1..])
  }

  /** No two places on the board hold cards with the same id. */
  predicate UniqueCardIds(lists: seq<seq<Card>>)
  {
    forall i, p, j, q ::
      (0 <= i < |lists| && 0 <= p < |lists[i]| && 0 <= j < |lists| && 0 <= q < |lists[j]| &&
       lists[i][p].id == lists[j][q].id) ==> i == j && p == q
  }

  /** Whether some list of the board holds a card with id `cardId`. */
  predicate OnBoard(lists: seq<seq<Card>>, cardId: CardId)
  {
    exists i, p :: 0 <= i < |lists| && 0 <= p < |lists[i]| && lists[i][p].id == cardId
  }

  /** Replacing one list changes the total by the difference in length. */
  lemma {:induction false} TotalUpdate(lists: seq<seq<Card>>, j: nat, x: seq<Card>)
    requires j < |lists|
    ensures Total(lists[j := x]) + |lists[j]| == Total(lists) + |x|
  {
    if j == 0 {
      assert lists[j := x][1..] == lists[1..];
    } else {
      assert lists[j := x][1..] == lists[1..][j - 1 := x];
      TotalUpdate(lists[1..], j - 1, x);
    }
  }

  /** Dropping one list drops exactly its cards from the total. */
  lemma {:induction false} TotalRemoveAt(lists: seq<seq<Card>>, j: nat)
    requires j < |lists|
    ensures Total(RemoveAt(lists, j)) + |lists[j]| == Total(lists)
  {
    if j == 0 {
      assert RemoveAt(lists, 0) == lists[1..];
    } else {
      assert RemoveAt(lists, j) == [lists[0]] + RemoveAt(lists[1..], j - 1);
      assert (RemoveAt(lists, j))[1..] == RemoveAt(lists[1..], j - 1);
      TotalRemoveAt(lists[1..], j - 1);
    }
  }

  /** The lists after card `ki` of list `si` has been taken out. */
  function Detached(lists: seq<seq<Card>>, si: nat, ki: nat): (r: seq<seq<Card>>)
    requires si < |lists| && ki < |lists[si]|
    ensures |r| == |lists|
    ensures forall j :: 0 <= j < |lists| && j != si ==> r[j] == lists[j]
    ensures |r[si]| == |lists[si]| - 1
  {
    lists[si := RemoveAt(lists[si], ki)]
  }

  /** The lists after `card` has been appended to list `ci`. */
  function Appended(lists: seq<seq<Card>>, ci: nat, card: Card): (r: seq<seq<Card>>)
    requires ci < |lists|
    ensures |r| == |lists|
    ensures forall j :: 0 <= j < |lists| && j != ci ==> r[j] == lists[j]
    ensures |r[ci]| == |lists[ci]| + 1 && r[ci][..|lists[ci]|] == lists[ci]
    ensures r[ci][|lists[ci]|] == card
  {
    lists[ci := lists[ci] + [card]]
  }

  /** The lists after card `ki` of list `si` has been taken out and appended to
      list `ti` (which may be `si` itself). */
  function Moved(lists: seq<seq<Card>>, si: nat, ki: nat, ti: nat): (r: seq<seq<Card>>)
    requires si < |lists| && ki < |lists[si]| && ti < |lists|
    ensures |r| == |lists|
    ensures forall j :: 0 <= j < |lists| && j != si && j != ti ==> r[j] == lists[j]
    ensures |r[ti]| > 0 && r[ti][|r[ti]| - 1] == lists[si][ki]
    ensures si != ti ==> |r[si]| == |lists[si]| - 1 && |r[ti]| == |lists[ti]| + 1
    ensures si == ti ==> |r[si]| == |lists[si]|
  {
    Appended(Detached(lists, si, ki), ti, lists[si][ki])
  }

  /** Card lists that agree with `lists` except at `si`, where a card was taken out,
      are `Detached(lists, si, ki)`. */
  lemma DetachedFromParts(lists: seq<seq<Card>>, r: seq<seq<Card>>, si: nat, ki: nat)
    requires si < |lists| && ki < |lists[si]| && |r| == |lists|
    requires forall j :: 0 <= j < |r| && j != si ==> r[j] == lists[j]
    requires r[si] == RemoveAt(lists[si], ki)
    ensures r == Detached(lists, si, ki)
  {
  }

  /** Card lists that agree with `lists` except at `ci`, which gained `card` at
      its end, are `Appended(lists, ci, card)`. */
  lemma AppendedFromParts(lists: seq<seq<Card>>, r: seq<seq<Card>>, ci: nat, card: Card)
    requires ci < |lists| && |r| == |lists|
    requires forall j :: 0 <= j < |r| && j != ci ==> r[j] == lists[j]
    requires r[ci] == lists[ci] + [card]
    ensures r == Appended(lists, ci, card)
  {
  }

  /** Taking a card out loses exactly one card; when ids are unique the card's id is
      then nowhere on the board, and the ids left stay unique. */
  lemma DetachedLosesCard(lists: seq<seq<Card>>, si: nat, ki: nat)
    requires si < |lists| && ki < |lists[si]|
    ensures Total(Detached(lists, si, ki)) + 1 == Total(lists)
    ensures UniqueCardIds(lists) ==>
              UniqueCardIds(Detached(lists, si, ki)) && !OnBoard(Detached(lists, si, ki), lists[si][ki].id)
  {
    TotalUpdate(lists, si, RemoveAt(lists[si], ki));
    var r := Detached(lists, si, ki);
    if UniqueCardIds(lists) {
      // every card of r sits somewhere in lists, and never at (si, ki)
      forall j, q | 0 <= j < |r| && 0 <= q < |r[j]|
        ensures exists p :: 0 <= p < |lists[j]| && r[j][q] == lists[j][p] && (j == si ==> p != ki)
                            && (j != si ==> p == q) && (j == si ==> p == if q < ki then q else q + 1)
      {
        if j == si {
          var p := if q < ki then q else q + 1;
          assert r[j][q] == lists[j][p];
        } else {
          assert r[j][q] == lists[j][q];
        }
      }
    }
  }

  /** Moving a card keeps the number of cards; when ids are unique they stay unique
      and the moved card's id is found exactly at the end of the target list. */
  lemma MovedRelocatesCard(lists: seq<seq<Card>>, si: nat, ki: nat, ti: nat)
    requires si < |lists| && ki < |lists[si]| && ti < |lists|
    ensures Total(Moved(lists, si, ki, ti)) == Total(lists)
    ensures UniqueCardIds(lists) ==>
              var r := Moved(lists, si, ki, ti);
              && UniqueCardIds(r)
              && forall j, q :: 0 <= j < |r| && 0 <= q < |r[j]| ==>
                   (r[j][q].id == lists[si][ki].id <==> j == ti && q == |r[ti]| - 1)
  {
    var card := lists[si][ki];
    var mid := Detached(lists, si, ki);
    DetachedLosesCard(lists, si, ki);
    AppendedAddsCard(mid, ti, card);
    if UniqueCardIds(lists) {
      var r: seq<seq<Card>> := Moved(lists, si, ki, ti);
      forall j, q | 0 <= j < |r| && 0 <= q < |r[j]| && !(j == ti && q == |r[ti]| - 1)
        ensures r[j][q].id != card.id
      {
        assert r[j][q] == mid[j][q];
      }
    }
  }

  /** Dropping a column drops its cards; when ids are unique none of their ids
      remains on the board. */
  lemma RemovedColumnDropsCards(lists: seq<seq<Card>>, ci: nat)
    requires ci < |lists|
    ensures Total(RemoveAt(lists, ci)) + |lists[ci]| == Total(lists)
    ensures UniqueCardIds(lists) ==>
              forall p :: 0 <= p < |lists[ci]| ==> !OnBoard(RemoveAt(lists, ci), lists[ci][p].id)
  {
    TotalRemoveAt(lists, ci);
    var r: seq<seq<Card>> := RemoveAt(lists, ci);
    if UniqueCardIds(lists) {
      forall p, j, q | 0 <= p < |lists[ci]| && 0 <= j < |r| && 0 <= q < |r[j]|
        ensures r[j][q].id != lists[ci][p].id
      {
        var k := if j < ci then j else j + 1;
        assert r[j] == lists[k];
      }
    }
  }

  /** Appending a card adds one; it keeps ids unique when the card's id was not
      on the board. */
  lemma AppendedAddsCard(lists: seq<seq<Card>>, ci: nat, card: Card)
    requires ci < |lists|
    ensures Total(Appended(lists, ci, card)) == Total(lists) + 1
    ensures UniqueCardIds(lists) && !OnBoard(lists, card.id) ==> UniqueCardIds(Appended(lists, ci, card))
  {
    TotalUpdate(lists, ci, lists[ci] + [card]);
    var r := Appended(lists, ci, card);
    if UniqueCardIds(lists) && !OnBoard(lists, card.id) {
      forall j, q | 0 <= j < |r| && 0 <= q < |r[j]| && !(j == ci && q == |lists[ci]|)
        ensures q < |lists[j]| && r[j][q] == lists[j][q]
      {
      }
    }
  }

  // ---------------------------------------------------------------------------
  // How moveCard resolves its arguments
  // ---------------------------------------------------------------------------

  /** What detaching a card by column id and card id finds, in the order it looks:
      the column (index `ci`), then the card in it (index `ki`). */
  datatype Detachment =
    | ColumnMissing
    | CardAbsent(ci: nat)
    | Found(ci: nat, ki: nat)

  /** What `moveCard` finds, in the order it looks: the source column (index `si`),
      the card in it (index `ki`), then the target column (index `ti`). */
  datatype MovePlan =
    | SourceMissing
    | CardMissing(si: nat)
    | TargetMissing(si: nat, ki: nat)
    | Move(si: nat, ki: nat, ti: nat)
  {
    /** The outcome `moveCard` reports for this plan. */
    function Verdict(): Outcome
    {
      match this
      case SourceMissing => Fail(SourceColumnNotFound)
      case CardMissing(_) => Fail(CardNotFound)
      case TargetMissing(_, _) => Fail(TargetColumnNotFound)
      case Move(_, _, _) => Pass
    }

    /** The plan's indices are positions of `lists`. */
    predicate Fits(lists: seq<seq<Card>>)
    {
      match this
      case SourceMissing => true
      case CardMissing(si) => si < |lists|
      case TargetMissing(si, ki) => si < |lists| && ki < |lists[si]|
      case Move(si, ki, ti) => si < |lists| && ki < |lists[si]| && ti < |lists|
    }

    /** The card lists after `moveCard` has carried out this plan: unchanged when
        the source or the card is missing, the card detached and dropped when only
        the target is missing, the card moved otherwise. */
    function Effect(lists: seq<seq<Card>>): seq<seq<Card>>
      requires Fits(lists)
    {
      match this
      case SourceMissing => lists
      case CardMissing(_) => lists
      case TargetMissing(si, ki) => Detached(lists, si, ki)
      case Move(si, ki, ti) => Moved(lists, si, ki, ti)
    }
  }

  /** A failed move never gains cards, a successful one keeps them all, and with
      unique ids a move whose target is missing leaves the card in no column. */
  lemma EffectKeepsOrLosesCard(plan: MovePlan, lists: seq<seq<Card>>)
    requires plan.Fits(lists)
    ensures plan.Move? ==> Total(plan.Effect(lists)) == Total(lists)
    ensures plan.TargetMissing? ==> Total(plan.Effect(lists)) + 1 == Total(lists)
    ensures plan.TargetMissing? && UniqueCardIds(lists) ==>
              !OnBoard(plan.Effect(lists), lists[plan.si][plan.ki].id)
    ensures plan.SourceMissing? || plan.CardMissing? ==> plan.Effect(lists) == lists
  {
    match plan
    case SourceMissing =>
    case CardMissing(_) =>
    case TargetMissing(si, ki) => DetachedLosesCard(lists, si, ki);
    case Move(si, ki, ti) => MovedRelocatesCard(lists, si, ki, ti);
  }

  /** The card lists of `columns`, in order. */
  function ListsOf(columns: seq<Column>): seq<seq<Card>>
    reads columns`cards
  {
    if |columns| == 0 then [] else [columns[0].cards] + ListsOf(columns[1..])
  }

  /** `ListsOf` lists each column's cards at that column's index. */
  lemma {:induction false} ListsOfIndex(columns: seq<Column>)
    ensures |ListsOf(columns)| == |columns|
    ensures forall i :: 0 <= i < |columns| ==> ListsOf(columns)[i] == columns[i].cards
  {
    if |columns| > 0 {
      ListsOfIndex(columns[1..]);
      forall i | 0 < i < |columns| ensures ListsOf(columns)[i] == columns[i].cards {
        assert columns[i] == columns[1..][i - 1];
      }
    }
  }

  // ---------------------------------------------------------------------------
  // The step moveCard and addCardToColumn share
  // ---------------------------------------------------------------------------

  /** `card.updatePosition(column.getCards().size())` followed by `column.addCard(card)`:
      the card is numbered with the column's current length and appended. */
  method AppendRenumbered(column: Column, card: Card, now: Instant)
    modifies column, card
    ensures column.cards == old(column.cards) + [card] && card.position == |old(column.cards)|
    ensures card.updatedAt == now && column.updatedAt == now
    ensures card.title == old(card.title) && card.description == old(card.description)
    ensures column.name == old(column.name) && column.position == old(column.position)
  {
    // a length is never negative, so this renumbering cannot fail
    var placed := card.UpdatePosition(|column.cards|, now);
    assert placed.Pass?;
    column.AddCard(card, now);
  }

  // ---------------------------------------------------------------------------
  // The aggregate
  // ---------------------------------------------------------------------------

  class Board {
    const id: BoardId
    const workspaceId: WorkspaceId
    var name: Option<string>
    var description: Option<string>
    var columns: seq<Column>
    const createdAt: Instant
    var updatedAt: Instant

    /** Rebuilds a board from stored fields, keeping each one exactly as given
        (the column list is copied; the column objects are shared). */
    constructor Reconstitute(id: BoardId, workspaceId: WorkspaceId, name: Option<string>,
                             description: Option<string>, columns: seq<Column>,
                             createdAt: Instant, updatedAt: Instant)
      ensures this.id == id && this.workspaceId == workspaceId
      ensures this.name == name && this.description == description && this.columns == columns
      ensures this.createdAt == createdAt && this.updatedAt == updatedAt
    {
      this.id := id;
      this.workspaceId := workspaceId;
      this.name := name;
      this.description := description;
      this.columns := columns;
      this.createdAt := createdAt;
      this.updatedAt := updatedAt;
    }

    /** Factory for a new board without columns: the workspace id must be given
        and the name present, checked in that order. */
    static method Create(workspaceId: Option<WorkspaceId>, name: Option<string>,
                         description: Option<string>, id: BoardId, now: Instant)
      returns (r: Result<Board>)
      ensures workspaceId.None? ==> r == Failure(NullId("workspaceId"))
      ensures workspaceId.Some? && !Present(name) ==> r == Failure(BlankText("name"))
      ensures r.Success? <==> workspaceId.Some? && Present(name)
      ensures r.Success? ==> fresh(r.value)
      ensures r.Success? ==> r.value.id == id && r.value.workspaceId == workspaceId.value
      ensures r.Success? ==> r.value.name == name && r.value.description == description
      ensures r.Success? ==> r.value.columns == []
      ensures r.Success? ==> r.value.createdAt == now && r.value.updatedAt == now
    {
      if workspaceId.None? {
        return Failure(NullId("workspaceId"));
      }
      if !Present(name) {
        return Failure(BlankText("name"));
      }
      var board := new Board.Reconstitute(id, workspaceId.value, name, description, [], now, now);
      return Success(board);
    }

    /** The first column whose id is `columnId`, or None; reads the board only. */
    function FindColumn(columnId: ColumnId): (r: Option<Column>)
      reads this`columns
      ensures r.None? <==> forall j :: 0 <= j < |columns| ==> columns[j].id != columnId
      ensures r.Some? ==> exists i :: 0 <= i < |columns| && columns[i] == r.value && r.value.id == columnId
                                      && forall j :: 0 <= j < i ==> columns[j].id != columnId
    {
      IndexOfColumnFirst(columns, columnId);
      if IndexOfColumn(columns, columnId).Some? then Some(columns[IndexOfColumn(columns, columnId).value]) else None
    }

    /** The card lists of the board's columns, in column order. */
    function CardLists(): (r: seq<seq<Card>>)
      reads this`columns, columns`cards
      ensures |r| == |columns| && forall i :: 0 <= i < |columns| ==> r[i] == columns[i].cards
    {
      ListsOfIndex(columns);
      ListsOf(columns)
    }

    /** No two columns share an id (so no column object appears twice): each
        column is the one its own id finds. */
    predicate ColumnIdsUnique()
      reads this`columns
    {
      UniqueColumnIds(columns)
    }

    /** How the column with id `columnId` and the card with id `cardId` in it are
        found: each index is the first match. */
    function ResolveDetach(columnId: ColumnId, cardId: CardId): (d: Detachment)
      reads this`columns, columns`cards
      ensures d.CardAbsent? ==> d.ci < |columns|
      ensures d.Found? ==> d.ci < |columns| && d.ki < |columns[d.ci].cards|
    {
      match IndexOfColumn(columns, columnId)
      case None => ColumnMissing
      case Some(ci) =>
        match IndexOfCard(columns[ci].cards, cardId)
        case None => CardAbsent(ci)
        case Some(ki) => Found(ci, ki)
    }

    /** How `moveCard(cardId, sourceColumnId, targetColumnId)` resolves its
        arguments on the current board: the card is found as `ResolveDetach`
        finds it, then the target column, again by first match. */
    function ResolveMove(cardId: CardId, sourceColumnId: ColumnId, targetColumnId: ColumnId): (p: MovePlan)
      reads this`columns, columns`cards
      ensures p.Fits(CardLists())
    {
      match ResolveDetach(sourceColumnId, cardId)
      case ColumnMissing => SourceMissing
      case CardAbsent(si) => CardMissing(si)
      case Found(si, ki) =>
        match IndexOfColumn(columns, targetColumnId)
        case None => TargetMissing(si, ki)
        case Some(ti) => Move(si, ki, ti)
    }

    /** The plan names first matches: the source column is the first column with
        `sourceColumnId`, the card the first card with `cardId` in it, the target
        the first column with `targetColumnId`; each lookup fails exactly when
        nothing carries the id. */
    lemma ResolveMoveFindsFirst(cardId: CardId, sourceColumnId: ColumnId, targetColumnId: ColumnId)
      ensures var p := ResolveMove(cardId, sourceColumnId, targetColumnId);
              && (p.SourceMissing? <==> forall j :: 0 <= j < |columns| ==> columns[j].id != sourceColumnId)
              && (!p.SourceMissing? ==>
                    && p.si < |columns| && columns[p.si].id == sourceColumnId
                    && forall j :: 0 <= j < p.si ==> columns[j].id != sourceColumnId)
              && (p.CardMissing? <==>
                    !p.SourceMissing? && forall q :: 0 <= q < |columns[p.si].cards| ==> columns[p.si].cards[q].id != cardId)
              && (p.TargetMissing? || p.Move? ==>
                    && p.ki < |columns[p.si].cards| && columns[p.si].cards[p.ki].id == cardId
                    && forall q :: 0 <= q < p.ki ==> columns[p.si].cards[q].id != cardId)
              && (p.TargetMissing? <==>
                    (p.TargetMissing? || p.Move?) && forall j :: 0 <= j < |columns| ==> columns[j].id != targetColumnId)
              && (p.Move? ==>
                    && p.ti < |columns| && columns[p.ti].id == targetColumnId
                    && forall j :: 0 <= j < p.ti ==> columns[j].id != targetColumnId)
    {
      IndexOfColumnFirst(columns, sourceColumnId);
      IndexOfColumnFirst(columns, targetColumnId);
      var s := IndexOfColumn(columns, sourceColumnId);
      if s.Some? {
        IndexOfCardFirst(columns[s.value].cards, cardId);
      }
    }

    /** The objects `moveCard` may change besides the board itself: the source
        column once it is found, and the target column and the card once the
        whole plan resolves. */
    ghost function MoveFootprint(plan: MovePlan): set<object>
      reads this`columns, columns`cards
      requires plan.Fits(CardLists())
    {
      match plan
      case SourceMissing => {}
      case CardMissing(si) => {columns[si]}
      case TargetMissing(si, _) => {columns[si]}
      case Move(si, ki, ti) => {columns[si], columns[ti], columns[si].cards[ki]}
    }

    /** The column with id `columnId` as a frame, empty when there is none. */
    ghost function ColumnFootprint(columnId: ColumnId): set<object>
      reads this`columns
    {
      match IndexOfColumn(columns, columnId)
      case None => {}
      case Some(i) => {columns[i]}
    }

    /** The card `updateCard(columnId, cardId, ...)` edits, as a frame. */
    ghost function CardFootprint(columnId: ColumnId, cardId: CardId): set<object>
      reads this`columns, columns`cards
    {
      match IndexOfColumn(columns, columnId)
      case None => {}
      case Some(i) =>
        match IndexOfCard(columns[i].cards, cardId)
        case None => {}
        case Some(k) => {columns[i].cards[k]}
    }

    /** Moves a card to the end of another column.  The source column is resolved,
        the card detached from it, and only then is the target resolved: when the
        target is missing the card has already left the source.  On success the
        card's position is the target's card count before the append.  Equal
        source and target ids are not rejected here; the card then goes to the
        end of its own column.  `plan` names what the lookups found. */
    method MoveCard(cardId: CardId, sourceColumnId: ColumnId, targetColumnId: ColumnId, now: Instant)
      returns (r: Outcome, ghost plan: MovePlan)
      modifies this, MoveFootprint(ResolveMove(cardId, sourceColumnId, targetColumnId))
      ensures plan == old(ResolveMove(cardId, sourceColumnId, targetColumnId))
      ensures r == plan.Verdict()
      ensures columns == old(columns) && name == old(name) && description == old(description)
      ensures updatedAt == if r.Pass? then now else old(updatedAt)
      ensures plan.CardMissing? ==>
                && columns[plan.si].cards == old(columns[plan.si].cards)
                && columns[plan.si].updatedAt == old(columns[plan.si].updatedAt)
                && columns[plan.si].name == old(columns[plan.si].name)
                && columns[plan.si].position == old(columns[plan.si].position)
      ensures plan.TargetMissing? ==>
                && columns[plan.si].cards == RemoveAt(old(columns[plan.si].cards), plan.ki)
                && columns[plan.si].updatedAt == now
                && columns[plan.si].name == old(columns[plan.si].name)
                && columns[plan.si].position == old(columns[plan.si].position)
      ensures plan.Move? ==>
                var source, target, card := columns[plan.si], columns[plan.ti], old(columns[plan.si].cards[plan.ki]);
                var before := if target == source then RemoveAt(old(source.cards), plan.ki) else old(target.cards);
                && (target != source ==> source.cards == RemoveAt(old(source.cards), plan.ki))
                && target.cards == before + [card]
                && card.position == |before| && card.updatedAt == now
                && card.title == old(card.title) && card.description == old(card.description)
                && source.updatedAt == now && target.updatedAt == now
                && source.name == old(source.name) && source.position == old(source.position)
                && target.name == old(target.name) && target.position == old(target.position)
      ensures old(ColumnIdsUnique()) ==> CardLists() == plan.Effect(old(CardLists()))
    {
      plan := ResolveMove(cardId, sourceColumnId, targetColumnId);
      var removed, d := DetachCard(sourceColumnId, cardId, now);
      if removed.Failure? {
        return Fail(if removed.error == ColumnNotFound then SourceColumnNotFound else CardNotFound), plan;
      }
      // from here on moveCard does what addCardToColumn does
      r := AddCardToColumn(targetColumnId, removed.value, now);
      if r.Fail? {
        return Fail(TargetColumnNotFound), plan;
      }
    }

    /** Appends a column (no check that its id is new). */
    method AddColumn(column: Column, now: Instant)
      modifies this
      ensures columns == old(columns) + [column] && updatedAt == now
      ensures name == old(name) && description == old(description)
      ensures CardLists() == old(CardLists()) + [column.cards]
      ensures old(ColumnIdsUnique()) && old(IndexOfColumn(columns, column.id)).None? ==> ColumnIdsUnique()
    {
      if ColumnIdsUnique() && IndexOfColumn(columns, column.id).None? {
        AppendedColumnKeepsIdsUnique(columns, column);
      }
      columns := columns + [column];
      updatedAt := now;
    }

    /** Removes and returns the first column with id `columnId`, its cards with it;
        fails with no change when there is none. */
    method RemoveColumn(columnId: ColumnId, now: Instant) returns (r: Result<Column>)
      modifies this
      ensures name == old(name) && description == old(description)
      ensures old(IndexOfColumn(columns, columnId)).None? ==>
                r == Failure(ColumnNotFound) && columns == old(columns) && updatedAt == old(updatedAt)
      ensures old(IndexOfColumn(columns, columnId)).Some? ==>
                var i := old(IndexOfColumn(columns, columnId)).value;
                && r == Success(old(columns)[i]) && columns == RemoveAt(old(columns), i)
                && CardLists() == RemoveAt(old(CardLists()), i)
                && updatedAt == now
      ensures old(ColumnIdsUnique()) ==> ColumnIdsUnique() && IndexOfColumn(columns, columnId).None?
    {
      var found := FindColumn(columnId);
      if found.None? {
        return Failure(ColumnNotFound);
      }
      // `columns.remove(column)` compares by id: it removes the first match
      var i := IndexOfColumn(columns, columnId).value;
      ghost var before, lists := columns, CardLists();
      columns := RemoveAt(columns, i);
      updatedAt := now;
      assert CardLists() == RemoveAt(lists, i);
      if UniqueColumnIds(before) {
        RemovedColumnIsGone(before, columnId);
      }
      return Success(found.value);
    }

    /** Renumbers `card` to the end of the column with id `columnId` and appends
        it there; fails with no change when the column is missing. */
    method AddCardToColumn(columnId: ColumnId, card: Card, now: Instant) returns (r: Outcome)
      modifies this, ColumnFootprint(columnId), if ColumnFootprint(columnId) == {} then {} else {card}
      ensures columns == old(columns) && name == old(name) && description == old(description)
      ensures r.Pass? <==> old(IndexOfColumn(columns, columnId)).Some?
      ensures r.Fail? ==> r.error == ColumnNotFound && updatedAt == old(updatedAt) && CardLists() == old(CardLists())
      ensures r.Pass? ==>
                var column := columns[old(IndexOfColumn(columns, columnId)).value];
                && column.cards == old(column.cards) + [card]
                && card.position == |old(column.cards)| && card.updatedAt == now
                && card.title == old(card.title) && card.description == old(card.description)
                && column.updatedAt == now
                && column.name == old(column.name) && column.position == old(column.position)
                && updatedAt == now
      ensures r.Pass? && old(ColumnIdsUnique()) ==>
                CardLists() == Appended(old(CardLists()), old(IndexOfColumn(columns, columnId)).value, card)
    {
      var found := FindColumn(columnId);
      if found.None? {
        return Fail(ColumnNotFound);
      }
      ghost var i := IndexOfColumn(columns, columnId).value;
      ghost var lists := CardLists();
      var column := found.value;
      AppendRenumbered(column, card, now);
      updatedAt := now;
      if ColumnIdsUnique() {
        AppendedFromParts(lists, CardLists(), i, card);
      }
      return Pass;
    }

    /** Partial update of the first card with id `cardId` in the column with id
        `columnId`: the title is replaced only by a present (non-null, non-blank)
        value, the description by any non-null value, "" included.  The board's
        timestamp is refreshed even when neither field changes. */
    method UpdateCard(columnId: ColumnId, cardId: CardId, title: Option<string>,
                      description: Option<string>, now: Instant) returns (r: Outcome)
      modifies this, CardFootprint(columnId, cardId)
      ensures columns == old(columns) && name == old(name) && this.description == old(this.description)
      ensures CardLists() == old(CardLists())
      ensures old(IndexOfColumn(columns, columnId)).None? ==>
                r == Fail(ColumnNotFound) && updatedAt == old(updatedAt)
      ensures old(IndexOfColumn(columns, columnId)).Some? ==>
                var cards := old(columns[IndexOfColumn(columns, columnId).value].cards);
                IndexOfCard(cards, cardId).None? ==> r == Fail(CardNotFound) && updatedAt == old(updatedAt)
      ensures r.Pass? <==> old(CardFootprint(columnId, cardId)) != {}
      ensures r.Pass? ==>
                var cards := old(columns[IndexOfColumn(columns, columnId).value].cards);
                var card := cards[IndexOfCard(cards, cardId).value];
                && card.title == (if Present(title) then title else old(card.title))
                && card.description == (if description.Some? then description else old(card.description))
                && card.position == old(card.position)
                && card.updatedAt == (if Present(title) || description.Some? then now else old(card.updatedAt))
                && updatedAt == now
    {
      var column := FindColumn(columnId);
      if column.None? {
        return Fail(ColumnNotFound);
      }
      var found := column.value.FindCard(cardId);
      if found.None? {
        return Fail(CardNotFound);
      }
      var card := found.value;
      if Present(title) {
        var ok := card.UpdateTitle(title, now);
      }
      if description.Some? {
        card.UpdateDescription(description, now);
      }
      updatedAt := now;
      return Pass;
    }

    /** What `moveCard` and `removeCardFromColumn` both do first: find the column
        with id `columnId` and detach the first card with id `cardId` from it.  The
        board itself is not touched. */
    method DetachCard(columnId: ColumnId, cardId: CardId, now: Instant) returns (r: Result<Card>, ghost d: Detachment)
      modifies ColumnFootprint(columnId)
      ensures d == old(ResolveDetach(columnId, cardId))
      ensures d.ColumnMissing? ==> r == Failure(ColumnNotFound)
      ensures d.CardAbsent? ==>
                && r == Failure(CardNotFound)
                && columns[d.ci].cards == old(columns[d.ci].cards)
                && columns[d.ci].updatedAt == old(columns[d.ci].updatedAt)
      ensures !d.ColumnMissing? ==>
                columns[d.ci].name == old(columns[d.ci].name) && columns[d.ci].position == old(columns[d.ci].position)
      ensures d.Found? ==>
                && r == Success(old(columns[d.ci].cards[d.ki]))
                && columns[d.ci].cards == RemoveAt(old(columns[d.ci].cards), d.ki)
                && columns[d.ci].updatedAt == now
      ensures d.Found? && ColumnIdsUnique() ==> CardLists() == Detached(old(CardLists()), d.ci, d.ki)
      ensures !d.Found? ==> CardLists() == old(CardLists())
    {
      d := ResolveDetach(columnId, cardId);
      var column := FindColumn(columnId);
      if column.None? {
        return Failure(ColumnNotFound), d;
      }
      ghost var lists := CardLists();
      r := column.value.RemoveCard(cardId, now);
      if r.Success? && ColumnIdsUnique() {
        DetachedFromParts(lists, CardLists(), d.ci, d.ki);
      }
    }

    /** Removes the first card with id `cardId` from the column with id `columnId`;
        fails with no change when either is missing. */
    method RemoveCardFromColumn(columnId: ColumnId, cardId: CardId, now: Instant) returns (r: Outcome)
      modifies this, ColumnFootprint(columnId)
      ensures columns == old(columns) && name == old(name) && description == old(description)
      ensures old(IndexOfColumn(columns, columnId)).None? ==>
                r == Fail(ColumnNotFound) && updatedAt == old(updatedAt)
      ensures old(IndexOfColumn(columns, columnId)).Some? ==>
                var column := columns[old(IndexOfColumn(columns, columnId)).value];
                old(IndexOfCard(column.cards, cardId)).None? ==>
                  && r == Fail(CardNotFound) && updatedAt == old(updatedAt)
                  && column.cards == old(column.cards) && column.updatedAt == old(column.updatedAt)
                  && column.name == old(column.name) && column.position == old(column.position)
      ensures old(IndexOfColumn(columns, columnId)).Some? ==>
                var ci := old(IndexOfColumn(columns, columnId)).value;
                var column := columns[ci];
                old(IndexOfCard(column.cards, cardId)).Some? ==>
                  var ki := old(IndexOfCard(column.cards, cardId)).value;
                  && r == Pass
                  && column.cards == RemoveAt(old(column.cards), ki)
                  && column.updatedAt == now && updatedAt == now
                  && column.name == old(column.name) && column.position == old(column.position)
                  && (old(ColumnIdsUnique()) ==> CardLists() == Detached(old(CardLists()), ci, ki))
    {
      var removed, d := DetachCard(columnId, cardId, now);
      if removed.Failure? {
        return Fail(removed.error);
      }
      updatedAt := now;
      return Pass;
    }

    /** Renames the board; a null or blank name fails with no change. */
    method UpdateName(newName: Option<string>, now: Instant) returns (r: Outcome)
      modifies this
      ensures r.Pass? <==> Present(newName)
      ensures r.Fail? ==> r.error == BlankText("name")
      ensures name == (if r.Pass? then newName else old(name))
      ensures updatedAt == (if r.Pass? then now else old(updatedAt))
      ensures description == old(description) && columns == old(columns)
    {
      if !Present(newName) {
        return Fail(BlankText("name"));
      }
      name := newName;
      updatedAt := now;
      return Pass;
    }

    /** Stores any description, null included. */
    method UpdateDescription(newDescription: Option<string>, now: Instant)
      modifies this
      ensures description == newDescription && updatedAt == now
      ensures name == old(name) && columns == old(columns)
    {
      description := newDescription;
      updatedAt := now;
    }
  }
}
