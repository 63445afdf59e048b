/** The Workspace entity: the top-level container that owns an ordered list of
    boards and appends to and removes from it in place. */
module Workspaces {

  import opened Outcomes
  import opened Identifiers
  import opened Text
  import opened Lookup
  import opened Boards

  /** The ids of `boards`, in order. */
  function BoardIds(boards: seq<Board>): (ids: seq<BoardId>)
    ensures |ids| == |boards| && forall i :: 0 <= i < |boards| ==> ids[i] == boards[i].id
  {
    seq(|boards|, i requires 0 <= i < |boards| => boards[i].id)
  }

  /** Index of the first board in `boards` whose id is `boardId` (`Board.equals`
      compares ids only), or None when no board has it. */
  function IndexOfBoard(boards: seq<Board>, boardId: BoardId): (r: Option<nat>)
    ensures r.Some? ==> r.value < |boards| && boards[r.value].id == boardId
  {
    IndexOf(BoardIds(boards), boardId)
  }

  /** The index found is the first one, and there is none exactly when no
      board has the id. */
  lemma IndexOfBoardFirst(boards: seq<Board>, boardId: BoardId)
    ensures IndexOfBoard(boards, boardId).None? <==> forall j :: 0 <= j < |boards| ==> boards[j].id != boardId
    ensures IndexOfBoard(boards, boardId).Some? ==>
              forall j :: 0 <= j < IndexOfBoard(boards, boardId).value ==> boards[j].id != boardId
  {
    IndexOfFirst(BoardIds(boards), boardId);
  }

  /** Appending a board never changes which board an id already finds; a board
      whose id was absent is found at the new last index. */
  lemma IndexOfBoardAppend(boards: seq<Board>, board: Board, boardId: BoardId)
    ensures IndexOfBoard(boards, boardId).Some? ==> IndexOfBoard(boards + [board], boardId) == IndexOfBoard(boards, boardId)
    ensures IndexOfBoard(boards, boardId).None? ==>
              IndexOfBoard(boards + [board], boardId) == if board.id == boardId then Some(|boards|) else None
  {
    assert BoardIds(boards + [board]) == BoardIds(boards) + [board.id];
    IndexOfAppend(BoardIds(boards), board.id, boardId);
  }


  /** No two boards of the list share an id. */
  predicate BoardIdsUnique(boards: seq<Board>)
  {
    forall n, k :: 0 <= n < k < |boards| ==> boards[n].id != boards[k].id
  }

  /** With unique ids, removing the board an id finds leaves no board with that
      id, and the remaining ids stay unique. */
  lemma RemovedBoardIsGone(boards: seq<Board>, boardId: BoardId)
    requires BoardIdsUnique(boards) && IndexOfBoard(boards, boardId).Some?
    ensures IndexOfBoard(RemoveAt(boards, IndexOfBoard(boards, boardId).value), boardId).None?
    ensures BoardIdsUnique(RemoveAt(boards, IndexOfBoard(boards, boardId).value))
  {
    var i := IndexOfBoard(boards, boardId).value;
    var r := RemoveAt(boards, i);
    forall j | 0 <= j < |r| ensures r[j].id != boardId {
      var k := if j < i then j else j + 1;
      assert r[j] == boards[k] && k != i;
    }
    IndexOfBoardFirst(r, boardId);
  }

  class Workspace {
    const id: WorkspaceId
    var name: Option<string>
    var description: Option<string>
    var boards: seq<Board>
    const createdAt: Instant
    var updatedAt: Instant

    /** Rebuilds a workspace from stored fields, keeping each one exactly as given
        (the board list is copied; the board objects are shared). */
    constructor Reconstitute(id: WorkspaceId, name: Option<string>, description: Option<string>,
                             boards: seq<Board>, createdAt: Instant, updatedAt: Instant)
      ensures this.id == id && this.name == name && this.description == description
      ensures this.boards == boards
      ensures this.createdAt == createdAt && this.updatedAt == updatedAt
    {
      this.id := id;
      this.name := name;
      this.description := description;
      this.boards := boards;
      this.createdAt := createdAt;
      this.updatedAt := updatedAt;
    }

    /** Factory for a new workspace without boards; the name must be present. */
    static method Create(name: Option<string>, description: Option<string>, id: WorkspaceId, now: Instant)
      returns (r: Result<Workspace>)
      ensures r.Failure? <==> !Present(name)
      ensures r.Failure? ==> r.error == BlankText("name")
      ensures r.Success? ==> fresh(r.value)
      ensures r.Success? ==> r.value.id == id && r.value.name == name && r.value.description == description
      ensures r.Success? ==> r.value.boards == []
      ensures r.Success? ==> r.value.createdAt == now && r.value.updatedAt == now
    {
      if !Present(name) {
        return Failure(BlankText("name"));
      }
      var workspace := new Workspace.Reconstitute(id, name, description, [], now, now);
      return Success(workspace);
    }

    /** Appends a board (no check that its id is new). */
    method AddBoard(board: Board, now: Instant)
      modifies this
      ensures boards == old(boards) + [board] && updatedAt == now
      ensures name == old(name) && description == old(description)
      ensures old(FindBoard(board.id)).None? ==> IndexOfBoard(boards, board.id) == Some(|old(boards)|)
    {
      IndexOfBoardAppend(boards, board, board.id);
      boards := boards + [board];
      updatedAt := now;
    }

    /** The first board whose id is `boardId`, or None. */
    function FindBoard(boardId: BoardId): (r: Option<Board>)
      reads this`boards
      ensures r.None? <==> forall j :: 0 <= j < |boards| ==> boards[j].id != boardId
      ensures r.Some? ==> exists i :: 0 <= i < |boards| && boards[i] == r.value && r.value.id == boardId
                                      && forall j :: 0 <= j < i ==> boards[j].id != boardId
    {
      IndexOfBoardFirst(boards, boardId);
      if IndexOfBoard(boards, boardId).Some? then Some(boards[IndexOfBoard(boards, boardId).value]) else None
    }

    /** Removes and returns the first board with id `boardId`; fails with no
        change when there is none. */
    method RemoveBoard(boardId: BoardId, now: Instant) returns (r: Result<Board>)
      modifies this
      ensures name == old(name) && description == old(description)
      ensures old(IndexOfBoard(boards, boardId)).None? ==>
                r == Failure(BoardNotFound) && boards == old(boards) && updatedAt == old(updatedAt)
      ensures old(IndexOfBoard(boards, boardId)).Some? ==>
                var i := old(IndexOfBoard(boards, boardId)).value;
                r == Success(old(boards)[i]) && boards == RemoveAt(old(boards), i) && updatedAt == now
      ensures old(BoardIdsUnique(boards)) ==> FindBoard(boardId).None? && BoardIdsUnique(boards)
    {
      var found := FindBoard(boardId);
      if found.None? {
        return Failure(BoardNotFound);
      }
      if BoardIdsUnique(boards) {
        RemovedBoardIsGone(boards, boardId);
      }
      // `boards.remove(board)` compares by id: it removes the first match
      var i := IndexOfBoard(boards, boardId).value;
      boards := RemoveAt(boards, i);
      updatedAt := now;
      return Success(found.value);
    }

    /** Renames the workspace; a null or blank name fails with no change. */
    method UpdateName(newName: Option<string>, now: Instant) returns (r: Outcome)
      modifies this
      ensures r.Pass? <==> Present(newName)
      ensures r.Fail? ==> r.error == BlankText("name")
      ensures name == (if r.Pass? then newName else old(name))
      ensures updatedAt == (if r.Pass? then now else old(updatedAt))
      ensures description == old(description) && boards == old(boards)
    {
      if !Present(newName) {
        return Fail(BlankText("name"));
      }
      name := newName;
      updatedAt := now;
      return Pass;
    }

    /** Stores any description, null included. */
    method UpdateDescription(newDescription: Option<string>, now: Instant)
      modifies this
      ensures description == newDescription && updatedAt == now
      ensures name == old(name) && boards == old(boards)
    {
      description := newDescription;
      updatedAt := now;
    }
  }
}
