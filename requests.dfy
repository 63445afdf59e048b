/** The REST layer's request records.  As with the commands, each compact
    constructor checks its fields in order and throws on the first failure; a
    `New...` function returns that failure or the record, and `Valid` is the
    invariant every constructed request satisfies.  Identifiers arrive as bare
    UUIDs. */
module Requests {

  import opened Outcomes
  import opened Identifiers
  import opened Text
  import opened Commands

  // ---------------------------------------------------------------------------
  // MoveCardRequest
  // ---------------------------------------------------------------------------

  datatype MoveCardRequest = MoveCardRequest(sourceColumnId: Uuid, targetColumnId: Uuid)
  {
    /** A constructed request names two different columns. */
    predicate Valid() { sourceColumnId != targetColumnId }
  }

  /** `new MoveCardRequest(...)`: source, then target must be given, then differ. */
  function NewMoveCardRequest(sourceColumnId: Option<Uuid>, targetColumnId: Option<Uuid>): (r: Result<MoveCardRequest>)
    ensures sourceColumnId.None? ==> r == Failure(NullId("sourceColumnId"))
    ensures sourceColumnId.Some? && targetColumnId.None? ==> r == Failure(NullId("targetColumnId"))
    ensures sourceColumnId.Some? && sourceColumnId == targetColumnId ==> r == Failure(SameColumns)
    ensures r.Success? <==> sourceColumnId.Some? && targetColumnId.Some? && sourceColumnId != targetColumnId
    ensures r.Success? ==> r.value.Valid()
    ensures r.Success? ==> r.value == MoveCardRequest(sourceColumnId.value, targetColumnId.value)
  {
    if sourceColumnId.None? then Failure(NullId("sourceColumnId"))
    else if targetColumnId.None? then Failure(NullId("targetColumnId"))
    else if sourceColumnId.value == targetColumnId.value then Failure(SameColumns)
    else Success(MoveCardRequest(sourceColumnId.value, targetColumnId.value))
  }

  /** Every valid request is the one its own fields construct, and nothing else is. */
  lemma MoveCardRequestRoundTrip(q: MoveCardRequest)
    ensures NewMoveCardRequest(Some(q.sourceColumnId), Some(q.targetColumnId)).Success? <==> q.Valid()
    ensures q.Valid() ==> NewMoveCardRequest(Some(q.sourceColumnId), Some(q.targetColumnId)) == Success(q)
  {
  }

  /** An accepted request, with the board and card ids taken from the path,
      always passes the command's own checks: distinct UUIDs make distinct
      column ids. */
  lemma MoveCardRequestMakesCommand(q: MoveCardRequest, boardId: BoardId, cardId: CardId)
    requires q.Valid()
    ensures NewMoveCardCommand(Some(boardId), Some(cardId), Some(ColumnId(q.sourceColumnId)),
                               Some(ColumnId(q.targetColumnId)))
            == Success(MoveCardCommand(boardId, cardId, ColumnId(q.sourceColumnId), ColumnId(q.targetColumnId)))
  {
  }

  // ---------------------------------------------------------------------------
  // BoardRequest
  // ---------------------------------------------------------------------------

  datatype BoardRequest = BoardRequest(workspaceId: Uuid, name: string, description: Option<string>)
  {
    /** A constructed request has a non-blank name; the description is free. */
    predicate Valid() { !IsBlank(name) }
  }

  /** `new BoardRequest(...)`: workspace id, then name. */
  function NewBoardRequest(workspaceId: Option<Uuid>, name: Option<string>, description: Option<string>)
    : (r: Result<BoardRequest>)
    ensures workspaceId.None? ==> r == Failure(NullId("workspaceId"))
    ensures workspaceId.Some? && !Present(name) ==> r == Failure(BlankText("name"))
    ensures r.Success? <==> workspaceId.Some? && Present(name)
    ensures r.Success? ==> r.value.Valid()
    ensures r.Success? ==> r.value == BoardRequest(workspaceId.value, name.value, description)
  {
    if workspaceId.None? then Failure(NullId("workspaceId"))
    else if !Present(name) then Failure(BlankText("name"))
    else Success(BoardRequest(workspaceId.value, name.value, description))
  }

  /** Every valid request is the one its own fields construct, and nothing else is. */
  lemma BoardRequestRoundTrip(q: BoardRequest)
    ensures NewBoardRequest(Some(q.workspaceId), Some(q.name), q.description).Success? <==> q.Valid()
    ensures q.Valid() ==> NewBoardRequest(Some(q.workspaceId), Some(q.name), q.description) == Success(q)
  {
  }

  /** An accepted request always passes the board command's checks. */
  lemma BoardRequestMakesCommand(q: BoardRequest)
    requires q.Valid()
    ensures NewCreateBoardCommand(Some(WorkspaceId(q.workspaceId)), Some(q.name), q.description)
            == Success(CreateBoardCommand(WorkspaceId(q.workspaceId), q.name, q.description))
  {
  }

  // ---------------------------------------------------------------------------
  // CreateColumnRequest
  // ---------------------------------------------------------------------------

  datatype CreateColumnRequest = CreateColumnRequest(name: string, position: int)
  {
    /** A constructed request has a non-blank name and a non-negative position. */
    predicate Valid() { !IsBlank(name) && position >= 0 }
  }

  /** `new CreateColumnRequest(...)`: name, then position. */
  function NewCreateColumnRequest(name: Option<string>, position: int): (r: Result<CreateColumnRequest>)
    ensures !Present(name) ==> r == Failure(BlankText("name"))
    ensures Present(name) && position < 0 ==> r == Failure(NegativePosition)
    ensures r.Success? <==> Present(name) && position >= 0
    ensures r.Success? ==> r.value.Valid()
    ensures r.Success? ==> r.value == CreateColumnRequest(name.value, position)
  {
    if !Present(name) then Failure(BlankText("name"))
    else if position < 0 then Failure(NegativePosition)
    else Success(CreateColumnRequest(name.value, position))
  }

  /** Every valid request is the one its own fields construct, and nothing else is. */
  lemma CreateColumnRequestRoundTrip(q: CreateColumnRequest)
    ensures NewCreateColumnRequest(Some(q.name), q.position).Success? <==> q.Valid()
    ensures q.Valid() ==> NewCreateColumnRequest(Some(q.name), q.position) == Success(q)
  {
  }

  /** An accepted request, with the board id from the path, always passes the
      column command's checks. */
  lemma CreateColumnRequestMakesCommand(q: CreateColumnRequest, boardId: BoardId)
    requires q.Valid()
    ensures NewCreateColumnCommand(Some(boardId), Some(q.name), q.position)
            == Success(CreateColumnCommand(boardId, q.name, q.position))
  {
  }

  // ---------------------------------------------------------------------------
  // CreateCardRequest
  // ---------------------------------------------------------------------------

  datatype CreateCardRequest = CreateCardRequest(title: string, description: Option<string>)
  {
    /** A constructed request has a non-blank title; the description is free. */
    predicate Valid() { !IsBlank(title) }
  }

  /** `new CreateCardRequest(...)`: only the title is checked. */
  function NewCreateCardRequest(title: Option<string>, description: Option<string>): (r: Result<CreateCardRequest>)
    ensures !Present(title) ==> r == Failure(BlankText("title"))
    ensures r.Success? <==> Present(title)
    ensures r.Success? ==> r.value.Valid()
    ensures r.Success? ==> r.value == CreateCardRequest(title.value, description)
  {
    if !Present(title) then Failure(BlankText("title"))
    else Success(CreateCardRequest(title.value, description))
  }

  /** Every valid request is the one its own fields construct, and nothing else is. */
  lemma CreateCardRequestRoundTrip(q: CreateCardRequest)
    ensures NewCreateCardRequest(Some(q.title), q.description).Success? <==> q.Valid()
    ensures q.Valid() ==> NewCreateCardRequest(Some(q.title), q.description) == Success(q)
  {
  }

  /** An accepted request, with the board and column ids from the path, always
      passes the card command's checks. */
  lemma CreateCardRequestMakesCommand(q: CreateCardRequest, boardId: BoardId, columnId: ColumnId)
    requires q.Valid()
    ensures NewCreateCardCommand(Some(boardId), Some(columnId), Some(q.title), q.description)
            == Success(CreateCardCommand(boardId, columnId, q.title, q.description))
  {
  }

  // ---------------------------------------------------------------------------
  // WorkspaceRequest
  // ---------------------------------------------------------------------------

  datatype WorkspaceRequest = WorkspaceRequest(name: string, description: Option<string>)
  {
    /** A constructed request has a non-blank name; the description is free. */
    predicate Valid() { !IsBlank(name) }
  }

  /** `new WorkspaceRequest(...)`: only the name is checked. */
  function NewWorkspaceRequest(name: Option<string>, description: Option<string>): (r: Result<WorkspaceRequest>)
    ensures !Present(name) ==> r == Failure(BlankText("name"))
    ensures r.Success? <==> Present(name)
    ensures r.Success? ==> r.value.Valid()
    ensures r.Success? ==> r.value == WorkspaceRequest(name.value, description)
  {
    if !Present(name) then Failure(BlankText("name"))
    else Success(WorkspaceRequest(name.value, description))
  }

  /** Every valid request is the one its own fields construct, and nothing else is. */
  lemma WorkspaceRequestRoundTrip(q: WorkspaceRequest)
    ensures NewWorkspaceRequest(Some(q.name), q.description).Success? <==> q.Valid()
    ensures q.Valid() ==> NewWorkspaceRequest(Some(q.name), q.description) == Success(q)
  {
  }

  /** An accepted request always passes the workspace command's checks. */
  lemma WorkspaceRequestMakesCommand(q: WorkspaceRequest)
    requires q.Valid()
    ensures NewCreateWorkspaceCommand(Some(q.name), q.description)
            == Success(CreateWorkspaceCommand(q.name, q.description))
  {
  }
}
