/** The application layer's command records.  Each record's compact constructor
    checks its arguments in order and throws on the first that fails; here a
    `New...` function returns the first failure or the record.  Every record
    type carries the invariant its constructor establishes (`Valid`), and a
    round-trip lemma shows the constructor accepts exactly the valid records and
    keeps their fields as given. */
module Commands {

  import opened Outcomes
  import opened Identifiers
  import opened Text

  // ---------------------------------------------------------------------------
  // MoveCardCommand
  // ---------------------------------------------------------------------------

  datatype MoveCardCommand = MoveCardCommand(boardId: BoardId, cardId: CardId,
                                             sourceColumnId: ColumnId, targetColumnId: ColumnId)
  {
    /** A constructed move names two different columns. */
    predicate Valid() { sourceColumnId != targetColumnId }
  }

  /** `new MoveCardCommand(...)`: the four ids must be given, checked in the order
      board, card, source, target; then the two columns must differ. */
  function NewMoveCardCommand(boardId: Option<BoardId>, cardId: Option<CardId>,
                              sourceColumnId: Option<ColumnId>, targetColumnId: Option<ColumnId>)
    : (r: Result<MoveCardCommand>)
    ensures boardId.None? ==> r == Failure(NullId("boardId"))
    ensures boardId.Some? && cardId.None? ==> r == Failure(NullId("cardId"))
    ensures boardId.Some? && cardId.Some? && sourceColumnId.None? ==> r == Failure(NullId("sourceColumnId"))
    ensures boardId.Some? && cardId.Some? && sourceColumnId.Some? && targetColumnId.None? ==>
              r == Failure(NullId("targetColumnId"))
    ensures (boardId.Some? && cardId.Some? && sourceColumnId.Some? && targetColumnId.Some?
             && sourceColumnId == targetColumnId) ==> r == Failure(SameColumns)
    ensures r.Success? <==> boardId.Some? && cardId.Some? && sourceColumnId.Some? && targetColumnId.Some?
                            && sourceColumnId != targetColumnId
    ensures r.Success? ==> r.value.Valid()
    ensures r.Success? ==> r.value == MoveCardCommand(boardId.value, cardId.value, sourceColumnId.value, targetColumnId.value)
  {
    if boardId.None? then Failure(NullId("boardId"))
    else if cardId.None? then Failure(NullId("cardId"))
    else if sourceColumnId.None? then Failure(NullId("sourceColumnId"))
    else if targetColumnId.None? then Failure(NullId("targetColumnId"))
    else if sourceColumnId.value == targetColumnId.value then Failure(SameColumns)
    else Success(MoveCardCommand(boardId.value, cardId.value, sourceColumnId.value, targetColumnId.value))
  }

  /** Every valid command is the one its own fields construct. */
  lemma MoveCardCommandRoundTrip(c: MoveCardCommand)
    ensures NewMoveCardCommand(Some(c.boardId), Some(c.cardId), Some(c.sourceColumnId), Some(c.targetColumnId))
            == if c.Valid() then Success(c) else Failure(SameColumns)
  {
  }

  // ---------------------------------------------------------------------------
  // CreateColumnCommand
  // ---------------------------------------------------------------------------

  datatype CreateColumnCommand = CreateColumnCommand(boardId: BoardId, name: string, position: int)
  {
    /** A constructed command has a non-blank name and a non-negative position. */
    predicate Valid() { !IsBlank(name) && position >= 0 }
  }

  /** `new CreateColumnCommand(...)`: board id, then name, then position. */
  function NewCreateColumnCommand(boardId: Option<BoardId>, name: Option<string>, position: int)
    : (r: Result<CreateColumnCommand>)
    ensures boardId.None? ==> r == Failure(NullId("boardId"))
    ensures boardId.Some? && !Present(name) ==> r == Failure(BlankText("name"))
    ensures boardId.Some? && Present(name) && position < 0 ==> r == Failure(NegativePosition)
    ensures r.Success? <==> boardId.Some? && Present(name) && position >= 0
    ensures r.Success? ==> r.value.Valid()
    ensures r.Success? ==> r.value == CreateColumnCommand(boardId.value, name.value, position)
  {
    if boardId.None? then Failure(NullId("boardId"))
    else if !Present(name) then Failure(BlankText("name"))
    else if position < 0 then Failure(NegativePosition)
    else Success(CreateColumnCommand(boardId.value, name.value, position))
  }

  /** Every valid command is the one its own fields construct, and nothing else is. */
  lemma CreateColumnCommandRoundTrip(c: CreateColumnCommand)
    ensures NewCreateColumnCommand(Some(c.boardId), Some(c.name), c.position).Success? <==> c.Valid()
    ensures c.Valid() ==> NewCreateColumnCommand(Some(c.boardId), Some(c.name), c.position) == Success(c)
  {
  }

  // ---------------------------------------------------------------------------
  // CreateCardCommand
  // ---------------------------------------------------------------------------

  datatype CreateCardCommand = CreateCardCommand(boardId: BoardId, columnId: ColumnId,
                                                 title: string, description: Option<string>)
  {
    /** A constructed command has a non-blank title; the description is free. */
    predicate Valid() { !IsBlank(title) }
  }

  /** `new CreateCardCommand(...)`: board id, column id, then title; the
      description, null included, is not checked. */
  function NewCreateCardCommand(boardId: Option<BoardId>, columnId: Option<ColumnId>,
                                title: Option<string>, description: Option<string>)
    : (r: Result<CreateCardCommand>)
    ensures boardId.None? ==> r == Failure(NullId("boardId"))
    ensures boardId.Some? && columnId.None? ==> r == Failure(NullId("columnId"))
    ensures boardId.Some? && columnId.Some? && !Present(title) ==> r == Failure(BlankText("title"))
    ensures r.Success? <==> boardId.Some? && columnId.Some? && Present(title)
    ensures r.Success? ==> r.value.Valid()
    ensures r.Success? ==> r.value == CreateCardCommand(boardId.value, columnId.value, title.value, description)
  {
    if boardId.None? then Failure(NullId("boardId"))
    else if columnId.None? then Failure(NullId("columnId"))
    else if !Present(title) then Failure(BlankText("title"))
    else Success(CreateCardCommand(boardId.value, columnId.value, title.value, description))
  }

  /** Every valid command is the one its own fields construct, and nothing else is. */
  lemma CreateCardCommandRoundTrip(c: CreateCardCommand)
    ensures NewCreateCardCommand(Some(c.boardId), Some(c.columnId), Some(c.title), c.description).Success? <==> c.Valid()
    ensures c.Valid() ==> NewCreateCardCommand(Some(c.boardId), Some(c.columnId), Some(c.title), c.description) == Success(c)
  {
  }

  // ---------------------------------------------------------------------------
  // UpdateCardCommand
  // ---------------------------------------------------------------------------

  /** Title and description are optional: `None` means "leave unchanged". */
  datatype UpdateCardCommand = UpdateCardCommand(boardId: BoardId, columnId: ColumnId, cardId: CardId,
                                                 title: Option<string>, description: Option<string>)

  /** `new UpdateCardCommand(...)`: only the three ids are checked, in the order
      board, column, card; title and description, null or blank, pass as given. */
  function NewUpdateCardCommand(boardId: Option<BoardId>, columnId: Option<ColumnId>, cardId: Option<CardId>,
                                title: Option<string>, description: Option<string>)
    : (r: Result<UpdateCardCommand>)
    ensures boardId.None? ==> r == Failure(NullId("boardId"))
    ensures boardId.Some? && columnId.None? ==> r == Failure(NullId("columnId"))
    ensures boardId.Some? && columnId.Some? && cardId.None? ==> r == Failure(NullId("cardId"))
    ensures r.Success? <==> boardId.Some? && columnId.Some? && cardId.Some?
    ensures r.Success? ==> r.value == UpdateCardCommand(boardId.value, columnId.value, cardId.value, title, description)
  {
    if boardId.None? then Failure(NullId("boardId"))
    else if columnId.None? then Failure(NullId("columnId"))
    else if cardId.None? then Failure(NullId("cardId"))
    else Success(UpdateCardCommand(boardId.value, columnId.value, cardId.value, title, description))
  }

  // ---------------------------------------------------------------------------
  // DeleteCardCommand
  // ---------------------------------------------------------------------------

  datatype DeleteCardCommand = DeleteCardCommand(boardId: BoardId, columnId: ColumnId, cardId: CardId)

  /** `new DeleteCardCommand(...)`: the three ids, in the order board, column, card. */
  function NewDeleteCardCommand(boardId: Option<BoardId>, columnId: Option<ColumnId>, cardId: Option<CardId>)
    : (r: Result<DeleteCardCommand>)
    ensures boardId.None? ==> r == Failure(NullId("boardId"))
    ensures boardId.Some? && columnId.None? ==> r == Failure(NullId("columnId"))
    ensures boardId.Some? && columnId.Some? && cardId.None? ==> r == Failure(NullId("cardId"))
    ensures r.Success? <==> boardId.Some? && columnId.Some? && cardId.Some?
    ensures r.Success? ==> r.value == DeleteCardCommand(boardId.value, columnId.value, cardId.value)
  {
    if boardId.None? then Failure(NullId("boardId"))
    else if columnId.None? then Failure(NullId("columnId"))
    else if cardId.None? then Failure(NullId("cardId"))
    else Success(DeleteCardCommand(boardId.value, columnId.value, cardId.value))
  }

  // ---------------------------------------------------------------------------
  // CreateBoardCommand
  // ---------------------------------------------------------------------------

  datatype CreateBoardCommand = CreateBoardCommand(workspaceId: WorkspaceId, name: string, description: Option<string>)
  {
    /** A constructed command has a non-blank name; the description is free. */
    predicate Valid() { !IsBlank(name) }
  }

  /** `new CreateBoardCommand(...)`: workspace id, then name. */
  function NewCreateBoardCommand(workspaceId: Option<WorkspaceId>, name: Option<string>, description: Option<string>)
    : (r: Result<CreateBoardCommand>)
    ensures workspaceId.None? ==> r == Failure(NullId("workspaceId"))
    ensures workspaceId.Some? && !Present(name) ==> r == Failure(BlankText("name"))
    ensures r.Success? <==> workspaceId.Some? && Present(name)
    ensures r.Success? ==> r.value.Valid()
    ensures r.Success? ==> r.value == CreateBoardCommand(workspaceId.value, name.value, description)
  {
    if workspaceId.None? then Failure(NullId("workspaceId"))
    else if !Present(name) then Failure(BlankText("name"))
    else Success(CreateBoardCommand(workspaceId.value, name.value, description))
  }

  /** Every valid command is the one its own fields construct, and nothing else is. */
  lemma CreateBoardCommandRoundTrip(c: CreateBoardCommand)
    ensures NewCreateBoardCommand(Some(c.workspaceId), Some(c.name), c.description).Success? <==> c.Valid()
    ensures c.Valid() ==> NewCreateBoardCommand(Some(c.workspaceId), Some(c.name), c.description) == Success(c)
  {
  }

  // ---------------------------------------------------------------------------
  // CreateWorkspaceCommand
  // ---------------------------------------------------------------------------

  datatype CreateWorkspaceCommand = CreateWorkspaceCommand(name: string, description: Option<string>)
  {
    /** A constructed command has a non-blank name; the description is free. */
    predicate Valid() { !IsBlank(name) }
  }

  /** `new CreateWorkspaceCommand(...)`: only the name is checked. */
  function NewCreateWorkspaceCommand(name: Option<string>, description: Option<string>)
    : (r: Result<CreateWorkspaceCommand>)
    ensures !Present(name) ==> r == Failure(BlankText("name"))
    ensures r.Success? <==> Present(name)
    ensures r.Success? ==> r.value.Valid()
    ensures r.Success? ==> r.value == CreateWorkspaceCommand(name.value, description)
  {
    if !Present(name) then Failure(BlankText("name"))
    else Success(CreateWorkspaceCommand(name.value, description))
  }

  /** Every valid command is the one its own fields construct, and nothing else is. */
  lemma CreateWorkspaceCommandRoundTrip(c: CreateWorkspaceCommand)
    ensures NewCreateWorkspaceCommand(Some(c.name), c.description).Success? <==> c.Valid()
    ensures c.Valid() ==> NewCreateWorkspaceCommand(Some(c.name), c.description) == Success(c)
  {
  }
}
