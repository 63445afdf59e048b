# Kanban board aggregate, modelled in Dafny

This project models the domain core of a kanban backend. A **Workspace** holds an ordered list of **Boards**. A Board holds an ordered list of **Columns**, and a Column holds an ordered list of **Cards**. Every mutation changes these objects in place.

The model also covers the constructor-time validators on the application commands and on the REST request records. These guard the aggregate's inputs.

How the Java code is represented:

- Entities are Dafny classes with the same fields (`card.dfy`, `column.dfy`, `board.dfy`, `workspace.dfy`). Each Java `ArrayList` becomes a `seq` field that the methods reassign. The objects are shared exactly as in Java: a board's columns and a column's cards are object references.
- Entities compare by id, so `List.remove(Object)` removes the first element with that id. `findColumn`, `findCard` and `findBoard` return the first match. One generic function, `Lookup.IndexOf`, finds the first occurrence in a list of ids, and `Lookup.IndexOfFirst` proves it is the first. `IndexOfCard`, `IndexOfColumn` and `IndexOfBoard` apply it to the ids of a card, column or board list.
- A Java `null` string, or a `null` id passed to a validator, is an `Option` value.
- A thrown `IllegalArgumentException` becomes a `Failure`/`Fail` carrying an error kind (`outcomes.dfy`). Each method states its post-state exactly on the error path too, including any partial change.
- `Instant.now()` becomes a `now` parameter, and `XxxId.generate()` becomes an `id` parameter.
- `String.isBlank` is `Text.IsBlank`: every code point of the string satisfies `Character.isWhitespace` (the empty string included).

Each board operation is proved against a value-level description of the board:

- `CardLists()` is the list of each column's card list, in column order.
- `Detached`, `Appended` and `Moved` say what the operations do to those lists.
- The lemmas about them prove the card-count and card-identity facts.

`moveCard` resolves its arguments in the order the code does: the source column, then the card (which is detached at once), then the target column. `ResolveMove` names what it finds as a `MovePlan`. `MoveCard` states its result and its new state in terms of that plan:

- a missing source or card leaves the card lists as they were;
- a missing target loses the card (`EffectKeepsOrLosesCard`: exactly one card fewer, and with unique ids that card is in no column);
- a successful move keeps the number of cards (`EffectKeepsOrLosesCard`). The moved card is last in the target (`Moved`), and with unique ids its id occurs nowhere else (`MovedRelocatesCard`).
- `MoveCard`'s own clauses say which cards remain: the source's list loses exactly that card (`RemoveAt`), and the target's list gains it at the end.

`Board` does not reject equal source and target ids. In that case the card goes to the end of its own column. The `MoveCardCommand` and `MoveCardRequest` validators exclude that case. `MoveCardRequestMakesCommand` shows that an accepted request always yields an accepted command, and `ResolveMoveFindsFirst` shows that distinct ids resolve to distinct columns.

The command and request validators are pure functions. Each returns the first failing check, in the order of the compact constructor, or the record with its fields as given. Where a record has an invariant beyond non-null fields, a `Valid` predicate states it, and a round-trip lemma shows that the validator accepts exactly the valid records. `UpdateCardCommand` and `DeleteCardCommand` check only nulls, so they have no `Valid` predicate. The ensures of `NewUpdateCardCommand` and `NewDeleteCardCommand` already say that any non-null ids are accepted as given.

`Card.create` does not check the position (Card.java:31-36). The model stores it unchecked; only `updatePosition` rejects a negative value.

## Model

| member | source | states |
|---|---|---|
| Cards.Card.Reconstitute | backend/src/main/java/com/todokanban/domain/model/Card.java:41-46 | every field is exactly as given, `updatedAt` included; nothing is validated |
| Cards.Card.Create | backend/src/main/java/com/todokanban/domain/model/Card.java:31-36 | fails with a blank-title error exactly when the title is null or blank; otherwise a fresh card with the given id, title, description and unchecked position, and `createdAt == updatedAt == now` |
| Cards.Card.UpdateTitle | backend/src/main/java/com/todokanban/domain/model/Card.java:50-56 | succeeds exactly for a present title; on failure the title and timestamp are unchanged; on success the title is replaced and `updatedAt == now`; description and position never change |
| Cards.Card.UpdateDescription | backend/src/main/java/com/todokanban/domain/model/Card.java:58-61 | any description, null included, is stored and `updatedAt == now`; title and position are unchanged |
| Cards.Card.UpdatePosition | backend/src/main/java/com/todokanban/domain/model/Card.java:63-69 | succeeds exactly for a non-negative position; a negative one leaves position and timestamp unchanged |
| Cards.IndexOfCardFirst | backend/src/main/java/com/todokanban/domain/model/Column.java:71-76 | the lookup finds nothing exactly when no card has the id, and otherwise finds the first card that has it |
| Lookup.IndexOfFirst | backend/src/main/java/com/todokanban/domain/model/Column.java:71-76 | the first-match lookup shared by `findCard`, `findColumn` and `findBoard` finds nothing exactly when the id does not occur, and otherwise finds its first occurrence |
| Lookup.RemoveAt | backend/src/main/java/com/todokanban/domain/model/Column.java:66 | removing one element keeps the others in order, shifted by one past the removed index, and removes exactly that element from the multiset |
| Columns.Column.Reconstitute | backend/src/main/java/com/todokanban/domain/model/Column.java:46-51 | id, name, position, card list, `createdAt` and `updatedAt` are exactly as given |
| Columns.Column.Create | backend/src/main/java/com/todokanban/domain/model/Column.java:36-41 | fails exactly when the name is null or blank; otherwise a fresh, empty column with the given id, name and unchecked position, and `createdAt == updatedAt == now` |
| Columns.Column.AddCard | backend/src/main/java/com/todokanban/domain/model/Column.java:55-59 | the new card list is the old one with the card appended; `updatedAt == now`; name and position are unchanged |
| Columns.Column.RemoveCard | backend/src/main/java/com/todokanban/domain/model/Column.java:61-69 | an absent id fails with card-not-found and no change; otherwise returns the first card with the id, removes exactly that one, keeps the rest in order, and sets `updatedAt == now` |
| Columns.Column.FindCard | backend/src/main/java/com/todokanban/domain/model/Column.java:71-76 | None exactly when no card has the id; otherwise a card with that id at an index before which no card has it; reads only the column |
| Columns.Column.ContainsCard | backend/src/main/java/com/todokanban/domain/model/Column.java:78-80 | true exactly when some card of the column has the id |
| Columns.Column.UpdateName | backend/src/main/java/com/todokanban/domain/model/Column.java:82-88 | succeeds exactly for a present name; on failure nothing changes; on success the name is stored and `updatedAt == now` |
| Columns.Column.UpdatePosition | backend/src/main/java/com/todokanban/domain/model/Column.java:90-96 | succeeds exactly for a non-negative position; on failure nothing changes; on success the position is stored and `updatedAt == now` |
| Columns.AppendedColumnKeepsIdsUnique | backend/src/main/java/com/todokanban/domain/model/Board.java:104-108 | appending a column whose id no column has keeps every column the one its own id finds |
| Columns.RemovedColumnIsGone | backend/src/main/java/com/todokanban/domain/model/Board.java:110-117 | with unique column ids, removing the column an id finds leaves no column with that id and keeps the ids unique |
| Columns.IndexOfColumnFirst | backend/src/main/java/com/todokanban/domain/model/Board.java:170-175 | the column lookup finds nothing exactly when no column has the id, and otherwise finds the first column that has it |
| Boards.Board.Reconstitute | backend/src/main/java/com/todokanban/domain/model/Board.java:56-62 | every field is exactly as given, `updatedAt` included |
| Boards.Board.Create | backend/src/main/java/com/todokanban/domain/model/Board.java:43-51 | a null workspace id fails first, then a null or blank name; it succeeds exactly when both are given; the new board has no columns, the given workspace id, name and description, and `createdAt == updatedAt == now` |
| Boards.Board.FindColumn | backend/src/main/java/com/todokanban/domain/model/Board.java:170-175 | None exactly when no column has the id; otherwise a column with that id before which no column has it; reads only the board's column list |
| Boards.Board.ResolveMoveFindsFirst | backend/src/main/java/com/todokanban/domain/model/Board.java:86-95 | the plan's source and target are the first columns with the given ids, and its card the first card with the id in the source; each lookup fails exactly when no element carries the id |
| Boards.Board.MoveCard | backend/src/main/java/com/todokanban/domain/model/Board.java:81-102 | a missing source fails with nothing changed; a card not in the source fails with the source's cards, timestamp, name and position as they were; a missing target fails after the card has left the source, with the source renewed; on success the source loses the card, the target ends with it, its position is the target's prior count (after the detach when source and target coincide), title and description are kept, and every touched timestamp is `now`; only the source, target and card objects change, and with unique column ids the card lists become the plan's `Effect` |
| Boards.Board.DetachCard | backend/src/main/java/com/todokanban/domain/model/Board.java:86-91 | the shared first step of `moveCard` and `removeCardFromColumn`: a missing column fails; a missing card fails with the column unchanged; otherwise it returns the first card with the id, the column loses exactly that card, and the board's card lists are `Detached` |
| Boards.AppendRenumbered | backend/src/main/java/com/todokanban/domain/model/Board.java:98-99 | the card's position becomes the column's prior length and the card is appended; both timestamps are `now` |
| Boards.EffectKeepsOrLosesCard | backend/src/main/java/com/todokanban/domain/model/Board.java:81-102 | a successful move keeps the number of cards; a missing target loses exactly one card, and with unique card ids that card is then in no column; a missing source or card leaves the lists as they are |
| Boards.MovedRelocatesCard | backend/src/main/java/com/todokanban/domain/model/Board.java:91-101 | a move keeps the total number of cards; with unique card ids they stay unique, and the moved card's id is found only at the end of the target list |
| Boards.Moved | backend/src/main/java/com/todokanban/domain/model/Board.java:91-101 | columns other than source and target keep their lists; the target's last card is the moved card; the lengths change by −1/+1, or not at all when source and target coincide |
| Boards.DetachedLosesCard | backend/src/main/java/com/todokanban/domain/model/Board.java:91-92 | detaching loses exactly one card; with unique ids the detached card's id is nowhere on the board and the ids stay unique |
| Boards.AppendedAddsCard | backend/src/main/java/com/todokanban/domain/model/Board.java:124-132 | appending adds exactly one card, and keeps ids unique when the card's id was not on the board |
| Boards.Board.AddColumn | backend/src/main/java/com/todokanban/domain/model/Board.java:104-108 | the column is appended, and the card lists gain its list at the end; `updatedAt == now`; unique column ids stay unique when the new column's id was absent |
| Boards.Board.RemoveColumn | backend/src/main/java/com/todokanban/domain/model/Board.java:110-117 | an unknown id fails with no change; otherwise it returns the first column with the id and removes exactly that one, its cards with it, keeping the others in order; with unique column ids they stay unique and the id is then gone |
| Boards.RemovedColumnDropsCards | backend/src/main/java/com/todokanban/domain/model/Board.java:110-117 | removing a column drops exactly its cards from the total; with unique card ids none of them remains on the board |
| Boards.Board.AddCardToColumn | backend/src/main/java/com/todokanban/domain/model/Board.java:124-132 | an unknown column fails with no change; otherwise the card's position is the column's prior length, it is appended, title and description are kept, and the card lists are `Appended` |
| Boards.Board.UpdateCard | backend/src/main/java/com/todokanban/domain/model/Board.java:140-154 | an unknown column, then an unknown card, fails with no change; otherwise the title is replaced only by a present value, the description by any non-null value ("" included), the position is kept, the card's timestamp is renewed only when a field is written, and the board's `updatedAt == now` in every success; the card lists never change |
| Boards.Board.RemoveCardFromColumn | backend/src/main/java/com/todokanban/domain/model/Board.java:161-167 | an unknown column or card fails with no change; otherwise exactly the first card with the id leaves that column, the rest keep their order, and the card lists are `Detached` |
| Boards.Board.UpdateName | backend/src/main/java/com/todokanban/domain/model/Board.java:177-183 | succeeds exactly for a present name; on failure nothing changes |
| Boards.Board.UpdateDescription | backend/src/main/java/com/todokanban/domain/model/Board.java:185-188 | any description, null included, is stored and `updatedAt == now` |
| Workspaces.Workspace.Reconstitute | backend/src/main/java/com/todokanban/domain/model/Workspace.java:47-52 | every field is exactly as given, `updatedAt` included |
| Workspaces.Workspace.Create | backend/src/main/java/com/todokanban/domain/model/Workspace.java:37-42 | fails exactly when the name is null or blank; otherwise a fresh workspace without boards, with `createdAt == updatedAt == now` |
| Workspaces.Workspace.AddBoard | backend/src/main/java/com/todokanban/domain/model/Workspace.java:56-60 | the board is appended and `updatedAt == now`; a board whose id was new is then found at the last index |
| Workspaces.IndexOfBoardAppend | backend/src/main/java/com/todokanban/domain/model/Workspace.java:56-60 | appending never changes which board an existing id finds; an id that was absent is found exactly when it is the new board's id |
| Workspaces.Workspace.RemoveBoard | backend/src/main/java/com/todokanban/domain/model/Workspace.java:62-69 | an unknown id fails with board-not-found and no change; otherwise it returns the first board with the id and removes exactly it; with unique ids the id is then gone |
| Workspaces.RemovedBoardIsGone | backend/src/main/java/com/todokanban/domain/model/Workspace.java:62-69 | with unique board ids, removing the board an id finds leaves no board with that id and keeps the ids unique |
| Workspaces.Workspace.FindBoard | backend/src/main/java/com/todokanban/domain/model/Workspace.java:71-76 | None exactly when no board has the id; otherwise the first board with it; reads only the board list |
| Workspaces.IndexOfBoardFirst | backend/src/main/java/com/todokanban/domain/model/Workspace.java:71-76 | the board lookup finds nothing exactly when no board has the id, and otherwise finds the first one |
| Workspaces.Workspace.UpdateName | backend/src/main/java/com/todokanban/domain/model/Workspace.java:78-84 | succeeds exactly for a present name; on failure nothing changes |
| Workspaces.Workspace.UpdateDescription | backend/src/main/java/com/todokanban/domain/model/Workspace.java:86-89 | any description, null included, is stored and `updatedAt == now` |
| Commands.NewMoveCardCommand | backend/src/main/java/com/todokanban/application/ports/input/MoveCardCommand.java:20-36 | null board, card, source and target ids are rejected in that order, then equal columns; accepted exactly when all are given and the columns differ; an accepted command has distinct columns and the given ids |
| Commands.MoveCardCommandRoundTrip | backend/src/main/java/com/todokanban/application/ports/input/MoveCardCommand.java:17-36 | a command's own ids construct that command when its columns differ, and are rejected as same-column otherwise |
| Commands.NewCreateColumnCommand | backend/src/main/java/com/todokanban/application/ports/input/CreateColumnCommand.java:7-11 | a null board id, then a null or blank name, then a negative position are rejected; an accepted command has a non-blank name, a position of at least 0, and the given fields |
| Commands.CreateColumnCommandRoundTrip | backend/src/main/java/com/todokanban/application/ports/input/CreateColumnCommand.java:6-11 | a command's own fields are accepted exactly when it is valid, and then construct that command |
| Commands.NewCreateCardCommand | backend/src/main/java/com/todokanban/application/ports/input/CreateCardCommand.java:9-13 | a null board id, a null column id, then a null or blank title are rejected; the description, null included, is unrestricted |
| Commands.CreateCardCommandRoundTrip | backend/src/main/java/com/todokanban/application/ports/input/CreateCardCommand.java:7-13 | a command's own fields are accepted exactly when its title is non-blank, and then construct that command |
| Commands.NewUpdateCardCommand | backend/src/main/java/com/todokanban/application/ports/input/UpdateCardCommand.java:13-17 | only null board, column and card ids are rejected, in that order; any title and description, null or blank, are kept as given |
| Commands.NewDeleteCardCommand | backend/src/main/java/com/todokanban/application/ports/input/DeleteCardCommand.java:9-13 | null board, column and card ids are rejected in that order; any three ids are accepted and kept |
| Commands.NewCreateBoardCommand | backend/src/main/java/com/todokanban/application/ports/input/CreateBoardCommand.java:17-24 | a null workspace id, then a null or whitespace-only name are rejected; the description is optional |
| Commands.CreateBoardCommandRoundTrip | backend/src/main/java/com/todokanban/application/ports/input/CreateBoardCommand.java:15-24 | a command's own fields are accepted exactly when its name is non-blank, and then construct that command |
| Commands.NewCreateWorkspaceCommand | backend/src/main/java/com/todokanban/application/ports/input/CreateWorkspaceCommand.java:5-9 | a null, empty or whitespace-only name is rejected; the name and description are otherwise kept exactly |
| Commands.CreateWorkspaceCommandRoundTrip | backend/src/main/java/com/todokanban/application/ports/input/CreateWorkspaceCommand.java:4-9 | a command's own fields are accepted exactly when its name is non-blank, and then construct that command |
| Requests.NewMoveCardRequest | backend/src/main/java/com/todokanban/infrastructure/adapter/in/rest/dto/MoveCardRequest.java:17-27 | a null source, then a null target, then equal UUIDs are rejected; every accepted request has two distinct column ids |
| Requests.MoveCardRequestRoundTrip | backend/src/main/java/com/todokanban/infrastructure/adapter/in/rest/dto/MoveCardRequest.java:13-27 | a request's own UUIDs are accepted exactly when they differ, and then construct that request |
| Requests.MoveCardRequestMakesCommand | backend/src/main/java/com/todokanban/infrastructure/adapter/in/rest/dto/MoveCardRequest.java:24-26 | an accepted request, with any board and card id, always passes `MoveCardCommand`'s checks |
| Requests.NewBoardRequest | backend/src/main/java/com/todokanban/infrastructure/adapter/in/rest/dto/BoardRequest.java:20-27 | a null workspace id, then a null or whitespace-only name are rejected; the description is optional |
| Requests.BoardRequestRoundTrip | backend/src/main/java/com/todokanban/infrastructure/adapter/in/rest/dto/BoardRequest.java:15-27 | a request's own fields are accepted exactly when its name is non-blank, and then construct that request |
| Requests.BoardRequestMakesCommand | backend/src/main/java/com/todokanban/infrastructure/adapter/in/rest/dto/BoardRequest.java:20-27 | an accepted request always passes `CreateBoardCommand`'s checks |
| Requests.NewCreateColumnRequest | backend/src/main/java/com/todokanban/infrastructure/adapter/in/rest/dto/CreateColumnRequest.java:5-12 | a null or blank name, then a negative position are rejected; every accepted request has a non-blank name and a position of at least 0 |
| Requests.CreateColumnRequestRoundTrip | backend/src/main/java/com/todokanban/infrastructure/adapter/in/rest/dto/CreateColumnRequest.java:4-12 | a request's own fields are accepted exactly when it is valid, and then construct that request |
| Requests.CreateColumnRequestMakesCommand | backend/src/main/java/com/todokanban/infrastructure/adapter/in/rest/dto/CreateColumnRequest.java:5-12 | an accepted request, with any board id, always passes `CreateColumnCommand`'s checks |
| Requests.NewCreateCardRequest | backend/src/main/java/com/todokanban/infrastructure/adapter/in/rest/dto/CreateCardRequest.java:5-9 | a null, empty or whitespace-only title is rejected; the description is unrestricted |
| Requests.CreateCardRequestRoundTrip | backend/src/main/java/com/todokanban/infrastructure/adapter/in/rest/dto/CreateCardRequest.java:4-9 | a request's own fields are accepted exactly when its title is non-blank, and then construct that request |
| Requests.CreateCardRequestMakesCommand | backend/src/main/java/com/todokanban/infrastructure/adapter/in/rest/dto/CreateCardRequest.java:5-9 | an accepted request, with any board and column id, always passes `CreateCardCommand`'s checks |
| Requests.NewWorkspaceRequest | backend/src/main/java/com/todokanban/infrastructure/adapter/in/rest/dto/WorkspaceRequest.java:5-9 | a null, empty or whitespace-only name is rejected; the description is unrestricted |
| Requests.WorkspaceRequestRoundTrip | backend/src/main/java/com/todokanban/infrastructure/adapter/in/rest/dto/WorkspaceRequest.java:4-9 | a request's own fields are accepted exactly when its name is non-blank, and then construct that request |
| Requests.WorkspaceRequestMakesCommand | backend/src/main/java/com/todokanban/infrastructure/adapter/in/rest/dto/WorkspaceRequest.java:5-9 | an accepted request always passes `CreateWorkspaceCommand`'s checks |

## Left out

- The clock: `Instant.now()` is the `now` parameter, so only `updatedAt == now` is stated. That `updatedAt` strictly increases depends on real time. Every clock reading within one operation becomes the same `now`. For example, `moveCard` reads the clock four times (Column.java:67, Card.java:68, Column.java:58, Board.java:101), so the model lets a caller prove `card.updatedAt == board.updatedAt`, which the Java does not guarantee.
- Identifier generation: the random UUID that `create` draws is the `id` parameter. Identifiers are opaque values compared by equality; `UUID.fromString` parsing is not modelled.
- Null references passed to the entities: a `null` id (rejected by `Objects.requireNonNull` in `moveCard`, `findColumn`, `findCard`, `removeCard` and `findBoard`) or a `null` column, card or board (rejected in `addColumn`, `addCardToColumn`, `addCard` and `addBoard`) throws a NullPointerException. The model's parameters cannot be null, so these paths do not arise. The validators do model null ids as `None`.
- Exception messages: only the kind of error is modelled, not the formatted text.
- Integer width: positions are unbounded integers, while Java's are 32-bit `int`. A column would need more than 2^31 cards for `size()` to matter.
- Lone surrogates: `String.isBlank` tests Unicode code points. A Dafny `char` is a Unicode scalar value, and no supplementary character is whitespace, so `Text.IsBlank` agrees with `isBlank` on every Java string without lone surrogates. A string holding an unpaired surrogate has no counterpart in the model.
- Getters, `equals`, `hashCode` and `toString`. Equality by id is modelled only where the lookups and `List.remove` rely on it.
- Boards.Board.MoveCard: the statement about the whole board's card lists (`CardLists() == plan.Effect(...)`) holds only when column ids are unique. With a duplicated id the same column object can appear twice in the list, and the per-object postconditions are then the whole contract.
- Boards.Board.AddCardToColumn: its card-list statement (`Appended`) likewise holds only under unique column ids.
- Boards.Board.DetachCard: its card-list statement (`Detached`) likewise holds only under unique column ids.
- Boards.Board.RemoveCardFromColumn: its card-list statement (`Detached`) likewise holds only under unique column ids.
- Card ownership across columns: the code does not enforce that a card sits in exactly one column, and neither does the model. The lemmas assume unique card ids where they need them.
- REST controllers, the mapper, response records, application services, repository ports, persistence adapters and entities, and the security configuration. These are load, act and save plumbing with no domain logic.
