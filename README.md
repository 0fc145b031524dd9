# GenAI Stack workflow builder: a verified model

This project models the core of a no-code "GenAI Stack" workflow builder. The
frontend is a React app. Users drag four kinds of components onto a canvas:
user query, knowledge base, LLM engine and output. They wire the components
into a graph, validate and save it, and chat with an assistant. The backend is
a FastAPI service. It stores workflows, documents and chat messages per user,
registers and authenticates users, splits document text into overlapping
chunks, and relays chat messages to Gemini.

The model has one Dafny module per source component.

- **Frontend.** The graph store (`WorkflowContext`) and the canvas adapter
  with its own copy of the graph (`WorkflowCanvas`) are classes; their
  handlers are methods. The component catalog with its per-type ID counters
  (`ComponentPanel`) is a class too. The port rule (`WorkflowNode`), the
  validator and save projection (`WorkflowControls`) and the settings editor
  (`NodeSettings`) are pure functions; the save and execute buttons are
  methods. The chat panel's transcript (`GenAIStackChat`) is a class, and its
  formatter steps are functions.
- **Backend.**
  - The chunker (`FileHandler.ChunkText`) is a `while` loop, proved equal to a
    recursive specification. Lemmas then show what that specification yields.
  - The chat route (`ChatRoute`) builds its message list with a `for` loop.
    The Gemini call is a function parameter.
  - The workflow, document and chat services (`WorkflowService`) and the
    users table (`UserService`) are classes over in-memory tables. Each
    operation checks ownership, and the tables keep their keys unique.
- **Shared helpers.** `Wrappers` holds `Option` and `Result`, `Json` a small
  JSON value type, `Seqs` filter, find and subsequence facts, and `Text`
  digits and the Python and JavaScript whitespace sets. `DragAndDrop` is the
  drag-data channel, and `Builder` is a drag-then-drop scenario across the
  panel and the canvas.

These become parameters:

- `JSON.stringify` and `JSON.parse` are a `Codec`. `RoundTrips` says parsing
  a stringified node gives it back.
- `Date.now()` is a `now` argument, and the database clock is a `now` argument.
- `uuid4()` is a fresh-ID argument, which must not already be a key in its table.
- Password hashing is a `Hasher`. `Sound` says a password verifies against
  its own hash.
- The Gemini service is a function from the session the route builds to an
  outcome.
- The frontend's HTTP result from the chat route is a `SendOutcome`. The
  panel imports a `chatAPI` client that the API module does not define (see
  "## Findings"), so the route-backed send is the intended behaviour, and a
  separate member models the code as written.

Numbers in configurations are `real`. No arithmetic is done on them.

## Model

| member | source | states |
|---|---|---|
| WorkflowContext.WorkflowStore.constructor | frontend/src/context/WorkflowContext.jsx:6-8 | the store starts with no nodes, no edges and no current workflow |
| WorkflowContext.WorkflowStore.AddNode | frontend/src/context/WorkflowContext.jsx:10-12 | the node becomes the last element; earlier nodes, all edges and the current workflow are unchanged |
| WorkflowContext.WorkflowStore.UpdateNode | frontend/src/context/WorkflowContext.jsx:14-18 | length and order kept; nodes with this ID are shallow-merged with the patch and others are unchanged; an ID no node has leaves the list as it was; edges untouched |
| WorkflowContext.WorkflowStore.RemoveNode | frontend/src/context/WorkflowContext.jsx:20-25 | afterwards no node has the ID and no edge starts or ends at it; exactly the other nodes and the untouched edges remain; a graph without dangling edges stays so |
| WorkflowContext.WorkflowStore.AddEdge | frontend/src/context/WorkflowContext.jsx:27-29 | the edge becomes the last element; nodes unchanged |
| WorkflowContext.WorkflowStore.RemoveEdge | frontend/src/context/WorkflowContext.jsx:31-33 | exactly the edges with another ID remain; nodes unchanged |
| WorkflowContext.WorkflowStore.ClearWorkflow | frontend/src/context/WorkflowContext.jsx:35-39 | nodes and edges empty, current workflow null |
| WorkflowContext.WorkflowStore.SetNodes | frontend/src/context/WorkflowContext.jsx:6 | the node list is replaced; edges and the current workflow are unchanged |
| WorkflowContext.WorkflowStore.SetEdges | frontend/src/context/WorkflowContext.jsx:7 | the edge list is replaced; nodes and the current workflow are unchanged |
| WorkflowContext.WorkflowStore.SetCurrentWorkflow | frontend/src/context/WorkflowContext.jsx:8 | only the current workflow changes |
| Graph.Merge | frontend/src/context/WorkflowContext.jsx:16 | `{...node, ...updates}`: each top-level field comes from the patch when given, else from the node |
| Graph.UpdateNodesAt | frontend/src/context/WorkflowContext.jsx:15-17 | element i of the update is the merged node when its ID matches, else the old node |
| Graph.UpdateNodesKeepsUnpatched | frontend/src/context/WorkflowContext.jsx:16 | a field that the patch leaves out keeps its value in every node |
| Graph.UpdateNodesAbsent | frontend/src/context/WorkflowContext.jsx:14-18 | updating an ID that no node has returns the same list |
| Graph.RemoveNodeCascade | frontend/src/context/WorkflowContext.jsx:20-25 | no node with the ID and no edge touching it survive; membership of both lists is exactly "old and not removed"; both results are subsequences of the inputs |
| Graph.RemoveNodeKeepsNoDangling | frontend/src/context/WorkflowContext.jsx:20-25 | if every edge ends at existing nodes before, it still does after the cascade |
| Graph.HasNodeSurvives | frontend/src/context/WorkflowContext.jsx:21 | removing one ID keeps every node with another ID |
| Graph.RemoveEdgeExact | frontend/src/context/WorkflowContext.jsx:31-33 | exactly the edges with other IDs remain, in order; the result is shorter by the number of edges with that ID |
| WorkflowCanvas.DropPosition | frontend/src/components/WorkflowCanvas.jsx:46-49 | the drop point is the pointer minus the bounds' corner minus (128, 60) |
| WorkflowCanvas.Placed | frontend/src/components/WorkflowCanvas.jsx:51-55 | the placed node keeps the payload's ID and data, takes the drop position and the `workflow` renderer type |
| WorkflowCanvas.Canvas.constructor | frontend/src/components/WorkflowCanvas.jsx:21-22 | the canvas copy starts equal to the store |
| WorkflowCanvas.Canvas.SyncNodes | frontend/src/components/WorkflowCanvas.jsx:24-26 | the effect replaces the copy's nodes with the store's |
| WorkflowCanvas.Canvas.SyncEdges | frontend/src/components/WorkflowCanvas.jsx:28-30 | the effect replaces the copy's edges with the store's |
| WorkflowCanvas.Canvas.OnDrop | frontend/src/components/WorkflowCanvas.jsx:37-63 | a non-empty payload that parses appends the same placed node to the copy and to the store; an empty or unparseable one changes nothing; edges untouched; a synchronised canvas stays synchronised |
| WorkflowCanvas.FirstChange | frontend/src/components/WorkflowCanvas.jsx:68 | `changes.find`: the change found is the first one in the list with the node's ID (no earlier change has that ID), and none is found exactly when no change has it |
| WorkflowCanvas.ApplyNodeChangesOrigin | frontend/src/components/WorkflowCanvas.jsx:66-76 | every node after the change comes from an input node with the same ID, data and kind |
| WorkflowCanvas.ApplyNodeChangesKeeps | frontend/src/components/WorkflowCanvas.jsx:68-75 | a node whose first change neither carries a position nor is `remove` (none at all, or a `select`) is kept as it is |
| WorkflowCanvas.Moved | frontend/src/components/WorkflowCanvas.jsx:68-71 | the `map` step keeps ID, data and kind; it takes the first change's position when there is one and leaves the node alone otherwise |
| WorkflowCanvas.MovedAll | frontend/src/components/WorkflowCanvas.jsx:67-75 | the mapped list has one entry per node, index by index |
| WorkflowCanvas.ApplyNodeChangesExact | frontend/src/components/WorkflowCanvas.jsx:66-76 | the handler's result is exactly the mapped nodes filtered by "first change is not a remove": survivors keep the input order, and the result is shorter by the number of removed nodes |
| WorkflowCanvas.ApplyNodeChangesMoves | frontend/src/components/WorkflowCanvas.jsx:69-71 | a node whose first change carries a position is kept with that position |
| WorkflowCanvas.ApplyNodeChangesRemoves | frontend/src/components/WorkflowCanvas.jsx:72-74 | no node whose first change is a position-less `remove` survives |
| WorkflowCanvas.ApplyNoChanges | frontend/src/components/WorkflowCanvas.jsx:65-79 | an empty change list leaves the nodes as they are |
| WorkflowCanvas.Canvas.OnNodesChange | frontend/src/components/WorkflowCanvas.jsx:65-80 | the copy becomes the mapped-then-filtered node list (order kept, so exactly the survivors in their old order) and the store is set to the same list; edges in both copies untouched |
| WorkflowCanvas.CanvasRemoveLeavesDanglingEdge | frontend/src/components/WorkflowCanvas.jsx:72-77 | concrete case: a canvas-level remove keeps an edge whose source no longer exists, unlike the store's cascade |
| WorkflowCanvas.ApplyEdgeChangesSpec | frontend/src/components/WorkflowCanvas.jsx:84 | exactly the edges that no `remove` change names survive, in order |
| WorkflowCanvas.Canvas.OnEdgesChange | frontend/src/components/WorkflowCanvas.jsx:82-88 | the copy becomes the filtered edge list and the store gets the same list; nodes untouched |
| WorkflowCanvas.ConnectEdge | frontend/src/components/WorkflowCanvas.jsx:91-98 | the new edge keeps the connection's endpoints and handles, has the ID `source-target-<now>`, is animated and of type `smoothstep` |
| WorkflowCanvas.ConnectEdgeIdsDiffer | frontend/src/components/WorkflowCanvas.jsx:93 | the same connection made at two different times gets two different IDs |
| WorkflowCanvas.Canvas.OnConnect | frontend/src/components/WorkflowCanvas.jsx:90-101 | exactly one edge is appended to the store, and the copy follows the store; nodes untouched |
| DragAndDrop.GetData | frontend/src/components/WorkflowCanvas.jsx:41 | the data stored under the format, or "" when none was set |
| DragAndDrop.DropReadsDraggedNode | frontend/src/components/ComponentPanel.jsx:78 | the canvas reads back, under the same key, the node the panel wrote |
| ComponentPanel.Component.TypeName | frontend/src/components/ComponentPanel.jsx:13-38 | catalog type names contain no dash |
| ComponentPanel.TypeNamesDistinct | frontend/src/components/ComponentPanel.jsx:13-38 | the four catalog types have distinct names |
| ComponentPanel.GetDefaultConfig | frontend/src/components/ComponentPanel.jsx:40-60 | each catalog type gets its own key set, and an unknown type gets `{}` |
| ComponentPanel.DefaultValues | frontend/src/components/ComponentPanel.jsx:42-56 | the default placeholder, embedding model, model, temperature, web-search flag and output format |
| ComponentPanel.NodeIdInjective | frontend/src/components/ComponentPanel.jsx:64 | `<type>-<n>` IDs of different types or counts never coincide |
| ComponentPanel.TemplateNode | frontend/src/components/ComponentPanel.jsx:66-75 | the node's ID is `<type>-<n>`, its label is `<Label> <n>`, it has the default config, and it sits at (0,0) with type `workflow` |
| ComponentPanel.Panel.constructor | frontend/src/components/ComponentPanel.jsx:6-11 | all four counters start at 0 and no ID has been issued |
| ComponentPanel.Panel.HandleDragStart | frontend/src/components/ComponentPanel.jsx:62-84 | the payload is the next template for the type under `application/reactflow`; only that type's counter advances; the ID was never issued before |
| Builder.DragToCanvas | frontend/src/components/ComponentPanel.jsx:62-84 | dragging from the panel and dropping on the canvas appends the panel's next template, placed at the drop point, to the store and to the copy; its ID is one this panel instance never issued, so it is absent from the store whenever every stored node came from this panel (see "## Left out") |
| WorkflowNode.PortRule | frontend/src/components/WorkflowNode.jsx:24-30 | the query intake has only an output handle and the output sink only an input handle; the other two types have both; every type has at least one |
| WorkflowNode.OnDeleteClick | frontend/src/components/WorkflowNode.jsx:7-18 | the delete button runs the store's cascade for this node's ID |
| WorkflowControls.Validate | frontend/src/components/WorkflowControls.jsx:11-27 | an empty graph is invalid with "Add at least one component"; otherwise it is valid iff it has a `user_query` node and an `output` node, else "Workflow must have User Query and Output components" |
| WorkflowControls.ValidWithoutEdges | frontend/src/components/WorkflowControls.jsx:11-27 | a query node and an output node with no edge at all pass validation |
| WorkflowControls.ValidStaysValidOnAdd | frontend/src/components/WorkflowControls.jsx:17-18 | adding a node never makes a valid graph invalid |
| WorkflowControls.SaveNode | frontend/src/components/WorkflowControls.jsx:35-40 | an entry keeps the node's ID, `data.type`, position and `data.config` |
| WorkflowControls.SaveConfiguration | frontend/src/components/WorkflowControls.jsx:34-42 | one entry per node, in order, and the edges copied as they are |
| WorkflowControls.SaveNodeForgetsOnlyLabelAndKind | frontend/src/components/WorkflowControls.jsx:35-40 | two nodes with the same entry, label and renderer kind are equal |
| WorkflowControls.Controls.ValidateWorkflow | frontend/src/components/WorkflowControls.jsx:11-27 | the result is the validator's verdict; its message is shown, or the error is cleared |
| WorkflowControls.Controls.HandleSave | frontend/src/components/WorkflowControls.jsx:29-54 | nothing is sent unless valid; the update carries the projected configuration and is sent only for a truthy ID; a failed update shows "Error saving workflow"; the loading flag ends down |
| WorkflowControls.Controls.HandleExecute | frontend/src/components/WorkflowControls.jsx:56-59 | `onExecute` runs exactly when validation passes |
| NodeSettings.HandleChange | frontend/src/components/NodeSettings.jsx:4-6 | the key maps to the new value, the other keys keep theirs, and no key is lost |
| NodeSettings.FieldsBelongToOneType | frontend/src/components/NodeSettings.jsx:10-130 | no field is edited under two types, and unknown types have none |
| NodeSettings.Displayed | frontend/src/components/NodeSettings.jsx:15-126 | a field shows its stored value when truthy, else that type's default |
| NodeSettings.NodeIdLine | frontend/src/components/NodeSettings.jsx:137 | the node ID line shows `config.nodeId` when truthy, else "Not set" |
| NodeSettings.ChangeIsDisplayed | frontend/src/components/NodeSettings.jsx:4-6 | after an edit to a truthy value that value is shown, and other fields show what they showed before |
| NodeSettings.ZeroTemperatureShownAsDefault | frontend/src/components/NodeSettings.jsx:87 | as written: a temperature edited to 0 is stored as 0 but shown as 0.7 |
| NodeSettings.DisplayedNullish | frontend/src/components/NodeSettings.jsx:87 | corrected display: only a missing or null field falls back to the default |
| NodeSettings.NullishShowsEveryEdit | frontend/src/components/NodeSettings.jsx:87 | with the corrected display every non-null edit is shown as stored |
| FileHandler.PySlice | backend/app/utils/file_handler.py:35 | Python's `s[i:j]`, equal to `s[i..j]` for in-range bounds |
| FileHandler.ChunkText | backend/app/utils/file_handler.py:29-39 | the loop's result is the recursive chunk specification; empty text yields no chunks |
| FileHandler.ChunksAreNonBlankWindows | backend/app/utils/file_handler.py:32-38 | the chunks are exactly the non-blank windows, in window order |
| FileHandler.WindowStartsAt | backend/app/utils/file_handler.py:38 | the k-th window starts at `k·(chunk_size − overlap)` |
| FileHandler.ChunkIsWindow | backend/app/utils/file_handler.py:34-37 | every chunk is `text[w:w+chunk_size]` for a window start w inside the text, and is not all whitespace |
| FileHandler.ChunkStartsIncrease | backend/app/utils/file_handler.py:32-39 | chunk start offsets strictly increase |
| FileHandler.ChunkLengthBound | backend/app/utils/file_handler.py:35 | no chunk is longer than `chunk_size` |
| FileHandler.WindowsCover | backend/app/utils/file_handler.py:32-38 | every index of the text lies inside some window |
| FileHandler.NonBlankCharacterIsChunked | backend/app/utils/file_handler.py:32-39 | every non-whitespace character lies inside a kept chunk, so no content is dropped |
| FileHandler.ConsecutiveWindowsOverlap | backend/app/utils/file_handler.py:38 | two consecutive full windows share exactly `overlap` characters |
| ChatRoute.GeminiRole | backend/app/routes/chat.py:84 | the role is `user` exactly when the sender's role is `user`, and `model` otherwise |
| ChatRoute.HistoryTurns | backend/app/routes/chat.py:81-86 | one turn per history message, in order, with its content and mapped role; none when the history is missing |
| ChatRoute.BuildMessages | backend/app/routes/chat.py:68-92 | the loop builds the system turn, the acknowledgement, the mapped history and the new message |
| ChatRoute.ConversationShape | backend/app/routes/chat.py:68-92 | the list has 3 + \|history\| turns, fixed first, second and last turns, the history carried over in order, and only the roles `user` and `model` |
| ChatRoute.SessionRepeatsMessage | backend/app/routes/chat.py:101-104 | the session history `messages[2:]` is the mapped history followed by the new message, and that message is then sent again |
| ChatRoute.ResponseText | backend/app/routes/chat.py:107 | the reply's text when it has one, else its string form |
| ChatRoute.Chat | backend/app/routes/chat.py:54-123 | a missing key gives 500, checked first; a whitespace-only message gives 400 and no model call; otherwise a reply gives a success body and an exception gives 500 with the prefixed detail |
| ChatRoute.ChatHealth | backend/app/routes/chat.py:125-132 | the health body reports whether a non-empty key is configured |
| GenAIStackChat.ChatPanel.constructor | frontend/src/components/GenAIStackChat.jsx:6-21 | the transcript opens with the title and subtitle entries; the input is empty and the panel is not loading |
| GenAIStackChat.ChatPanel.SetInput | frontend/src/components/GenAIStackChat.jsx:20 | the input box holds the typed text |
| GenAIStackChat.HistoryOf | frontend/src/components/GenAIStackChat.jsx:71-76 | one `{role, content}` per non-heading entry |
| GenAIStackChat.GreetingHasNoHistory | frontend/src/components/GenAIStackChat.jsx:6-19 | the opening transcript sends an empty history |
| GenAIStackChat.HistoryAppend | frontend/src/components/GenAIStackChat.jsx:71-76 | appending a non-heading entry, error entries included, extends the history by exactly that entry; a heading adds nothing |
| GenAIStackChat.ChatPanel.BeginSend | frontend/src/components/GenAIStackChat.jsx:54-77 | blank input changes nothing and sends nothing; otherwise the user entry is appended, the box cleared, loading set, and the request carries the transcript as it was before |
| GenAIStackChat.ReplyContent | frontend/src/components/GenAIStackChat.jsx:81 | `response` when truthy, else `message` |
| GenAIStackChat.ChatPanel.Finish | frontend/src/components/GenAIStackChat.jsx:79-96 | the assistant reply or the marked apology is appended, and loading ends either way |
| GenAIStackChat.ApologyOnlyOnFailure | frontend/src/components/GenAIStackChat.jsx:79-93 | the appended entry is the apology, marked as an error, exactly when the request failed |
| GenAIStackChat.Receive | frontend/src/components/GenAIStackChat.jsx:67-93 | in the intended send, a success body is delivered and any HTTP error becomes the failure path |
| GenAIStackChat.ExchangeAsWritten | frontend/src/components/GenAIStackChat.jsx:54-97 | as written (`chatAPI` undefined): a non-blank send appends the user's message and then always the apology; a blank one changes nothing |
| GenAIStackChat.Exchange | frontend/src/components/GenAIStackChat.jsx:54-97 | intended: one send through the chat route sends the request built from the old transcript and appends exactly two entries, the user's message and then the route's reply text when the key is set, the route accepts the message and Gemini replies, else the apology; it ends not loading |
| GenAIStackChat.BlankRulesDisagree | frontend/src/components/GenAIStackChat.jsx:55 | the panel's `trim()` and the route's `strip()` disagree on U+001C and U+FEFF |
| GenAIStackChat.EmDashesRemoveDoubleDash | frontend/src/components/GenAIStackChat.jsx:37 | after the em-dash step no `--` remains |
| GenAIStackChat.EmDashesIdentity | frontend/src/components/GenAIStackChat.jsx:37 | a text without `--` passes the em-dash step unchanged |
| GenAIStackChat.LineBreaksHead | frontend/src/components/GenAIStackChat.jsx:40 | the first character after the line-break step is `<` for a newline, else the original first character |
| GenAIStackChat.LineBreaksClean | frontend/src/components/GenAIStackChat.jsx:40 | after the line-break step no newline remains and no `--` is created |
| GenAIStackChat.FormattedIsClean | frontend/src/components/GenAIStackChat.jsx:37-40 | the two steps together leave neither `--` nor a raw newline |
| WorkflowService.Database.constructor | backend/app/models/workflow.py:12 | the tables start empty, so their primary keys are unique |
| WorkflowService.Database.CreateWorkflow | backend/app/services/workflow_service.py:13-24 | one active row is appended with the given name, owner and configuration; an absent or empty description is stored as ""; other tables unchanged |
| WorkflowService.Database.GetWorkflow | backend/app/services/workflow_service.py:27-39 | found exactly when a row matches both ID and owner; otherwise 404 "Workflow not found" |
| WorkflowService.Database.ListWorkflows | backend/app/services/workflow_service.py:42-44 | exactly the caller's rows; the model returns them in table order (see "## Left out") |
| WorkflowService.ApplyUpdate | backend/app/services/workflow_service.py:51-53 | the `setattr` loop over the set fields yields the field-by-field patch |
| WorkflowService.SetFieldsIsPatch | backend/app/services/workflow_service.py:51-53 | applying the set fields in order is the patch: set fields take the request's value, the rest and the keys are kept |
| WorkflowService.PatchedIdempotent | backend/app/services/workflow_service.py:51-53 | the same update twice equals once, and an empty update changes nothing |
| WorkflowService.Database.UpdateWorkflow | backend/app/services/workflow_service.py:47-57 | ownership is checked first (404 and no change); then only the matched row is replaced by its patch; other tables unchanged |
| WorkflowService.Database.DeleteWorkflow | backend/app/services/workflow_service.py:60-65 | ownership is checked first; then exactly that workflow goes, with its node rows and chat messages; documents unchanged |
| WorkflowService.Database.CreateDocument | backend/app/services/workflow_service.py:72-83 | one row is appended with the given fields and the column defaults |
| WorkflowService.Database.GetDocument | backend/app/services/workflow_service.py:86-98 | found exactly when a row matches both ID and owner; otherwise 404 "Document not found" |
| WorkflowService.Database.ListDocuments | backend/app/services/workflow_service.py:101-103 | exactly the caller's documents; the model returns them in table order (see "## Left out") |
| WorkflowService.Database.DeleteDocument | backend/app/services/workflow_service.py:106-111 | ownership is checked first; then exactly that document goes; other tables unchanged |
| WorkflowService.Database.CreateChatMessage | backend/app/services/workflow_service.py:118-129 | one message is appended, stamped with the clock |
| WorkflowService.Database.GetChatHistory | backend/app/services/workflow_service.py:132-137 | exactly this user's messages of this workflow, sorted ascending by creation time |
| WorkflowService.SortByTime | backend/app/services/workflow_service.py:137 | `order_by(created_at)`: sorted ascending and a permutation of the input |
| WorkflowService.RemoveWorkflowRow | backend/app/services/workflow_service.py:63 | deleting one row of a table with unique IDs removes exactly the rows with its ID |
| WorkflowService.FilterKeepsUniqueMessageIds | backend/app/services/workflow_service.py:63 | the cascade's filter keeps message IDs unique |
| Seqs.Find | backend/app/services/workflow_service.py:29-32 | `.first()`: the first index that satisfies the filter, or none when no index does |
| UserService.UserTable.constructor | backend/app/models/user.py:12-14 | the table starts empty, so IDs, emails and usernames are unique |
| UserService.UserTable.CreateUser | backend/app/services/user_service.py:12-37 | rejected with 400 exactly when someone has the email or the username, adding nothing; otherwise one active row with `hash(password)` is appended |
| UserService.Authenticate | backend/app/services/user_service.py:40-56 | success needs a known email, a verifying password and an active account; an unknown email is the 401; a 403 only follows a password that verifies |
| UserService.KnownUserWithRightPassword | backend/app/services/user_service.py:40-56 | with unique emails, a known email and a verifying password give `Ok(user)` for an active account and the 403 for an inactive one |
| UserService.WrongPasswordLooksLikeUnknownEmail | backend/app/services/user_service.py:44-48 | a password that fails to verify gives the same 401 as an unknown email |
| UserService.RegisteredUserCanLogIn | backend/app/services/user_service.py:26-56 | with a sound hasher, a freshly registered user logs in with their password |
| UserService.GetUserById | backend/app/services/user_service.py:59-67 | found exactly when a user has the ID; otherwise 404 "User not found" |

## Left out

- The validator follows the code, not the wider design: it never looks at edges, so a disconnected graph with a query node and an output node is valid.
- reactflow's `addEdge` on the canvas copy (WorkflowCanvas.jsx:99) is a library call. Only the store-side append is modelled; the sync effect then copies the store over the canvas.
- Edge `style` and `markerEnd` are presentation values and are not fields of the model's edges.
- `onDragOver`, scrolling, rendering and `isOpen` are not modelled; they change no state the model has.
- The bold, numbered-list and bullet regexes of `formatMessage` (GenAIStackChat.jsx:34, 43-49) are not modelled. Their lookahead and multiline semantics are not encoded; only the `--` and `\n` steps are.
- JSON text is not modelled: stringify and parse are the `Codec` parameter. Its `parse` yields a node or nothing, so a payload that is valid JSON but not a node (such as `5` or `{}`), which `onDrop` would spread into a malformed node and append to both copies, is not represented; the panel is the only writer of the payload.
- Timestamps of chat entries, `created_at` and `updated_at` columns other than the chat message clock, and the `onupdate` refresh are not modelled.
- GenAIStackChat.ReplyContent: the route's `ChatResponse` has no `message` field, so an empty `response` makes the entry's content `"" || undefined`, which is `undefined`; rendering then calls `formatMessage(undefined)`, whose first `text.replace` throws a TypeError during render. The model instead appends an entry with content "" and does not model the failed render.
- Builder.DragToCanvas: the panel's counters are per-mount state starting at 0, while the store lives above the routes and is never cleared, so after the builder page remounts the panel a drag can reissue an ID (`user_query-1`) that a node in the store already has. The model proves freshness only against the IDs this panel instance issued, and absence from the store only when every stored node came from this instance; remounting is not modelled.
- Json.Value: `NaN` is not modelled. Clearing the max-tokens box stores `parseInt("")`, which is `NaN`, and `NaN || 2048` then shows 2048; the model's numbers are reals and have no `NaN`.
- GenAIStackChat.ChatPanel.BeginSend: React's batched, asynchronous state updates are taken as one atomic step, so two overlapping sends are not modelled.
- WorkflowService.WorkflowUpdate: an explicit `name: null` is not modelled; the NOT NULL column would make that commit fail.
- Foreign-key enforcement (a chat message for a workflow that does not exist) and the user-level cascades are left to the database and not modelled.
- `WorkflowNode` rows are only keys (ID, workflow, type, node ID); their configuration and position columns are not used by the modelled code.
- PDF text extraction and saving uploads (file_handler.py:14-26, 42-48) are file I/O and are left out.
- FileHandler.ChunkText: requires `chunk_size > overlap`. Otherwise, on a non-empty text, the Python loop does not advance and never ends, so there is no result to model. On an empty text the loop body never runs and the result is `[]`, which the model does not cover for those arguments.
- WorkflowService.Database.ListWorkflows and WorkflowService.Database.ListDocuments: the queries have no `order_by`, so the database promises no order; the model returns the rows in table order, which is one admissible order, and the order is not something the source guarantees.
- Email syntax (pydantic `EmailStr`) is not checked; emails are plain strings.
- UserService.UserTable.CreateUser: `hash_password` is salted and random in the library; the model's hash is a deterministic parameter.
- The JWT token functions of the security module are not used by the modelled services and are left out.
- WorkflowService.SortByTime: the query fixes no order among equal timestamps; the model picks one, so only sortedness and the permutation are stated.
- The Gemini model call, its system instruction handling and its network behaviour are the `gemini` parameter of `ChatRoute.Chat`; logging is left out.

## Findings

| source | as written | input that shows it | evidently intended | confidence | as-written member | corrected member |
|---|---|---|---|---|---|---|
| frontend/src/components/GenAIStackChat.jsx:68 | line 3 imports `chatAPI` from the API module and line 68 calls `chatAPI.sendMessage`, but frontend/src/api/endpoints.js exports only `authAPI`, `workflowsAPI` and `documentsAPI` | any non-blank message: with a bundler that tolerates the missing export the call throws, the catch appends the apology, and no request is made; under native ES modules the module does not link at all | a `chatAPI.sendMessage` that posts the request to the chat route, and a transcript that shows the route's reply | not executed | GenAIStackChat.ExchangeAsWritten | GenAIStackChat.Exchange |
| frontend/src/components/NodeSettings.jsx:87 | `config.temperature \|\| 0.7` treats 0 as missing | set temperature to 0: the config stores 0, the slider and label show 0.7 | show the stored value unless it is missing (`??`) | not executed | NodeSettings.ZeroTemperatureShownAsDefault | NodeSettings.NullishShowsEveryEdit |
