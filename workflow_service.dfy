/** The backend's workflow, document and chat-message services over in-memory
    tables. Every read and write is filtered by the owning user; primary keys
    come from a fresh-ID parameter and timestamps from a clock parameter. */
module WorkflowService {
  import opened Wrappers
  import opened Json
  import Seqs

  const WorkflowNotFound: string := "Workflow not found"
  const DocumentNotFound: string := "Document not found"

  // ---- rows ---------------------------------------------------------------

  /** A `workflows` row; `description` and `is_active` are nullable columns. */
  datatype Workflow = Workflow(id: string, userId: string, name: string,
                               description: Option<string>, configuration: Option<Config>,
                               isActive: Option<bool>)

  /** A `workflow_nodes` row, reduced to its keys. */
  datatype NodeRow = NodeRow(id: string, workflowId: string, nodeType: string, nodeId: string)

  datatype Document = Document(id: string, userId: string, filename: string, filePath: string,
                               fileSize: int, contentType: string, chunksCount: int)

  datatype ChatMessage = ChatMessage(id: string, workflowId: string, userId: string,
                                     query: string, response: Option<string>, createdAt: int)

  // ---- requests -------------------------------------------------------------

  datatype WorkflowCreate = WorkflowCreate(name: string, description: Option<string>,
                                           configuration: Option<Config>)

  /** A field of an update request is either left out or given, possibly as null. */
  datatype Patch<T> = Unset | Set(value: T)

  /** An update request. A given `name` is a string: a null name would break the
      column's NOT NULL constraint at commit. */
  datatype WorkflowUpdate = WorkflowUpdate(name: Patch<string>, description: Patch<Option<string>>,
                                           configuration: Patch<Option<Config>>,
                                           isActive: Patch<Option<bool>>)

  /** One item of `workflow_data.dict(exclude_unset=True)`. */
  datatype FieldValue =
    | NameValue(name: string)
    | DescriptionValue(description: Option<string>)
    | ConfigurationValue(configuration: Option<Config>)
    | IsActiveValue(isActive: Option<bool>)

  /** The items of the request that were set, in declaration order. */
  function SetFields(u: WorkflowUpdate): seq<FieldValue> {
    (if u.name.Set? then [NameValue(u.name.value)] else [])
    + (if u.description.Set? then [DescriptionValue(u.description.value)] else [])
    + (if u.configuration.Set? then [ConfigurationValue(u.configuration.value)] else [])
    + (if u.isActive.Set? then [IsActiveValue(u.isActive.value)] else [])
  }

  /** `setattr(workflow, field, value)`. */
  function SetAttr(w: Workflow, f: FieldValue): Workflow {
    match f
    case NameValue(n) => w.(name := n)
    case DescriptionValue(d) => w.(description := d)
    case ConfigurationValue(c) => w.(configuration := c)
    case IsActiveValue(a) => w.(isActive := a)
  }

  /** The `setattr` calls of the loop, one after another. */
  function SetAll(w: Workflow, fs: seq<FieldValue>): Workflow
    decreases |fs|
  {
    if fs == [] then w else SetAttr(SetAll(w, fs[..|fs| - 1]), fs[|fs| - 1])
  }

  /** What an update means, field by field: a set field takes the request's
      value, an unset one keeps the stored value, and the keys never change. */
  function Patched(w: Workflow, u: WorkflowUpdate): Workflow {
    Workflow(w.id, w.userId,
             if u.name.Set? then u.name.value else w.name,
             if u.description.Set? then u.description.value else w.description,
             if u.configuration.Set? then u.configuration.value else w.configuration,
             if u.isActive.Set? then u.isActive.value else w.isActive)
  }

  lemma {:induction false} SetAllConcat(w: Workflow, a: seq<FieldValue>, b: seq<FieldValue>)
    ensures SetAll(w, a + b) == SetAll(SetAll(w, a), b)
    decreases |b|
  {
    if b == [] {
      assert a + b == a;
    } else {
      assert (a + b)[..|a + b| - 1] == a + b[..|b| - 1];
      SetAllConcat(w, a, b[..|b| - 1]);
    }
  }

  /** The `setattr` loop computes the field-by-field meaning of the update. */
  lemma SetFieldsIsPatch(w: Workflow, u: WorkflowUpdate)
    ensures SetAll(w, SetFields(u)) == Patched(w, u)
  {
    var n: seq<FieldValue> := if u.name.Set? then [NameValue(u.name.value)] else [];
    var d: seq<FieldValue> := if u.description.Set? then [DescriptionValue(u.description.value)] else [];
    var c: seq<FieldValue> := if u.configuration.Set? then [ConfigurationValue(u.configuration.value)] else [];
    var a: seq<FieldValue> := if u.isActive.Set? then [IsActiveValue(u.isActive.value)] else [];
    assert SetFields(u) == n + d + c + a;
    SetAllConcat(w, n + d + c, a);
    SetAllConcat(w, n + d, c);
    SetAllConcat(w, n, d);
  }

  /** Updating twice with the same request is the same as once, and an empty
      request changes nothing. */
  lemma PatchedIdempotent(w: Workflow, u: WorkflowUpdate)
    ensures Patched(Patched(w, u), u) == Patched(w, u)
    ensures u == WorkflowUpdate(Unset, Unset, Unset, Unset) ==> Patched(w, u) == w
  {
  }

  /** The loop of `update_workflow` over the set fields. */
  method ApplyUpdate(w: Workflow, u: WorkflowUpdate) returns (r: Workflow)
    ensures r == Patched(w, u)
  {
    var fields := SetFields(u);
    r := w;
    for k := 0 to |fields|
      invariant r == SetAll(w, fields[..k])
    {
      assert fields[..k + 1][..k] == fields[..k];
      r := SetAttr(r, fields[k]);
    }
    assert fields[..|fields|] == fields;
    SetFieldsIsPatch(w, u);
  }

  // ---- ownership filters ------------------------------------------------------

  function WorkflowMatch(id: string, userId: string): Workflow -> bool {
    (w: Workflow) => w.id == id && w.userId == userId
  }

  function WorkflowOwner(userId: string): Workflow -> bool {
    (w: Workflow) => w.userId == userId
  }

  function DocumentMatch(id: string, userId: string): Document -> bool {
    (d: Document) => d.id == id && d.userId == userId
  }

  function DocumentOwner(userId: string): Document -> bool {
    (d: Document) => d.userId == userId
  }

  function OtherWorkflow(workflowId: string): ChatMessage -> bool {
    (m: ChatMessage) => m.workflowId != workflowId
  }

  function OtherWorkflowNode(workflowId: string): NodeRow -> bool {
    (n: NodeRow) => n.workflowId != workflowId
  }

  function InConversation(workflowId: string, userId: string): ChatMessage -> bool {
    (m: ChatMessage) => m.workflowId == workflowId && m.userId == userId
  }

  // ---- ordering chat history ------------------------------------------------------

  predicate SortedByTime(ms: seq<ChatMessage>) {
    forall i, j :: 0 <= i < j < |ms| ==> ms[i].createdAt <= ms[j].createdAt
  }

  function InsertByTime(m: ChatMessage, ms: seq<ChatMessage>): (r: seq<ChatMessage>)
    requires SortedByTime(ms)
    ensures SortedByTime(r)
    ensures multiset(r) == multiset(ms) + multiset{m}
    ensures |r| == |ms| + 1
    ensures r[0] == m || (ms != [] && r[0] == ms[0])
  {
    if ms == [] || m.createdAt <= ms[0].createdAt then [m] + ms
    else
      assert ms == [ms[0]] + ms[1..];
      [ms[0]] + InsertByTime(m, ms[1..])
  }

  /** `order_by(created_at)`: ascending creation time, the same messages. The
      order among equal timestamps is not fixed by the query; this one is a choice. */
  function SortByTime(ms: seq<ChatMessage>): (r: seq<ChatMessage>)
    ensures SortedByTime(r)
    ensures multiset(r) == multiset(ms)
  {
    if ms == [] then []
    else
      assert ms == [ms[0]] + ms[1..];
      InsertByTime(ms[0], SortByTime(ms[1..]))
  }

  // ---- the tables --------------------------------------------------------------

  predicate UniqueWorkflowIds(ws: seq<Workflow>) {
    forall i, j :: 0 <= i < j < |ws| ==> ws[i].id != ws[j].id
  }

  predicate UniqueDocumentIds(ds: seq<Document>) {
    forall i, j :: 0 <= i < j < |ds| ==> ds[i].id != ds[j].id
  }

  predicate UniqueMessageIds(ms: seq<ChatMessage>) {
    forall i, j :: 0 <= i < j < |ms| ==> ms[i].id != ms[j].id
  }

  class Database {
    var workflows: seq<Workflow>
    var workflowNodes: seq<NodeRow>
    var documents: seq<Document>
    var chatMessages: seq<ChatMessage>

    /** Primary keys are unique. */
    predicate Valid()
      reads this
    {
      UniqueWorkflowIds(workflows) && UniqueDocumentIds(documents) && UniqueMessageIds(chatMessages)
    }

    constructor ()
      ensures Valid()
      ensures workflows == [] && workflowNodes == [] && documents == [] && chatMessages == []
    {
      workflows := [];
      workflowNodes := [];
      documents := [];
      chatMessages := [];
    }

    // ---- WorkflowService ----

    /** `create_workflow`: a new row owned by the caller; an absent or empty
        description is stored as "", and the row starts active. */
    method CreateWorkflow(userId: string, data: WorkflowCreate, newId: string) returns (w: Workflow)
      requires Valid()
      requires 1 <= |data.name| <= 255
      requires forall x :: x in workflows ==> x.id != newId
      modifies this
      ensures Valid()
      ensures w == Workflow(newId, userId, data.name,
                            Some(if data.description.Some? && data.description.value != ""
                                 then data.description.value else ""),
                            data.configuration, Some(true))
      ensures workflows == old(workflows) + [w]
      ensures workflowNodes == old(workflowNodes) && documents == old(documents)
      ensures chatMessages == old(chatMessages)
    {
      var description := if data.description.Some? && data.description.value != "" then data.description.value else "";
      w := Workflow(newId, userId, data.name, Some(description), data.configuration, Some(true));
      assert w.id !in set x | x in workflows :: x.id;
      workflows := workflows + [w];
      assert forall i :: 0 <= i < |old(workflows)| ==> workflows[i] == old(workflows)[i];
    }

    /** `get_workflow`: the row with this ID owned by this user, or 404 when
        there is none, whether missing or someone else's. */
    method GetWorkflow(id: string, userId: string) returns (r: Result<Workflow>)
      ensures r.Ok? <==> exists w :: w in workflows && w.id == id && w.userId == userId
      ensures r.Ok? ==> r.value in workflows && r.value.id == id && r.value.userId == userId
      ensures r.Err? ==> r.error == HttpError(404, WorkflowNotFound)
    {
      var found := Seqs.Find(workflows, WorkflowMatch(id, userId));
      match found {
        case Some(i) => r := Ok(workflows[i]);
        case None =>
          assert forall w :: w in workflows ==> !WorkflowMatch(id, userId)(w);
          r := Err(HttpError(404, WorkflowNotFound));
      }
    }

    /** `list_workflows`: exactly the caller's rows, in table order. */
    method ListWorkflows(userId: string) returns (ws: seq<Workflow>)
      ensures forall w :: w in ws <==> w in workflows && w.userId == userId
      ensures ws == Seqs.Filter(workflows, WorkflowOwner(userId))
    {
      ws := Seqs.Filter(workflows, WorkflowOwner(userId));
      forall w ensures w in ws <==> w in workflows && w.userId == userId {
        Seqs.FilterMembership(workflows, WorkflowOwner(userId), w);
      }
    }

    /** `update_workflow`: ownership first; then only the fields the request
        sets are overwritten in that row, and nothing else in any table changes. */
    method UpdateWorkflow(id: string, userId: string, u: WorkflowUpdate) returns (r: Result<Workflow>)
      requires Valid()
      modifies this
      ensures Valid()
      ensures documents == old(documents) && chatMessages == old(chatMessages)
      ensures workflowNodes == old(workflowNodes)
      ensures (exists w :: w in old(workflows) && w.id == id && w.userId == userId) <==> r.Ok?
      ensures r.Err? ==> r.error == HttpError(404, WorkflowNotFound) && workflows == old(workflows)
      ensures r.Ok? ==>
        exists i :: 0 <= i < |old(workflows)| && old(workflows)[i].id == id
          && old(workflows)[i].userId == userId
          && r.value == Patched(old(workflows)[i], u)
          && workflows == old(workflows)[i := r.value]
    {
      var found := Seqs.Find(workflows, WorkflowMatch(id, userId));
      match found {
        case None =>
          assert forall w :: w in workflows ==> !WorkflowMatch(id, userId)(w);
          r := Err(HttpError(404, WorkflowNotFound));
        case Some(i) =>
          var updated := ApplyUpdate(workflows[i], u);
          workflows := workflows[i := updated];
          r := Ok(updated);
          assert forall a :: 0 <= a < |workflows| ==> workflows[a].id == old(workflows)[a].id;
      }
    }

    /** `delete_workflow`: ownership first; then that row goes, and with it, by
        the ORM cascade, its node rows and its chat messages. Every other row stays. */
    method DeleteWorkflow(id: string, userId: string) returns (r: Result<bool>)
      requires Valid()
      modifies this
      ensures Valid()
      ensures documents == old(documents)
      ensures (exists w :: w in old(workflows) && w.id == id && w.userId == userId) <==> r.Ok?
      ensures r.Err? ==>
        && r.error == HttpError(404, WorkflowNotFound)
        && workflows == old(workflows) && workflowNodes == old(workflowNodes)
        && chatMessages == old(chatMessages)
      ensures r.Ok? ==>
        && r.value
        && (forall w :: w in workflows <==> w in old(workflows) && w.id != id)
        && |workflows| == |old(workflows)| - 1
        && workflowNodes == Seqs.Filter(old(workflowNodes), OtherWorkflowNode(id))
        && chatMessages == Seqs.Filter(old(chatMessages), OtherWorkflow(id))
    {
      var found := Seqs.Find(workflows, WorkflowMatch(id, userId));
      match found {
        case None =>
          assert forall w :: w in workflows ==> !WorkflowMatch(id, userId)(w);
          r := Err(HttpError(404, WorkflowNotFound));
        case Some(i) =>
          RemoveWorkflowRow(workflows, i);
          workflows := workflows[..i] + workflows[i + 1..];
          workflowNodes := Seqs.Filter(workflowNodes, OtherWorkflowNode(id));
          var keptMessages := Seqs.Filter(chatMessages, OtherWorkflow(id));
          FilterKeepsUniqueMessageIds(chatMessages, OtherWorkflow(id));
          chatMessages := keptMessages;
          r := Ok(true);
      }
    }

    // ---- DocumentService ----

    /** `create_document`: a new row owned by the caller, with the column
        defaults for content type and chunk count. */
    method CreateDocument(userId: string, filename: string, filePath: string, fileSize: int, newId: string)
      returns (d: Document)
      requires Valid()
      requires forall x :: x in documents ==> x.id != newId
      modifies this
      ensures Valid()
      ensures d == Document(newId, userId, filename, filePath, fileSize, "application/pdf", 0)
      ensures documents == old(documents) + [d]
      ensures workflows == old(workflows) && workflowNodes == old(workflowNodes)
      ensures chatMessages == old(chatMessages)
    {
      d := Document(newId, userId, filename, filePath, fileSize, "application/pdf", 0);
      documents := documents + [d];
      assert forall i :: 0 <= i < |old(documents)| ==> documents[i] == old(documents)[i];
    }

    /** `get_document`: found only when both the ID and the owner match. */
    method GetDocument(id: string, userId: string) returns (r: Result<Document>)
      ensures r.Ok? <==> exists d :: d in documents && d.id == id && d.userId == userId
      ensures r.Ok? ==> r.value in documents && r.value.id == id && r.value.userId == userId
      ensures r.Err? ==> r.error == HttpError(404, DocumentNotFound)
    {
      var found := Seqs.Find(documents, DocumentMatch(id, userId));
      match found {
        case Some(i) => r := Ok(documents[i]);
        case None =>
          assert forall d :: d in documents ==> !DocumentMatch(id, userId)(d);
          r := Err(HttpError(404, DocumentNotFound));
      }
    }

    /** `list_documents`: exactly the caller's documents, in table order. */
    method ListDocuments(userId: string) returns (ds: seq<Document>)
      ensures forall d :: d in ds <==> d in documents && d.userId == userId
      ensures ds == Seqs.Filter(documents, DocumentOwner(userId))
    {
      ds := Seqs.Filter(documents, DocumentOwner(userId));
      forall d ensures d in ds <==> d in documents && d.userId == userId {
        Seqs.FilterMembership(documents, DocumentOwner(userId), d);
      }
    }

    /** `delete_document`: ownership first; then only that document goes. */
    method DeleteDocument(id: string, userId: string) returns (r: Result<bool>)
      requires Valid()
      modifies this
      ensures Valid()
      ensures workflows == old(workflows) && workflowNodes == old(workflowNodes)
      ensures chatMessages == old(chatMessages)
      ensures (exists d :: d in old(documents) && d.id == id && d.userId == userId) <==> r.Ok?
      ensures r.Err? ==> r.error == HttpError(404, DocumentNotFound) && documents == old(documents)
      ensures r.Ok? ==>
        && r.value
        && (forall d :: d in documents <==> d in old(documents) && d.id != id)
        && |documents| == |old(documents)| - 1
    {
      var found := Seqs.Find(documents, DocumentMatch(id, userId));
      match found {
        case None =>
          assert forall d :: d in documents ==> !DocumentMatch(id, userId)(d);
          r := Err(HttpError(404, DocumentNotFound));
        case Some(i) =>
          RemoveDocumentRow(documents, i);
          documents := documents[..i] + documents[i + 1..];
          r := Ok(true);
      }
    }

    // ---- ChatService ----

    /** `create_chat_message`, stamped with `now`. */
    method CreateChatMessage(workflowId: string, userId: string, query: string,
                             response: Option<string>, newId: string, now: int)
      returns (m: ChatMessage)
      requires Valid()
      requires forall x :: x in chatMessages ==> x.id != newId
      modifies this
      ensures Valid()
      ensures m == ChatMessage(newId, workflowId, userId, query, response, now)
      ensures chatMessages == old(chatMessages) + [m]
      ensures workflows == old(workflows) && workflowNodes == old(workflowNodes)
      ensures documents == old(documents)
    {
      m := ChatMessage(newId, workflowId, userId, query, response, now);
      chatMessages := chatMessages + [m];
      assert forall i :: 0 <= i < |old(chatMessages)| ==> chatMessages[i] == old(chatMessages)[i];
    }

    /** `get_chat_history`: this user's messages of this workflow, oldest first. */
    method GetChatHistory(workflowId: string, userId: string) returns (ms: seq<ChatMessage>)
      ensures SortedByTime(ms)
      ensures multiset(ms) == multiset(Seqs.Filter(chatMessages, InConversation(workflowId, userId)))
      ensures forall m :: m in ms <==> m in chatMessages && m.workflowId == workflowId && m.userId == userId
    {
      var selected := Seqs.Filter(chatMessages, InConversation(workflowId, userId));
      ms := SortByTime(selected);
      forall m ensures m in ms <==> m in chatMessages && m.workflowId == workflowId && m.userId == userId {
        assert m in ms <==> m in multiset(ms);
        assert m in selected <==> m in multiset(selected);
        Seqs.FilterMembership(chatMessages, InConversation(workflowId, userId), m);
      }
    }
  }

  lemma FilterKeepsUniqueMessageIds(ms: seq<ChatMessage>, p: ChatMessage -> bool)
    requires UniqueMessageIds(ms)
    ensures UniqueMessageIds(Seqs.Filter(ms, p))
  {
    Seqs.FilterIsSubsequence(ms, p);
    SubsequenceKeepsUniqueIds(Seqs.Filter(ms, p), ms);
  }

  lemma {:induction false} SubsequenceKeepsUniqueIds(r: seq<ChatMessage>, s: seq<ChatMessage>)
    requires UniqueMessageIds(s) && Seqs.IsSubsequence(r, s)
    ensures UniqueMessageIds(r)
    decreases |s|
  {
    if r != [] && s != [] {
      assert UniqueMessageIds(s[1..]) by {
        forall a, b | 0 <= a < b < |s[1..]| ensures s[1..][a].id != s[1..][b].id {
          assert s[1..][a] == s[a + 1] && s[1..][b] == s[b + 1];
        }
      }
      if r[0] == s[0] {
        SubsequenceKeepsUniqueIds(r[1..], s[1..]);
        SubsequenceMembers(r[1..], s[1..]);
        forall a, b | 0 <= a < b < |r| ensures r[a].id != r[b].id {
          if a == 0 {
            assert r[b] == r[1..][b - 1];
            assert r[b] in s[1..];
            var k :| 0 <= k < |s[1..]| && s[1..][k] == r[b];
            assert s[k + 1] == r[b];
          } else {
            assert r[a] == r[1..][a - 1] && r[b] == r[1..][b - 1];
          }
        }
      } else {
        SubsequenceKeepsUniqueIds(r, s[1..]);
      }
    }
  }

  lemma {:induction false} SubsequenceMembers(r: seq<ChatMessage>, s: seq<ChatMessage>)
    requires Seqs.IsSubsequence(r, s)
    ensures forall x :: x in r ==> x in s
    decreases |s|
  {
    if r != [] && s != [] {
      if r[0] == s[0] {
        SubsequenceMembers(r[1..], s[1..]);
        assert r == [r[0]] + r[1..];
      } else {
        SubsequenceMembers(r, s[1..]);
      }
    }
  }

  /** Deleting a row of a table with unique keys removes exactly the rows with
      its key, that is, that one row. */
  lemma RemoveWorkflowRow(ws: seq<Workflow>, i: nat)
    requires UniqueWorkflowIds(ws) && i < |ws|
    ensures var r := ws[..i] + ws[i + 1..];
            && UniqueWorkflowIds(r)
            && |r| == |ws| - 1
            && forall w :: w in r <==> w in ws && w.id != ws[i].id
  {
    var r := ws[..i] + ws[i + 1..];
    forall w ensures w in r <==> w in ws && w.id != ws[i].id {
      Seqs.RemoveAtMembership(ws, i, w);
    }
    forall a, b | 0 <= a < b < |r| ensures r[a].id != r[b].id {
      var a' := if a < i then a else a + 1;
      var b' := if b < i then b else b + 1;
      assert r[a] == ws[a'] && r[b] == ws[b'];
    }
  }

  lemma RemoveDocumentRow(ds: seq<Document>, i: nat)
    requires UniqueDocumentIds(ds) && i < |ds|
    ensures var r := ds[..i] + ds[i + 1..];
            && UniqueDocumentIds(r)
            && |r| == |ds| - 1
            && forall d :: d in r <==> d in ds && d.id != ds[i].id
  {
    var r := ds[..i] + ds[i + 1..];
    forall d ensures d in r <==> d in ds && d.id != ds[i].id {
      Seqs.RemoveAtMembership(ds, i, d);
    }
    forall a, b | 0 <= a < b < |r| ensures r[a].id != r[b].id {
      var a' := if a < i then a else a + 1;
      var b' := if b < i then b else b + 1;
      assert r[a] == ds[a'] && r[b] == ds[b'];
    }
  }
}
