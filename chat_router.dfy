/** backend/routers/chat.py: the `chats` collection (a map from chat id to
    document), message storage and lookup, and the chat-turn and workflow
    handlers that persist what the agent says. */
module ChatRouter {
  import opened Base
  import opened JsonModel
  import opened DateTimes
  import opened Cosmetist

  /** A message timestamp as stored: the `datetime` of a stored request
      message, or the ISO text written by `_persist_messages`. */
  datatype Stamp = Moment(t: DateTimeValue) | IsoText(text: string)

  datatype StoredMessage = StoredMessage(role: string, content: string, timestamp: Stamp,
                                         contentType: string)

  /** `ChatMessage` of the store-message request. */
  datatype ChatMessage = ChatMessage(role: string, content: string, timestamp: DateTimeValue,
                                     contentType: string)

  /** A chat document; either field may be missing from a document. */
  datatype ChatDoc = ChatDoc(uid: Option<string>, messages: Option<seq<StoredMessage>>)

  type Docs = map<string, ChatDoc>

  /** `doc_data.get("messages", [])`, with an absent document read as empty. */
  function Existing(docs: Docs, id: string): seq<StoredMessage> {
    if id in docs then docs[id].messages.GetOr([]) else []
  }

  /** Seed the document if absent, then set its uid and append `added` to
      its messages; the update both handlers perform. */
  function AppendMessages(docs: Docs, id: string, uid: string, added: seq<StoredMessage>): (r: Docs)
    ensures r.Keys == docs.Keys + {id}
    ensures forall other :: other in docs && other != id ==> r[other] == docs[other]
    ensures r[id].uid == Some(uid)
    ensures r[id].messages.Some?
    ensures Existing(r, id) == Existing(docs, id) + added
  {
    docs[id := ChatDoc(Some(uid), Some(Existing(docs, id) + added))]
  }

  /** Appending twice is appending the concatenation once: message lists
      only grow, in the order they were written. */
  lemma AppendTwice(docs: Docs, id: string, uid1: string, uid2: string,
                    first: seq<StoredMessage>, second: seq<StoredMessage>)
    ensures AppendMessages(AppendMessages(docs, id, uid1, first), id, uid2, second)
         == AppendMessages(docs, id, uid2, first + second)
  {
    assert Existing(docs, id) + first + second == Existing(docs, id) + (first + second);
  }

  function StoredFromRequest(m: ChatMessage): StoredMessage {
    StoredMessage(m.role, m.content, Moment(m.timestamp), m.contentType)
  }

  /** The records `_persist_messages` writes: role and content copied, the
      clock's `k`-th reading as timestamp, content type `text`. */
  function Persisted(turns: seq<Turn>, clock: nat -> string): (r: seq<StoredMessage>)
    ensures |r| == |turns|
    ensures forall k :: 0 <= k < |turns| ==>
      r[k] == StoredMessage(turns[k].role, turns[k].content, IsoText(clock(k)), "text")
  {
    seq(|turns|, k requires 0 <= k < |turns| =>
      StoredMessage(turns[k].role, turns[k].content, IsoText(clock(k)), "text"))
  }

  /** `payload.chat_id or payload.uid`. */
  function Target(chatId: Option<string>, uid: string): (r: string)
    ensures chatId.Some? && chatId.value != "" ==> r == chatId.value
    ensures !(chatId.Some? && chatId.value != "") ==> r == uid
  {
    if chatId.Some? && chatId.value != "" then chatId.value else uid
  }

  // ---------------------------------------------------------------------
  // Workflow outcome

  datatype WorkflowResponse = WorkflowResponse(
    success: bool, verification: Option<string>, analysis: Option<string>,
    ratings: Option<string>, shopping: Option<string>, history: seq<Turn>,
    error: Option<Json>)

  /** What the handler makes of the verification reply. */
  datatype Verdict = Passed | Failed(message: Json) | Raised(error: string)

  /** The inner `try`: a reply that is not JSON (or is absent) passes; an
      object with a falsy `success` fails with its `message` or the default
      text; any other JSON value makes `.get` raise, which only the outer
      handler catches. */
  function VerdictOf(verification: Option<string>, loads: Parser): Verdict {
    if verification.None? then Passed
    else match loads(verification.value)
      case None => Passed
      case Some(j) =>
        if !j.JObj? then Raised(NoGetError(j))
        else if Get(j.fields, "success").Some? && PyTruthy(Get(j.fields, "success").value) then Passed
        else Failed(Get(j.fields, "message").GetOr(JStr("Image verification failed")))
  }

  /** `success` is false exactly when the reply is a JSON object whose
      `success` is falsy, and then the error is its `message` or the
      default text; an unparsable reply never fails the run. */
  lemma VerdictMeaning(verification: string, loads: Parser)
    ensures VerdictOf(Some(verification), loads).Failed? <==>
      loads(verification).Some? && loads(verification).value.JObj?
      && !(Get(loads(verification).value.fields, "success").Some?
           && PyTruthy(Get(loads(verification).value.fields, "success").value))
    ensures loads(verification).None? ==> VerdictOf(Some(verification), loads) == Passed
    ensures VerdictOf(Some(verification), loads).Failed? ==>
      var f := loads(verification).value.fields;
      VerdictOf(Some(verification), loads).message
        == if "message" in f then f["message"] else JStr("Image verification failed")
  {
  }

  /** The response, from the workflow's result. */
  function WorkflowReply(w: Result<WorkflowResult>, loads: Parser): (r: WorkflowResponse)
    ensures w.Err? ==> r == WorkflowResponse(false, None, None, None, None, [], Some(JStr(w.error)))
    ensures !r.success && r.history != [] ==>
      w.Ok? && VerdictOf(w.value.verification, loads).Failed?
    ensures r.success <==> w.Ok? && VerdictOf(w.value.verification, loads).Passed?
  {
    match w
    case Err(e) => WorkflowResponse(false, None, None, None, None, [], Some(JStr(e)))
    case Ok(res) =>
      match VerdictOf(res.verification, loads)
      case Raised(e) => WorkflowResponse(false, None, None, None, None, [], Some(JStr(e)))
      case Failed(m) => WorkflowResponse(false, res.verification, res.analysis, res.ratings,
                                         res.shopping, res.history, Some(m))
      case Passed => WorkflowResponse(true, res.verification, res.analysis, res.ratings,
                                      res.shopping, res.history, None)
  }

  /** The history is persisted only when the run got past the verdict, the
      target is non-empty and there is some history. */
  predicate PersistsWorkflow(w: Result<WorkflowResult>, loads: Parser, target: string) {
    w.Ok? && !VerdictOf(w.value.verification, loads).Raised? && target != "" && w.value.history != []
  }

  // ---------------------------------------------------------------------
  // Handlers

  datatype ChatTurnRequest = ChatTurnRequest(
    chatId: Option<string>, uid: string, message: string, history: seq<Turn>,
    photos: seq<string>, country: string)

  datatype ChatTurnResponse = ChatTurnResponse(reply: string, history: seq<Turn>)

  datatype WorkflowRequest = WorkflowRequest(chatId: Option<string>, uid: string,
                                             photos: seq<string>, country: string)

  class ChatStore {
    var docs: Docs

    constructor (docs: Docs)
      ensures this.docs == docs
    {
      this.docs := docs;
    }

    /** `store_message`. */
    method StoreMessage(chatId: string, uid: string, messages: seq<ChatMessage>) returns (reply: string)
      modifies this
      ensures docs == AppendMessages(old(docs), chatId, uid,
                                     seq(|messages|, k requires 0 <= k < |messages| => StoredFromRequest(messages[k])))
      ensures reply == "Message stored"
    {
      var existing := Existing(docs, chatId);
      if chatId !in docs {
        docs := docs[chatId := ChatDoc(Some(uid), Some([]))];
      }
      var added := seq(|messages|, k requires 0 <= k < |messages| => StoredFromRequest(messages[k]));
      docs := docs[chatId := ChatDoc(Some(uid), Some(existing + added))];
      reply := "Message stored";
    }

    /** `get_messages`: by id when one is given, else from a document whose
      uid matches (the query's first hit); nothing found reads as empty. */
    method GetMessages(chatId: Option<string>, uid: string) returns (msgs: seq<StoredMessage>)
      ensures chatId.Some? && chatId.value != "" ==> msgs == Existing(docs, chatId.value)
      ensures !(chatId.Some? && chatId.value != "") ==>
        if exists id :: id in docs && docs[id].uid == Some(uid)
        then exists id :: id in docs && docs[id].uid == Some(uid) && msgs == Existing(docs, id)
        else msgs == []
    {
      if chatId.Some? && chatId.value != "" {
        return Existing(docs, chatId.value);
      }
      if id :| id in docs && docs[id].uid == Some(uid) {
        msgs := Existing(docs, id);
      } else {
        msgs := [];
      }
    }

    /** `_persist_messages`. */
    method PersistMessages(chatId: string, uid: string, turns: seq<Turn>, clock: nat -> string)
      modifies this
      ensures docs == AppendMessages(old(docs), chatId, uid, Persisted(turns, clock))
    {
      var existing := Existing(docs, chatId);
      if chatId !in docs {
        docs := docs[chatId := ChatDoc(Some(uid), Some([]))];
      }
      docs := docs[chatId := ChatDoc(Some(uid), Some(existing + Persisted(turns, clock)))];
    }

    /** `chat_turn`: the request history plus the user message is answered;
      the response history ends with the user message and the reply, and
      exactly those two turns are persisted under the target id. */
    method ChatTurn(req: ChatTurnRequest, svc: Services, clock: nat -> string)
      returns (r: Result<ChatTurnResponse>)
      modifies this
      ensures var asked := req.history + [Turn("user", req.message)];
        var answer := ChatTurnSpec(req.photos, asked, req.country, svc).0;
        && (answer.Err? ==> r == Err(answer.error) && docs == old(docs))
        && (answer.Ok? ==>
              && r == Ok(ChatTurnResponse(answer.value, asked + [Turn("assistant", answer.value)]))
              && var target := Target(req.chatId, req.uid);
                 docs == if target != "" then
                           AppendMessages(old(docs), target, req.uid,
                             Persisted([Turn("user", req.message), Turn("assistant", answer.value)], clock))
                         else old(docs))
    {
      var history := req.history + [Turn("user", req.message)];
      var reply, _ := RunChatTurn(req.photos, history, req.country, svc);
      if reply.Err? {
        return Err(reply.error);
      }
      history := history + [Turn("assistant", reply.value)];
      var target := Target(req.chatId, req.uid);
      if target != "" {
        PersistMessages(target, req.uid, [Turn("user", req.message), Turn("assistant", reply.value)], clock);
      }
      r := Ok(ChatTurnResponse(reply.value, history));
    }

    /** `run_workflow`: the workflow runs, then its outcome is answered and
      persisted by `FinishWorkflow`. */
    method RunWorkflow(req: WorkflowRequest, svc: Services, clock: nat -> string)
      returns (r: WorkflowResponse)
      modifies this
      ensures var w := WorkflowSpec(req.photos, AskModel(req.photos, req.country, svc), svc.loads);
        && r == WorkflowReply(w, svc.loads)
        && docs == if PersistsWorkflow(w, svc.loads, Target(req.chatId, req.uid))
                   then AppendMessages(old(docs), Target(req.chatId, req.uid), req.uid,
                                       Persisted(w.value.history, clock))
                   else old(docs)
    {
      var w := RunInitialWorkflow(req.photos, req.country, svc);
      r := FinishWorkflow(w, Target(req.chatId, req.uid), req.uid, svc.loads, clock);
    }

    /** The part of `run_workflow` after the workflow returns: an error or
      a verification reply that makes `.get` raise is answered without
      persisting; otherwise the history is persisted under the target when
      both are non-empty. */
    method FinishWorkflow(w: Result<WorkflowResult>, target: string, uid: string, loads: Parser,
                          clock: nat -> string)
      returns (r: WorkflowResponse)
      modifies this
      ensures r == WorkflowReply(w, loads)
      ensures docs == if PersistsWorkflow(w, loads, target)
                      then AppendMessages(old(docs), target, uid, Persisted(w.value.history, clock))
                      else old(docs)
    {
      if w.Err? {
        return WorkflowResponse(false, None, None, None, None, [], Some(JStr(w.error)));
      }
      var res := w.value;
      var verdict := VerdictOf(res.verification, loads);
      if verdict.Raised? {
        return WorkflowResponse(false, None, None, None, None, [], Some(JStr(verdict.error)));
      }
      if target != "" && res.history != [] {
        PersistMessages(target, uid, res.history, clock);
      }
      r := WorkflowReply(w, loads);
    }
  }
}
