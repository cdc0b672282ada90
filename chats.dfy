/** src/components/Chats/Chats.tsx: the chat panel's state (messages,
    conversation history, input) and the parent state it drives (loading,
    status, error), updated by the persisted-messages effect, the
    imperative handle and `handleSend`. Message ids (`crypto.randomUUID`),
    the clock and the backend `chatTurn` call are parameters. */
module Chats {
  import opened Base
  import opened ChatInterface

  /** `ChatMessage` of src/types/chats.ts, as stored by the backend. */
  datatype PersistedMessage = PersistedMessage(role: string, content: string, timestamp: string, contentType: string)

  /** `ConversationTurn`. */
  datatype Turn = Turn(role: Role, content: string)

  /** `role === 'assistant' ? 'assistant' : 'user'`. */
  function RoleOf(role: string): Role {
    if role == "assistant" then Assistant else User
  }

  /** One entry of `normalizePersistedMessages`. */
  datatype Normalized = Normalized(ui: UiMessage, turn: Turn)

  /** `normalizePersistedMessages`, the i-th id being `uuid(first + i)`. */
  function NormalizePersistedMessages(messages: seq<PersistedMessage>, uuid: nat -> string, first: nat)
    : seq<Normalized>
  {
    seq(|messages|, i requires 0 <= i < |messages| =>
      var role := RoleOf(messages[i].role);
      Normalized(UiMessage(uuid(first + i), role, messages[i].content), Turn(role, messages[i].content)))
  }

  /** Length, order and content are kept; only 'assistant' stays an
      assistant role, everything else becomes 'user'; the displayed and the
      history copy of each message agree. */
  lemma NormalizeMeaning(messages: seq<PersistedMessage>, uuid: nat -> string, first: nat)
    ensures var r := NormalizePersistedMessages(messages, uuid, first);
      && |r| == |messages|
      && forall i :: 0 <= i < |messages| ==>
           && r[i].ui.content == messages[i].content
           && (r[i].ui.role == Assistant <==> messages[i].role == "assistant")
           && r[i].turn == Turn(r[i].ui.role, r[i].ui.content)
           && r[i].ui.id == uuid(first + i)
  {
  }

  function UiOf(ns: seq<Normalized>): (r: seq<UiMessage>)
    ensures |r| == |ns| && forall i :: 0 <= i < |ns| ==> r[i] == ns[i].ui
  {
    seq(|ns|, i requires 0 <= i < |ns| => ns[i].ui)
  }

  function TurnsOf(ns: seq<Normalized>): (r: seq<Turn>)
    ensures |r| == |ns| && forall i :: 0 <= i < |ns| ==> r[i] == ns[i].turn
  {
    seq(|ns|, i requires 0 <= i < |ns| => ns[i].turn)
  }

  /** Assistant bubbles for `texts`, the i-th id being `uuid(first + i)`. */
  function AssistantMessages(texts: seq<string>, uuid: nat -> string, first: nat): (r: seq<UiMessage>)
    ensures |r| == |texts|
    ensures forall i :: 0 <= i < |texts| ==> r[i].role == Assistant && r[i].content == texts[i]
  {
    seq(|texts|, i requires 0 <= i < |texts| => UiMessage(uuid(first + i), Assistant, texts[i]))
  }

  /** The records handed to `onPersistedMessages`. */
  function Formatted(role: string, content: string, now: string): PersistedMessage {
    PersistedMessage(role, content, now, "text")
  }

  function FormattedAssistant(texts: seq<string>, now: string): (r: seq<PersistedMessage>)
    ensures |r| == |texts|
    ensures forall i :: 0 <= i < |texts| ==> r[i] == Formatted("assistant", texts[i], now)
  {
    seq(|texts|, i requires 0 <= i < |texts| => Formatted("assistant", texts[i], now))
  }

  // ---------------------------------------------------------------------
  // handleSend

  /** The component's props that `handleSend` reads. */
  datatype Props = Props(photos: seq<string>, country: Option<string>, uid: Option<string>,
                         chatId: Option<string>, hasPersistListener: bool)

  datatype ChatTurnRequest = ChatTurnRequest(uid: string, chatId: Option<string>, photoDataUrls: seq<string>,
                                             history: seq<Turn>, message: string, country: string)

  datatype ChatTurnResponse = ChatTurnResponse(reply: string, history: seq<Turn>)

  /** What `await chatTurn(...)` gives: a response, or a throw carrying an
      `Error`'s message (`None` when the thrown value is not an `Error`). */
  datatype TurnOutcome = Replied(response: ChatTurnResponse) | Failed(message: Option<string>)

  type ChatTurn = ChatTurnRequest -> TurnOutcome

  const ConsultingStatus := "Consulting the cosmetist..."
  const DoneStatus := "Done. Ask anything else or upload again to iterate."
  const FailedStatus := "Unable to finish. Fix the issue and retry."
  const DefaultError := "Something went wrong while generating your plan. Try again."

  /** The request body: `uid ?? ''`, `chatId ?? uid ?? undefined`,
      `country ?? 'us'`. */
  function RequestFor(props: Props, history: seq<Turn>, message: string): ChatTurnRequest {
    ChatTurnRequest(props.uid.GetOr(""), if props.chatId.Some? then props.chatId else props.uid,
                    props.photos, history, message, props.country.GetOr("us"))
  }

  /** The guard at the top of `handleSend`. */
  predicate ShouldSend(input: string, isLoading: bool) {
    JsTrim(input) != "" && !isLoading
  }

  /** `handleSend` goes ahead exactly when the Send button is enabled, and
      then the message it sends is non-empty with no surrounding
      whitespace. */
  lemma ShouldSendMeaning(input: string, isLoading: bool)
    ensures ShouldSend(input, isLoading) <==> !SendDisabled(isLoading, input)
    ensures ShouldSend(input, isLoading) ==>
      var m := JsTrim(input);
      m != [] && m[0] !in JsWhitespace && m[|m| - 1] !in JsWhitespace && |m| <= |input|
  {
    TrimFacts(input, JsWhitespace);
  }

  /** The request defaults: the chat id falls back to the uid, the uid to
      the empty string and the country to "us". */
  lemma RequestDefaults(props: Props, history: seq<Turn>, message: string)
    ensures var q := RequestFor(props, history, message);
      && (props.chatId.None? && props.uid.None? ==> q.chatId.None? && q.uid == "")
      && (props.chatId.None? && props.uid.Some? ==> q.chatId == props.uid && q.uid == props.uid.value)
      && (props.chatId.Some? ==> q.chatId == props.chatId)
      && (props.country.None? ==> q.country == "us")
      && q.message == message && q.history == history
  {
  }

  // ---------------------------------------------------------------------
  // The component

  class ChatsPanel {
    var messages: seq<UiMessage>
    var history: seq<Turn>
    var input: string
    /** The parent state set through `setLoading`, `setStatus`, `setError`. */
    var loading: bool
    var status: string
    var error: Option<string>
    /** Each batch handed to `onPersistedMessages`, in order. */
    var persisted: seq<seq<PersistedMessage>>
    /** How many ids `uuid` has handed out. */
    var issued: nat
    const uuid: nat -> string

    constructor (uuid: nat -> string)
      ensures this.uuid == uuid
      ensures messages == [] && history == [] && input == "" && !loading
      ensures status == "" && error.None? && persisted == [] && issued == 0
    {
      this.uuid := uuid;
      messages, history, input := [], [], "";
      loading, status, error := false, "", None;
      persisted, issued := [], 0;
    }

    /** `onInputChange`. */
    method SetInput(value: string)
      modifies this
      ensures input == value
      ensures messages == old(messages) && history == old(history) && loading == old(loading)
      ensures status == old(status) && error == old(error) && persisted == old(persisted) && issued == old(issued)
    {
      input := value;
    }

    /** The effect on `initialMessages`: nothing when undefined, a cleared
        panel when empty, else the normalised messages and history. */
    method ApplyInitialMessages(initialMessages: Option<seq<PersistedMessage>>)
      modifies this
      ensures initialMessages.None? ==>
        messages == old(messages) && history == old(history) && input == old(input) && issued == old(issued)
      ensures initialMessages == Some([]) ==>
        messages == [] && history == [] && input == "" && issued == old(issued)
      ensures initialMessages.Some? && initialMessages.value != [] ==>
        var ns := NormalizePersistedMessages(initialMessages.value, uuid, old(issued));
        && messages == UiOf(ns) && history == TurnsOf(ns) && input == ""
        && issued == old(issued) + |initialMessages.value|
      ensures loading == old(loading) && status == old(status) && error == old(error)
      ensures persisted == old(persisted)
    {
      if initialMessages.None? {
        return;
      }
      if |initialMessages.value| == 0 {
        messages, history, input := [], [], "";
        return;
      }
      var ns := NormalizePersistedMessages(initialMessages.value, uuid, issued);
      issued := issued + |initialMessages.value|;
      messages := UiOf(ns);
      history := TurnsOf(ns);
      input := "";
    }

    /** `replaceWithAssistantMessages`. */
    method ReplaceWithAssistantMessages(texts: seq<string>, snapshot: seq<Turn>, listening: bool, now: string)
      modifies this
      ensures messages == AssistantMessages(texts, uuid, old(issued)) && history == snapshot
      ensures issued == old(issued) + |texts|
      ensures persisted == old(persisted) + (if listening then [FormattedAssistant(texts, now)] else [])
      ensures input == old(input) && loading == old(loading) && status == old(status) && error == old(error)
    {
      messages := AssistantMessages(texts, uuid, issued);
      issued := issued + |texts|;
      history := snapshot;
      if listening {
        persisted := persisted + [FormattedAssistant(texts, now)];
      }
    }

    /** `appendAssistantMessage`. */
    method AppendAssistantMessage(content: string, snapshot: seq<Turn>, listening: bool, now: string)
      modifies this
      ensures messages == old(messages) + [UiMessage(uuid(old(issued)), Assistant, content)]
      ensures history == snapshot && issued == old(issued) + 1
      ensures persisted == old(persisted) + (if listening then [[Formatted("assistant", content, now)]] else [])
      ensures input == old(input) && loading == old(loading) && status == old(status) && error == old(error)
    {
      messages := messages + [UiMessage(uuid(issued), Assistant, content)];
      issued := issued + 1;
      history := snapshot;
      if listening {
        persisted := persisted + [[Formatted("assistant", content, now)]];
      }
    }

    /** `reset`. */
    method Reset()
      modifies this
      ensures messages == [] && history == [] && input == ""
      ensures loading == old(loading) && status == old(status) && error == old(error)
      ensures persisted == old(persisted) && issued == old(issued)
    {
      messages, history, input := [], [], "";
    }

    /** `handleSend`, run to completion; `isLoading` is the prop the
        handler closed over. Returns the request made, if any. */
    method HandleSend(props: Props, isLoading: bool, chatTurn: ChatTurn, now: string)
      returns (sent: Option<ChatTurnRequest>)
      modifies this
      ensures !ShouldSend(old(input), isLoading) ==>
        && sent.None? && messages == old(messages) && history == old(history) && input == old(input)
        && loading == old(loading) && status == old(status) && error == old(error)
        && persisted == old(persisted) && issued == old(issued)
      ensures ShouldSend(old(input), isLoading) ==>
        var text := JsTrim(old(input));
        var userBubble := UiMessage(uuid(old(issued)), User, text);
        && sent == Some(RequestFor(props, old(history), text))
        && input == "" && !loading
        && (chatTurn(sent.value).Replied? ==>
              var response := chatTurn(sent.value).response;
              && messages == old(messages) + [userBubble, UiMessage(uuid(old(issued) + 1), Assistant, response.reply)]
              && history == response.history && status == DoneStatus && error == old(error)
              && issued == old(issued) + 2
              && persisted == old(persisted) +
                   (if props.hasPersistListener
                    then [[Formatted("user", text, now), Formatted("assistant", response.reply, now)]]
                    else []))
        && (chatTurn(sent.value).Failed? ==>
              && messages == old(messages) + [userBubble] && history == old(history)
              && error == Some(chatTurn(sent.value).message.GetOr(DefaultError)) && status == FailedStatus
              && issued == old(issued) + 1 && persisted == old(persisted))
    {
      if !ShouldSend(input, isLoading) {
        return None;
      }
      var text := JsTrim(input);
      input := "";
      messages := messages + [UiMessage(uuid(issued), User, text)];
      issued := issued + 1;
      loading := true;
      status := ConsultingStatus;
      var request := RequestFor(props, history, text);
      sent := Some(request);
      FinishSend(text, chatTurn(request), props.hasPersistListener, now);
    }

    /** The part of `handleSend` after the request: the outcome's effect
        and the `finally` that ends loading. */
    method FinishSend(text: string, outcome: TurnOutcome, listening: bool, now: string)
      modifies this
      ensures input == old(input) && !loading
      ensures outcome.Replied? ==>
        && messages == old(messages) + [UiMessage(uuid(old(issued)), Assistant, outcome.response.reply)]
        && history == outcome.response.history && status == DoneStatus && error == old(error)
        && issued == old(issued) + 1
        && persisted == old(persisted) +
             (if listening then [[Formatted("user", text, now), Formatted("assistant", outcome.response.reply, now)]]
              else [])
      ensures outcome.Failed? ==>
        && messages == old(messages) && history == old(history)
        && error == Some(outcome.message.GetOr(DefaultError)) && status == FailedStatus
        && issued == old(issued) && persisted == old(persisted)
    {
      if outcome.Replied? {
        messages := messages + [UiMessage(uuid(issued), Assistant, outcome.response.reply)];
        issued := issued + 1;
        history := outcome.response.history;
        status := DoneStatus;
        if listening {
          persisted := persisted + [[Formatted("user", text, now), Formatted("assistant", outcome.response.reply, now)]];
        }
      } else {
        error := Some(outcome.message.GetOr(DefaultError));
        status := FailedStatus;
      }
      loading := false;
    }
  }
}
