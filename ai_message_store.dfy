/** The deterministic part of the AI chat store of
    src/store/modules/aiMessage.ts: repair of persisted history, the user's
    fixed chat id and its place in the chat-id list, defaulting of fetched
    history, and the accumulation of a streamed reply.

    What the page persisted, the HTTP responses and the EventSource events
    are inputs: parameters of the methods, or calls of the stream
    handlers. */
module AIMessageStore {
  import opened Common
  import opened MessageTypes

  const ThinkingPlaceholder: string := "小贝正在思考..."
  const StreamErrorText: string := "抱歉，AI回复过程中出现错误，请稍后再试。"
  const SendErrorText: string := "抱歉，我遇到了一些问题，请稍后再试。"
  const CompleteMarker: string := "[complete]"
  const Anonymous: string := "anonymous"
  const SuccessCode: int := 200

  /** A persisted message before repair; None is `undefined`. */
  datatype RawMessage = RawMessage(content: Option<JsValue>, role: Option<JsValue>)

  /** A persisted history entry: an array, or anything else. */
  datatype PersistedHistory = HistoryArray(items: seq<RawMessage>) | NotArray

  /** The `{code, data}` body of a response; `data` is None when it is not
      an array. */
  datatype ResultBody<T> = ResultBody(code: int, data: Option<T>)

  /** How a request ended: it threw, or it returned a body (None for a
      missing one). */
  datatype Response<T> = Threw | Returned(body: Option<ResultBody<T>>)

  /** A response with code 200 whose data is an array. */
  predicate SucceededWithArray<T>(response: Response<T>)
  {
    response.Returned? && response.body.Some? && response.body.value.code == SuccessCode
    && response.body.value.data.Some?
  }

  /** An element of fetched history: null/undefined, or an object whose
      `content` and `role` may be missing. */
  datatype FetchedItem = NullItem | Item(content: Option<string>, role: Option<string>)

  predicate ValidRole(role: string)
  {
    role == RoleUser || role == RoleAssistant
  }

  /** `validateMessage`: text content is kept, anything else becomes the
      placeholder; a role other than 'user' or 'assistant' becomes
      'assistant'. */
  function ValidateMessage(m: RawMessage): (r: AIMessage)
    ensures ValidRole(r.role)
    ensures m.content.Some? && m.content.value.JsString? ==> r.content == m.content.value.s
    ensures !(m.content.Some? && m.content.value.JsString?) ==> r.content == ThinkingPlaceholder
    ensures m.role.Some? && m.role.value.JsString? && ValidRole(m.role.value.s) ==> r.role == m.role.value.s
    ensures !(m.role.Some? && m.role.value.JsString? && ValidRole(m.role.value.s)) ==> r.role == RoleAssistant
  {
    AIMessage(
      if m.content.Some? && m.content.value.JsString? then m.content.value.s else ThinkingPlaceholder,
      if m.role.Some? && m.role.value.JsString? && ValidRole(m.role.value.s) then m.role.value.s else RoleAssistant)
  }

  /** One entry as `init` leaves it. */
  function RepairEntry(e: PersistedHistory): (r: seq<AIMessage>)
    ensures e.NotArray? ==> r == []
    ensures e.HistoryArray? ==> |r| == |e.items|
    ensures e.HistoryArray? ==> forall i :: 0 <= i < |r| ==> r[i] == ValidateMessage(e.items[i])
  {
    match e
    case NotArray => []
    case HistoryArray(items) => seq(|items|, i requires 0 <= i < |items| => ValidateMessage(items[i]))
  }

  /** The whole history as `init` leaves it: same chat ids, each entry
      repaired. */
  function RepairedHistory(p: map<string, PersistedHistory>): (h: map<string, seq<AIMessage>>)
    ensures h.Keys == p.Keys
    ensures forall k :: k in h ==> h[k] == RepairEntry(p[k])
  {
    map k | k in p :: RepairEntry(p[k])
  }

  /** Every message of every chat has one of the two roles. */
  ghost predicate RolesValid(h: map<string, seq<AIMessage>>)
  {
    forall k, i :: k in h && 0 <= i < |h[k]| ==> ValidRole(h[k][i].role)
  }

  /** After repair every role is valid and every array keeps its length. */
  lemma RepairedHistoryValid(p: map<string, PersistedHistory>)
    ensures RolesValid(RepairedHistory(p))
    ensures forall k :: k in p && p[k].HistoryArray? ==> |RepairedHistory(p)[k]| == |p[k].items|
  {
  }

  /** The user part of the fixed id: the id, or 'anonymous' when it is
      falsy. */
  function UserKey(userId: Option<int>): (r: string)
    ensures LoggedInId(userId).None? ==> r == Anonymous
    ensures LoggedInId(userId).Some? ==> r == IntToString(userId.value)
  {
    if LoggedInId(userId).Some? then IntToString(userId.value) else Anonymous
  }

  /** `user_${userId}_fixed` */
  function FixedChatId(userId: Option<int>): (r: string)
    ensures |r| >= 12 && r[..5] == "user_" && r[|r| - 6..] == "_fixed"
    ensures r[5..|r| - 6] == UserKey(userId)
  {
    "user_" + UserKey(userId) + "_fixed"
  }

  lemma NumericKeyNotAnonymous(i: int)
    ensures IntToString(i) != Anonymous
  {
    var k := IntToString(i);
    assert k[0] == '-' || IsDigit(k[0]);
    assert Anonymous[0] == 'a';
  }

  /** Two users share a fixed chat id only when they are the same user (all
      users without an id share the anonymous one). */
  lemma FixedChatIdInjective(a: Option<int>, b: Option<int>)
    requires FixedChatId(a) == FixedChatId(b)
    ensures LoggedInId(a) == LoggedInId(b)
  {
    var ka, kb := UserKey(a), UserKey(b);
    assert ka == kb;
    if LoggedInId(a).Some? && LoggedInId(b).Some? {
      IntToStringInjective(a.value, b.value);
    } else if LoggedInId(a).Some? {
      NumericKeyNotAnonymous(a.value);
    } else if LoggedInId(b).Some? {
      NumericKeyNotAnonymous(b.value);
    }
  }

  /** The fixed id is put at the front when it is missing. */
  function EnsureFixedFirst(ids: seq<string>, fixed: string): (r: seq<string>)
    ensures fixed in r
    ensures fixed in ids ==> r == ids
    ensures fixed !in ids ==> r == [fixed] + ids
  {
    if fixed in ids then ids else [fixed] + ids
  }

  predicate NoDuplicates(ids: seq<string>)
  {
    forall i, j :: 0 <= i < j < |ids| ==> ids[i] != ids[j]
  }

  /** Putting the fixed id in twice is the same as once, and a list without
      duplicates stays without them. */
  lemma EnsureFixedFirstSound(ids: seq<string>, fixed: string)
    ensures EnsureFixedFirst(EnsureFixedFirst(ids, fixed), fixed) == EnsureFixedFirst(ids, fixed)
    ensures NoDuplicates(ids) ==> NoDuplicates(EnsureFixedFirst(ids, fixed))
    ensures multiset(EnsureFixedFirst(ids, fixed)) - multiset(ids) <= multiset{fixed}
  {
  }

  /** The list `loadChatIds` stores: the fetched ids when the response is a
      success with an array, else nothing, with the fixed id put first when
      missing; exactly the fixed id when the request threw. */
  function LoadedChatIds(response: Response<seq<string>>, fixed: string): (r: seq<string>)
    ensures fixed in r
    ensures response.Threw? ==> r == [fixed]
    ensures SucceededWithArray(response) ==> r == EnsureFixedFirst(response.body.value.data.value, fixed)
    ensures !SucceededWithArray(response) ==> r == [fixed]
  {
    match response
    case Threw => [fixed]
    case Returned(body) =>
      var ids := if body.Some? && body.value.code == SuccessCode && body.value.data.Some?
                 then body.value.data.value else [];
      EnsureFixedFirst(ids, fixed)
  }

  /** `{content: msg.content || '', role: msg.role || 'assistant'}`; note
      that an unknown role is kept here. */
  function DefaultFetched(item: FetchedItem): (r: AIMessage)
    requires item.Item?
    ensures item.content.Some? && item.content.value != "" ==> r.content == item.content.value
    ensures !(item.content.Some? && item.content.value != "") ==> r.content == ""
    ensures item.role.Some? && item.role.value != "" ==> r.role == item.role.value
    ensures !(item.role.Some? && item.role.value != "") ==> r.role == RoleAssistant
  {
    AIMessage(
      if item.content.Some? && item.content.value != "" then item.content.value else "",
      if item.role.Some? && item.role.value != "" then item.role.value else RoleAssistant)
  }

  /** The history `loadChatHistory` makes of a response, or None when it
      ends in its catch block (the request threw, or a null element made
      the defaulting throw). */
  function FetchedHistory(response: Response<seq<FetchedItem>>): (r: Option<seq<AIMessage>>)
    ensures response.Threw? ==> r.None?
    ensures response.Returned? && !SucceededWithArray(response) ==> r == Some([])
    ensures SucceededWithArray(response) ==>
              var items := response.body.value.data.value;
              && (r.None? <==> NullItem in items)
              && (r.Some? ==>
                    && |r.value| == |items|
                    && forall i :: 0 <= i < |items| ==> r.value[i] == DefaultFetched(items[i]))
  {
    match response
    case Threw => None
    case Returned(body) =>
      var items := if body.Some? && body.value.code == SuccessCode && body.value.data.Some?
                   then body.value.data.value else [];
      if NullItem in items then None
      else Some(seq(|items|, i requires 0 <= i < |items| => DefaultFetched(items[i])))
  }

  /** The history after one exchange in chat `id`: the user's message and
      the assistant's reply appended (an absent entry read as empty). */
  function WithExchange(h: map<string, seq<AIMessage>>, id: string, content: string, reply: AIMessage)
    : (r: map<string, seq<AIMessage>>)
    ensures r.Keys == h.Keys + {id}
    ensures forall k :: k in h && k != id ==> r[k] == h[k]
    ensures |r[id]| == |ListAt(h, id)| + 2
    ensures r[id][..|r[id]| - 2] == ListAt(h, id)
    ensures r[id][|r[id]| - 2..] == [AIMessage(content, RoleUser), reply]
  {
    var before := ListAt(h, id);
    assert (before + [AIMessage(content, RoleUser), reply])[..|before|] == before;
    h[id := before + [AIMessage(content, RoleUser), reply]]
  }

  /** Creating an empty entry first changes nothing about the exchange. */
  lemma WithExchangeAfterCreate(h: map<string, seq<AIMessage>>, id: string, content: string, reply: AIMessage)
    ensures WithExchange(h[id := ListAt(h, id)], id, content, reply) == WithExchange(h, id, content, reply)
  {
    assert ListAt(h[id := ListAt(h, id)], id) == ListAt(h, id);
  }

  /** `history[last].content = text` when the chat has a message. */
  function SetLastContent(h: map<string, seq<AIMessage>>, id: string, text: string): (r: map<string, seq<AIMessage>>)
    requires id in h
    ensures r.Keys == h.Keys
    ensures forall k :: k in h && k != id ==> r[k] == h[k]
    ensures |r[id]| == |h[id]|
    ensures |h[id]| > 0 ==> r[id][..|h[id]| - 1] == h[id][..|h[id]| - 1]
    ensures |h[id]| > 0 ==> r[id][|h[id]| - 1] == h[id][|h[id]| - 1].(content := text)
    ensures |h[id]| == 0 ==> r == h
  {
    var msgs := h[id];
    if |msgs| == 0 then h
    else h[id := msgs[|msgs| - 1 := msgs[|msgs| - 1].(content := text)]]
  }

  /** The `onerror` update: the last message becomes the error text only if
      it is an assistant message. */
  function ReplaceLastAssistant(h: map<string, seq<AIMessage>>, id: string): (r: map<string, seq<AIMessage>>)
    requires id in h
    ensures r.Keys == h.Keys
    ensures forall k :: k in h && k != id ==> r[k] == h[k]
    ensures |r[id]| == |h[id]|
    ensures |h[id]| > 0 && h[id][|h[id]| - 1].role == RoleAssistant ==>
              r == h[id := h[id][|h[id]| - 1 := AIMessage(StreamErrorText, RoleAssistant)]]
    ensures !(|h[id]| > 0 && h[id][|h[id]| - 1].role == RoleAssistant) ==> r == h
  {
    var msgs := h[id];
    if |msgs| > 0 && msgs[|msgs| - 1].role == RoleAssistant
    then h[id := msgs[|msgs| - 1 := AIMessage(StreamErrorText, RoleAssistant)]]
    else h
  }

  predicate OccursAt(s: string, pat: string, i: int)
  {
    0 <= i && i + |pat| <= |s| && s[i..i + |pat|] == pat
  }

  /** The first occurrence of the marker at or after `from`, or -1. */
  function FindMarkerFrom(s: string, from: nat): (r: int)
    requires from <= |s|
    decreases |s| - from
    ensures r == -1 ==> forall j :: from <= j ==> !OccursAt(s, CompleteMarker, j)
    ensures r != -1 ==> from <= r && OccursAt(s, CompleteMarker, r)
    ensures r != -1 ==> forall j :: from <= j < r ==> !OccursAt(s, CompleteMarker, j)
  {
    if from + |CompleteMarker| > |s| then -1
    else if s[from..from + |CompleteMarker|] == CompleteMarker then from
    else FindMarkerFrom(s, from + 1)
  }

  /** `chunk.includes('[complete]')` */
  predicate HasMarker(s: string)
    ensures HasMarker(s) <==> exists i :: OccursAt(s, CompleteMarker, i)
  {
    FindMarkerFrom(s, 0) != -1
  }

  /** `chunk.replace('[complete]', '')`: only the first marker goes. */
  function StripMarker(s: string): (r: string)
    ensures !HasMarker(s) ==> r == s
    ensures HasMarker(s) ==> |r| == |s| - |CompleteMarker|
    ensures HasMarker(s) ==>
              var i := FindMarkerFrom(s, 0);
              r == s[..i] + s[i + |CompleteMarker|..]
  {
    var i := FindMarkerFrom(s, 0);
    if i == -1 then s else s[..i] + s[i + |CompleteMarker|..]
  }

  /** The search from `from` finds the first occurrence at or after it. */
  lemma FindMarkerFirst(s: string, from: nat, p: nat)
    requires from <= p && OccursAt(s, CompleteMarker, p)
    requires forall j :: from <= j < p ==> !OccursAt(s, CompleteMarker, j)
    ensures FindMarkerFrom(s, from) == p
    decreases p - from
  {
  }

  /** A final chunk that is text without a marker followed by the marker is
      recognised as final and contributes exactly that text. No marker can
      start inside the text and run into the appended one, because '['
      appears in the marker only at its start. */
  lemma MarkerAtEnd(t: string)
    requires !HasMarker(t)
    ensures HasMarker(t + CompleteMarker)
    ensures StripMarker(t + CompleteMarker) == t
  {
    var s := t + CompleteMarker;
    var m := |CompleteMarker|;
    assert s[|t|..|t| + m] == CompleteMarker;
    forall j | 0 <= j < |t|
      ensures !OccursAt(s, CompleteMarker, j)
    {
      if j + m <= |t| {
        assert s[j..j + m] == t[j..j + m];
        assert !OccursAt(t, CompleteMarker, j);
      } else {
        var d := |t| - j;
        assert s[j..j + m][d] == s[|t|] == '[';
        assert CompleteMarker[d] != '[';
      }
    }
    FindMarkerFirst(s, 0, |t|);
    assert s[..|t|] == t;
  }

  /** The state an EventSource's handlers close over: the text received so
      far, and whether the handlers closed the source. */
  class ReplyStream {
    var streamText: string
    var closed: bool

    constructor ()
      ensures streamText == "" && !closed
    {
      streamText := "";
      closed := false;
    }

    /** `onmessage`. A chunk with the marker ends the reply: the last message
        gets the accumulated text plus the chunk without its first marker and
        both loading flags drop. Any other chunk is accumulated and the last
        message shows the accumulation. When the current chat has no
        history entry, reading its length throws and the rest of the handler
        does not run. */
    method OnChunk(store: AIChatStore, chunk: string)
      modifies this, store
      ensures store.currentChatId == old(store.currentChatId) && store.chatIds == old(store.chatIds)
      ensures store.aiCurrentResponse == old(store.aiCurrentResponse)
      ensures HasMarker(chunk) ==> streamText == old(streamText)
      ensures HasMarker(chunk) && old(store.currentChatId) in old(store.chatHistory) ==>
                && store.chatHistory == SetLastContent(old(store.chatHistory), old(store.currentChatId),
                                                       old(streamText) + StripMarker(chunk))
                && !store.isLoading && !store.aiStreaming && closed
      ensures !HasMarker(chunk) ==>
                && streamText == old(streamText) + chunk
                && store.isLoading == old(store.isLoading) && store.aiStreaming == old(store.aiStreaming)
                && closed == old(closed)
      ensures !HasMarker(chunk) && old(store.currentChatId) in old(store.chatHistory) ==>
                store.chatHistory == SetLastContent(old(store.chatHistory), old(store.currentChatId), streamText)
      ensures old(store.currentChatId) !in old(store.chatHistory) ==>
                && store.chatHistory == old(store.chatHistory)
                && store.isLoading == old(store.isLoading) && store.aiStreaming == old(store.aiStreaming)
                && closed == old(closed)
    {
      var id := store.currentChatId;
      if HasMarker(chunk) {
        var finalText := streamText + StripMarker(chunk);
        if id !in store.chatHistory {
          return;
        }
        store.chatHistory := SetLastContent(store.chatHistory, id, finalText);
        store.isLoading := false;
        store.aiStreaming := false;
        closed := true;
        return;
      }
      streamText := streamText + chunk;
      if id !in store.chatHistory {
        return;
      }
      store.chatHistory := SetLastContent(store.chatHistory, id, streamText);
    }

    /** `onerror`: an assistant message at the end is replaced by the error
        text, both loading flags drop and the source is closed (unless the
        current chat has no history entry, which throws first). */
    method OnStreamError(store: AIChatStore)
      modifies this, store
      ensures store.currentChatId == old(store.currentChatId) && store.chatIds == old(store.chatIds)
      ensures streamText == old(streamText) && store.aiCurrentResponse == old(store.aiCurrentResponse)
      ensures old(store.currentChatId) in old(store.chatHistory) ==>
                && store.chatHistory == ReplaceLastAssistant(old(store.chatHistory), old(store.currentChatId))
                && !store.isLoading && !store.aiStreaming && closed
      ensures old(store.currentChatId) !in old(store.chatHistory) ==>
                && store.chatHistory == old(store.chatHistory)
                && store.isLoading == old(store.isLoading) && store.aiStreaming == old(store.aiStreaming)
                && closed == old(closed)
    {
      var id := store.currentChatId;
      if id !in store.chatHistory {
        return;
      }
      store.chatHistory := ReplaceLastAssistant(store.chatHistory, id);
      store.isLoading := false;
      store.aiStreaming := false;
      closed := true;
    }
  }

  class AIChatStore {
    var currentChatId: string
    var chatHistory: map<string, seq<AIMessage>>
    var chatIds: seq<string>
    var isLoading: bool
    var aiStreaming: bool
    var aiCurrentResponse: string

    constructor ()
      ensures currentChatId == "" && chatHistory == map[] && chatIds == []
      ensures !isLoading && !aiStreaming && aiCurrentResponse == ""
    {
      currentChatId := "";
      chatHistory := map[];
      chatIds := [];
      isLoading := false;
      aiStreaming := false;
      aiCurrentResponse := "";
    }

    /** `init`, applied to the history and id list the page persisted
        (`persistedIds` is None when that value is not an array): every
        entry repaired, the fixed chat made current and put in the list. */
    method Init(persistedHistory: map<string, PersistedHistory>, persistedIds: Option<seq<string>>,
                userId: Option<int>)
      modifies this
      ensures chatHistory == RepairedHistory(persistedHistory)
      ensures currentChatId == FixedChatId(userId)
      ensures persistedIds.Some? ==> chatIds == EnsureFixedFirst(persistedIds.value, FixedChatId(userId))
      ensures persistedIds.None? ==> chatIds == [FixedChatId(userId)]
      ensures FixedChatId(userId) in chatIds
      ensures isLoading == old(isLoading) && aiStreaming == old(aiStreaming)
      ensures aiCurrentResponse == old(aiCurrentResponse)
    {
      var pending := persistedHistory.Keys;
      var repaired: map<string, seq<AIMessage>> := map[];
      while pending != {}
        invariant pending <= persistedHistory.Keys
        invariant repaired.Keys == persistedHistory.Keys - pending
        invariant forall k :: k in repaired ==> repaired[k] == RepairEntry(persistedHistory[k])
        decreases pending
      {
        var chatId :| chatId in pending;
        match persistedHistory[chatId] {
          case HistoryArray(items) =>
            repaired := repaired[chatId := seq(|items|, i requires 0 <= i < |items| => ValidateMessage(items[i]))];
          case NotArray =>
            repaired := repaired[chatId := []];
        }
        pending := pending - {chatId};
      }
      chatHistory := repaired;
      chatIds := if persistedIds.Some? then persistedIds.value else [];
      var fixed := FixedChatId(userId);
      currentChatId := fixed;
      if fixed !in chatIds {
        chatIds := [fixed] + chatIds;
      }
    }

    /** `createNewChat`: the fixed chat gets an empty history if it has none,
        becomes current and is put in the list when missing. */
    method CreateNewChat(userId: Option<int>) returns (id: string)
      modifies this
      ensures id == FixedChatId(userId) && currentChatId == id
      ensures chatHistory == old(chatHistory)[id := ListAt(old(chatHistory), id)]
      ensures chatIds == EnsureFixedFirst(old(chatIds), id)
      ensures isLoading == old(isLoading) && aiStreaming == old(aiStreaming)
      ensures aiCurrentResponse == old(aiCurrentResponse)
    {
      id := FixedChatId(userId);
      if id !in chatHistory {
        chatHistory := chatHistory[id := []];
      }
      currentChatId := id;
      if id !in chatIds {
        chatIds := [id] + chatIds;
      }
    }

    /** `loadChatIds` once the request has settled. */
    method LoadChatIds(userId: Option<int>, response: Response<seq<string>>) returns (ids: seq<string>)
      modifies this`chatIds
      ensures chatIds == LoadedChatIds(response, FixedChatId(userId)) && ids == chatIds
    {
      var fixed := FixedChatId(userId);
      match response {
        case Threw =>
          chatIds := [];
          chatIds := chatIds + [fixed];
        case Returned(body) =>
          var loaded: seq<string> := [];
          if body.Some? && body.value.code == SuccessCode {
            loaded := if body.value.data.Some? then body.value.data.value else [];
          }
          if fixed !in loaded {
            loaded := [fixed] + loaded;
          }
          chatIds := loaded;
      }
      ids := chatIds;
    }

    /** `loadChatHistory` up to its `await`. An empty `chatId` means the
        fixed chat. A cached non-empty history is returned and made current
        without a request; otherwise `cached` is None and a request for `id`
        starts, with nothing changed yet. */
    method LoadChatHistory(chatId: string, userId: Option<int>) returns (id: string, cached: Option<seq<AIMessage>>)
      modifies this`currentChatId
      ensures id == if chatId == "" then FixedChatId(userId) else chatId
      ensures id in chatHistory && |chatHistory[id]| > 0 ==> cached == Some(chatHistory[id]) && currentChatId == id
      ensures !(id in chatHistory && |chatHistory[id]| > 0) ==> cached.None? && currentChatId == old(currentChatId)
    {
      id := if chatId == "" then FixedChatId(userId) else chatId;
      if id in chatHistory && |chatHistory[id]| > 0 {
        currentChatId := id;
        return id, Some(chatHistory[id]);
      }
      cached := None;
    }

    /** `loadChatHistory` once the request for `id` has settled. The cache
        is not consulted again: the defaulted history replaces whatever the
        entry holds by now, and is made current and returned; in the catch
        block the entry is emptied, [] is returned and the current chat
        stays. */
    method HistoryFetched(id: string, response: Response<seq<FetchedItem>>) returns (history: seq<AIMessage>)
      modifies this`chatHistory, this`currentChatId
      ensures FetchedHistory(response).Some? ==>
                && history == FetchedHistory(response).value
                && chatHistory == old(chatHistory)[id := history]
                && currentChatId == id
      ensures FetchedHistory(response).None? ==>
                && history == []
                && chatHistory == old(chatHistory)[id := []]
                && currentChatId == old(currentChatId)
    {
      var result := FetchedHistory(response);
      if result.None? {
        chatHistory := chatHistory[id := []];
        return [];
      }
      chatHistory := chatHistory[id := result.value];
      currentChatId := id;
      history := chatHistory[id];
    }

    /** `sendMessageToAI` up to the opening of the EventSource
        (`sourceOpened` false: its construction threw). Without a current
        chat the fixed one is created first. The user message and an empty
        assistant message are appended; the reply returned is that empty
        message, or, in the catch block, the error message that replaced it. */
    method SendMessageToAI(content: string, userId: Option<int>, sourceOpened: bool)
      returns (reply: AIMessage, stream: ReplyStream?)
      modifies this
      ensures currentChatId == if old(currentChatId) == "" then FixedChatId(userId) else old(currentChatId)
      ensures old(currentChatId) == "" ==> chatIds == EnsureFixedFirst(old(chatIds), currentChatId)
      ensures old(currentChatId) != "" ==> chatIds == old(chatIds)
      ensures reply == AIMessage(if sourceOpened then "" else SendErrorText, RoleAssistant)
      ensures chatHistory == WithExchange(old(chatHistory), currentChatId, content, reply)
      ensures sourceOpened ==> stream != null && fresh(stream) && stream.streamText == "" && !stream.closed
      ensures !sourceOpened ==> stream == null
      ensures isLoading && aiStreaming && aiCurrentResponse == ""
    {
      if currentChatId == "" {
        var id := CreateNewChat(userId);
        WithExchangeAfterCreate(old(chatHistory), id, content, AIMessage(if sourceOpened then "" else SendErrorText, RoleAssistant));
      }
      reply, stream := AppendExchange(content, sourceOpened);
    }

    /** The `try` block of `sendMessageToAI` for the current chat. */
    method AppendExchange(content: string, sourceOpened: bool) returns (reply: AIMessage, stream: ReplyStream?)
      modifies this
      ensures currentChatId == old(currentChatId) && chatIds == old(chatIds)
      ensures reply == AIMessage(if sourceOpened then "" else SendErrorText, RoleAssistant)
      ensures chatHistory == WithExchange(old(chatHistory), currentChatId, content, reply)
      ensures sourceOpened ==> stream != null && fresh(stream) && stream.streamText == "" && !stream.closed
      ensures !sourceOpened ==> stream == null
      ensures isLoading && aiStreaming && aiCurrentResponse == ""
    {
      isLoading := true;
      aiStreaming := true;
      aiCurrentResponse := "";
      var id := currentChatId;
      var userMessage := AIMessage(content, RoleUser);
      chatHistory := chatHistory[id := ListAt(chatHistory, id) + [userMessage]];
      chatHistory := chatHistory[id := chatHistory[id] + [AIMessage("", RoleAssistant)]];
      if !sourceOpened {
        var errorMessage := AIMessage(SendErrorText, RoleAssistant);
        var msgs := chatHistory[id];
        chatHistory := chatHistory[id := msgs[|msgs| - 1 := errorMessage]];
        assert chatHistory[id] == ListAt(old(chatHistory), id) + [userMessage, errorMessage];
        return errorMessage, null;
      }
      assert chatHistory[id] == ListAt(old(chatHistory), id) + [userMessage, AIMessage("", RoleAssistant)];
      stream := new ReplyStream();
      reply := chatHistory[id][|chatHistory[id]| - 1];
    }
  }

  /** A reply streamed as "Hel", "lo" and "![complete]" ends as "Hello!" in
      the last message, and the loading flags drop. */
  method StreamedReply(userId: Option<int>)
  {
    var store := new AIChatStore();
    var reply, stream := store.SendMessageToAI("hi", userId, true);
    var id := store.currentChatId;
    assert store.chatHistory[id] == [AIMessage("hi", RoleUser), AIMessage("", RoleAssistant)];
    assert !HasMarker("Hel") && !HasMarker("lo");
    stream.OnChunk(store, "Hel");
    stream.OnChunk(store, "lo");
    assert stream.streamText == "Hello";
    MarkerAtEnd("!");
    stream.OnChunk(store, "!" + CompleteMarker);
    var h := store.chatHistory[id];
    assert |h| == 2 && h[0] == AIMessage("hi", RoleUser);
    assert h[1] == AIMessage("Hello" + "!", RoleAssistant);
    assert !store.isLoading && !store.aiStreaming;
  }

  /** A message sent while the fixed chat's history is being fetched is
      lost: the fetched history replaces the exchange, and the streamed
      reply then goes into the last fetched message. */
  method FetchOverwritesExchange(userId: Option<int>)
  {
    var store := new AIChatStore();
    var id, cached := store.LoadChatHistory("", userId);
    assert cached.None?;
    var reply, stream := store.SendMessageToAI("hi", userId, true);
    assert store.currentChatId == id;
    assert store.chatHistory[id] == [AIMessage("hi", RoleUser), AIMessage("", RoleAssistant)];
    var server := [Item(Some("earlier"), Some(RoleUser))];
    assert NullItem !in server;
    var history := store.HistoryFetched(id, Returned(Some(ResultBody(SuccessCode, Some(server)))));
    assert store.chatHistory[id] == [AIMessage("earlier", RoleUser)];
    assert !HasMarker("Hel");
    stream.OnChunk(store, "Hel");
    assert stream.streamText == "Hel";
    assert store.chatHistory[id] == [AIMessage("Hel", RoleUser)];
  }
}
