/** The chat-session store of src/store/modules/message.ts: per-party message
    lists, the session list kept most-recent-first, and the total unread
    count. The signed-in user's id, the fetched profile of a new party and
    the current time are parameters. */
module MessageStore {
  import opened Common
  import opened MessageTypes
  import WebSocket

  /** The profile `getUserInfoByUserId` returns; a missing field is None. */
  datatype Profile = Profile(nickname: Option<string>, avatarUrl: Option<string>)

  /** `session.unreadCount || 0` */
  function UnreadOf(s: ChatSession): (r: int)
    ensures s.unreadCount.None? ==> r == 0
    ensures s.unreadCount.Some? ==> r == s.unreadCount.value
  {
    if s.unreadCount.Some? then s.unreadCount.value else 0
  }

  /** The `reduce` of `updateTotalUnreadCount`, summing from the left. */
  function SumUnread(ss: seq<ChatSession>): (r: int)
    ensures (forall k :: 0 <= k < |ss| ==> UnreadOf(ss[k]) == 0) ==> r == 0
  {
    if ss == [] then 0 else SumUnread(ss[..|ss| - 1]) + UnreadOf(ss[|ss| - 1])
  }

  /** The total splits over a concatenation. */
  lemma {:induction false} SumUnreadAppend(a: seq<ChatSession>, b: seq<ChatSession>)
    ensures SumUnread(a + b) == SumUnread(a) + SumUnread(b)
  {
    if b == [] {
      assert a + b == a;
    } else {
      var c := a + b;
      assert c[..|c| - 1] == a + b[..|b| - 1];
      assert c[|c| - 1] == b[|b| - 1];
      SumUnreadAppend(a, b[..|b| - 1]);
    }
  }

  /** A session prepended adds its own count to the total. */
  lemma SumUnreadPrepend(s: ChatSession, ss: seq<ChatSession>)
    ensures SumUnread([s] + ss) == UnreadOf(s) + SumUnread(ss)
  {
    SumUnreadAppend([s], ss);
    SumUnreadSingle(s);
  }

  /** Every session's count is non-negative, so is the total. */
  lemma {:induction false} SumUnreadNonNegative(ss: seq<ChatSession>)
    requires forall i :: 0 <= i < |ss| ==> UnreadOf(ss[i]) >= 0
    ensures SumUnread(ss) >= 0
  {
    if ss != [] {
      SumUnreadNonNegative(ss[..|ss| - 1]);
    }
  }

  /** `splice(i, 1)` followed by `unshift` of the removed session. */
  function MoveToFront<T>(ss: seq<T>, i: nat): (r: seq<T>)
    requires i < |ss|
    ensures |r| == |ss| && r[0] == ss[i]
  {
    [ss[i]] + ss[..i] + ss[i + 1..]
  }

  /** Moving a session to the front keeps the list's length and contents,
      puts that session at index 0 and keeps the others in their order. */
  lemma MoveToFrontShape<T>(ss: seq<T>, i: nat)
    requires i < |ss|
    ensures |MoveToFront(ss, i)| == |ss|
    ensures MoveToFront(ss, i)[0] == ss[i]
    ensures MoveToFront(ss, i)[1..] == ss[..i] + ss[i + 1..]
    ensures multiset(MoveToFront(ss, i)) == multiset(ss)
  {
    var r := MoveToFront(ss, i);
    assert r[1..] == ss[..i] + ss[i + 1..];
    assert ss == ss[..i] + [ss[i]] + ss[i + 1..];
  }

  lemma SplitAt<T>(ss: seq<T>, i: nat)
    requires i < |ss|
    ensures ss == (ss[..i] + [ss[i]]) + ss[i + 1..]
  {
  }

  /** Moving a session to the front leaves the total unread count as it was. */
  lemma MoveToFrontSum(ss: seq<ChatSession>, i: nat)
    requires i < |ss|
    ensures SumUnread(MoveToFront(ss, i)) == SumUnread(ss)
  {
    var a, x, b := ss[..i], ss[i], ss[i + 1..];
    SplitAt(ss, i);
    calc {
      SumUnread(MoveToFront(ss, i));
      SumUnread(([x] + a) + b);
      { SumUnreadAppend([x] + a, b); }
      SumUnread([x] + a) + SumUnread(b);
      { SumUnreadPrepend(x, a); }
      UnreadOf(x) + SumUnread(a) + SumUnread(b);
      { SumUnreadAppend(a, [x]); SumUnreadSingle(x); }
      SumUnread(a + [x]) + SumUnread(b);
      { SumUnreadAppend(a + [x], b); }
      SumUnread((a + [x]) + b);
    }
  }

  lemma SumUnreadSingle(x: ChatSession)
    ensures SumUnread([x]) == UnreadOf(x)
  {
  }

  /** `chatSessions.findIndex(s => s.userInfo.id === id)`. */
  function FindSession(ss: seq<ChatSession>, id: int): (r: int)
    ensures -1 <= r < |ss|
    ensures r == -1 <==> forall k :: 0 <= k < |ss| ==> ss[k].userInfo.id != id
    ensures r >= 0 ==> ss[r].userInfo.id == id && forall k :: 0 <= k < r ==> ss[k].userInfo.id != id
  {
    if |ss| == 0 then -1
    else if ss[0].userInfo.id == id then 0
    else
      var k := FindSession(ss[1..], id);
      if k == -1 then -1 else k + 1
  }

  /** The other party of a message for the signed-in user `me`, or None when
      the message concerns neither side of `me` (or nobody is signed in). */
  function ChatTarget(m: MessageInfo, me: Option<int>): (r: Option<int>)
    ensures r.None? <==> me.None? || (m.receiveUserId != me.value && m.sendUserId != me.value)
    ensures r.Some? && m.receiveUserId == me.value ==> r.value == m.sendUserId
    ensures r.Some? && m.receiveUserId != me.value ==> r.value == m.receiveUserId && m.sendUserId == me.value
  {
    if me.None? || (m.receiveUserId != me.value && m.sendUserId != me.value) then None
    else if m.receiveUserId == me.value then Some(m.sendUserId)
    else Some(m.receiveUserId)
  }

  /** `t || now` for an optional time text. */
  function TimeOr(t: Option<string>, now: string): (r: string)
    ensures t.Some? && t.value != "" ==> r == t.value
    ensures t.None? || t.value == "" ==> r == now
  {
    if t.Some? && t.value != "" then t.value else now
  }

  /** An existing session after a message arrives for it: last message and
      time set, the count overwritten only when the message carries one. */
  function Touched(s: ChatSession, m: MessageInfo, now: string): (r: ChatSession)
    ensures r.userInfo == s.userInfo && r.isOnline == s.isOnline
    ensures r.lastMessage == m.content && r.lastMessageTime == TimeOr(m.createTime, now)
    ensures m.unreadCount.Some? ==> r.unreadCount == m.unreadCount
    ensures m.unreadCount.None? ==> r.unreadCount == s.unreadCount
  {
    var s1 := s.(lastMessage := m.content, lastMessageTime := TimeOr(m.createTime, now));
    if m.unreadCount.Some? then s1.(unreadCount := m.unreadCount) else s1
  }

  /** The count a new session starts with: the message's own count, else 1
      for an unread message, else 0. */
  function InitialUnread(m: MessageInfo): (r: int)
    ensures m.unreadCount.Some? ==> r == m.unreadCount.value
    ensures m.unreadCount.None? && m.isRead == Some(Unread) ==> r == 1
    ensures m.unreadCount.None? && m.isRead != Some(Unread) ==> r == 0
  {
    if m.unreadCount.Some? then m.unreadCount.value
    else if m.isRead == Some(Unread) then 1
    else 0
  }

  /** `用户${userId}`, the nickname of a profile without one. */
  function DefaultNickname(userId: int): (r: string)
    ensures |r| >= 3 && r[..2] == "用户" && r[2..] == IntToString(userId)
  {
    "用户" + IntToString(userId)
  }

  /** Two parties without a nickname are told apart by their default ones. */
  lemma DefaultNicknameInjective(a: int, b: int)
    requires DefaultNickname(a) == DefaultNickname(b)
    ensures a == b
  {
    assert IntToString(a) == DefaultNickname(a)[2..];
    IntToStringInjective(a, b);
  }

  /** The session `createNewSession` builds once the profile has arrived. */
  function NewSession(userId: int, m: MessageInfo, p: Profile, now: string): (r: ChatSession)
    ensures r.userInfo.id == userId && r.isOnline
    ensures r.userInfo.nickname == if p.nickname.Some? && p.nickname.value != "" then p.nickname.value else DefaultNickname(userId)
    ensures r.userInfo.avatarUrl == if p.avatarUrl.Some? then p.avatarUrl.value else ""
    ensures r.lastMessage == m.content && r.lastMessageTime == TimeOr(m.createTime, now)
    ensures r.unreadCount == Some(InitialUnread(m))
  {
    ChatSession(
      UserInfo(
        userId,
        if p.nickname.Some? && p.nickname.value != "" then p.nickname.value else DefaultNickname(userId),
        if p.avatarUrl.Some? then p.avatarUrl.value else ""),
      m.content,
      TimeOr(m.createTime, now),
      Some(InitialUnread(m)),
      true)
  }

  /** The message `sendMessageToCurrentChat` hands to the socket. */
  function Outgoing(me: int, chatId: int, content: string): (r: MessageInfo)
    ensures r.sendUserId == me && r.receiveUserId == chatId && r.content == content
    ensures r.createTime.None? && r.unreadCount.None? && r.id.None?
    ensures r.isRead.None? && r.isAi.None?
  {
    MessageInfo(None, me, chatId, content, None, None, None, None)
  }

  /** The session list after a message to or from `target`: the matching
      session updated and moved to the front, or the list as it was. */
  function SessionsAfter(ss: seq<ChatSession>, target: int, m: MessageInfo, now: string): (r: seq<ChatSession>)
    ensures |r| == |ss|
    ensures FindSession(ss, target) == -1 ==> r == ss
    ensures FindSession(ss, target) >= 0 ==>
              var i := FindSession(ss, target);
              && r[0] == Touched(ss[i], m, now)
              && r[1..] == ss[..i] + ss[i + 1..]
  {
    var i := FindSession(ss, target);
    if i == -1 then ss
    else
      var updated := ss[i := Touched(ss[i], m, now)];
      MoveToFrontShape(updated, i);
      assert updated[..i] == ss[..i] && updated[i + 1..] == ss[i + 1..];
      MoveToFront(updated, i)
  }

  class ChatStore {
    var chatSessions: seq<ChatSession>
    var currentChatId: Option<int>
    var chatMessages: map<int, seq<MessageInfo>>
    var totalUnreadCount: int

    /** The total matches the sessions. `loadChatSessions` takes the total
        from the server, so this holds only from the first recomputation. */
    ghost predicate Consistent()
      reads this
    {
      totalUnreadCount == SumUnread(chatSessions)
    }

    constructor ()
      ensures chatSessions == [] && currentChatId.None? && chatMessages == map[]
      ensures totalUnreadCount == 0 && Consistent()
    {
      chatSessions := [];
      currentChatId := None;
      chatMessages := map[];
      totalUnreadCount := 0;
    }

    /** `updateTotalUnreadCount` */
    method UpdateTotalUnreadCount()
      modifies this`totalUnreadCount
      ensures totalUnreadCount == SumUnread(chatSessions)
    {
      var total := 0;
      var i := 0;
      while i < |chatSessions|
        invariant 0 <= i <= |chatSessions|
        invariant total == SumUnread(chatSessions[..i])
      {
        assert chatSessions[..i + 1][..i] == chatSessions[..i];
        total := total + UnreadOf(chatSessions[i]);
        i := i + 1;
      }
      assert chatSessions[..i] == chatSessions;
      totalUnreadCount := total;
    }

    /** `receiveMessage`. A message unrelated to the signed-in user changes
        nothing. Otherwise it is appended to the other party's list; that
        party's session is updated and moved to the front, or, when there is
        none, `createNewSession` is started: `newSessionFor` names the party
        whose profile is then fetched, and `CreateNewSession` is what runs
        when it arrives. */
    method ReceiveMessage(message: MessageInfo, userId: Option<int>, now: string)
      returns (newSessionFor: Option<int>)
      modifies this
      ensures currentChatId == old(currentChatId)
      ensures ChatTarget(message, LoggedInId(userId)).None? ==>
                && newSessionFor.None?
                && chatMessages == old(chatMessages)
                && chatSessions == old(chatSessions)
                && totalUnreadCount == old(totalUnreadCount)
      ensures ChatTarget(message, LoggedInId(userId)).Some? ==>
                var t := ChatTarget(message, LoggedInId(userId)).value;
                && chatMessages == old(chatMessages)[t := ListAt(old(chatMessages), t) + [message]]
                && chatSessions == SessionsAfter(old(chatSessions), t, message, now)
                && (FindSession(old(chatSessions), t) == -1 ==>
                      newSessionFor == Some(t) && totalUnreadCount == old(totalUnreadCount))
                && (FindSession(old(chatSessions), t) >= 0 ==> newSessionFor.None?)
                && (FindSession(old(chatSessions), t) >= 0 && message.unreadCount.Some? ==>
                      totalUnreadCount == SumUnread(chatSessions))
                && (message.unreadCount.None? ==> totalUnreadCount == old(totalUnreadCount))
      ensures old(Consistent()) ==> Consistent()
    {
      var me := LoggedInId(userId);
      var target := ChatTarget(message, me);
      if target.None? {
        return None;
      }
      var t := target.value;
      chatMessages := chatMessages[t := ListAt(chatMessages, t) + [message]];
      var index := FindSession(chatSessions, t);
      if index != -1 {
        var before := chatSessions;
        chatSessions := chatSessions[index := Touched(chatSessions[index], message, now)];
        if message.unreadCount.Some? {
          UpdateTotalUnreadCount();
        }
        ghost var updated := chatSessions;
        chatSessions := MoveToFront(chatSessions, index);
        MoveToFrontSum(updated, index);
        if message.unreadCount.None? {
          UnchangedCountSum(before, index, Touched(before[index], message, now));
        }
        newSessionFor := None;
      } else {
        newSessionFor := Some(t);
      }
    }

    /** The part of `createNewSession` after the profile request settles:
        None is a failed request, which changes nothing; otherwise the new
        session is put first and the total recomputed. */
    method CreateNewSession(userId: int, message: MessageInfo, profile: Option<Profile>, now: string)
      modifies this
      ensures profile.None? ==>
                chatSessions == old(chatSessions) && totalUnreadCount == old(totalUnreadCount)
      ensures profile.Some? ==>
                && chatSessions == [NewSession(userId, message, profile.value, now)] + old(chatSessions)
                && totalUnreadCount == SumUnread(chatSessions)
                && totalUnreadCount == InitialUnread(message) + SumUnread(old(chatSessions))
      ensures chatMessages == old(chatMessages) && currentChatId == old(currentChatId)
      ensures old(Consistent()) ==> Consistent()
    {
      if profile.None? {
        return;
      }
      var session := NewSession(userId, message, profile.value, now);
      chatSessions := [session] + chatSessions;
      UpdateTotalUnreadCount();
      SumUnreadPrepend(session, old(chatSessions));
    }

    /** The local part of `sendMessageToCurrentChat`: without a signed-in user
        or an open chat nothing happens; otherwise the message goes to the
        socket (without a time), is appended to the chat with time `now`,
        and the chat's session is updated and moved to the front.
        `stringify` stands for `JSON.stringify`. */
    method SendMessageToCurrentChat(content: string, userId: Option<int>, now: string,
                                    socket: WebSocket.WebSocketManager, readyState: WebSocket.ReadyState,
                                    stringify: MessageInfo -> string)
      requires socket.Valid()
      modifies this, socket
      ensures socket.Valid()
      ensures LoggedInId(userId).None? || LoggedInId(old(currentChatId)).None? ==>
                && chatMessages == old(chatMessages)
                && chatSessions == old(chatSessions)
                && unchanged(socket)
      ensures LoggedInId(userId).Some? && LoggedInId(old(currentChatId)).Some? ==>
                var c := old(currentChatId).value;
                var m := Outgoing(userId.value, c, content);
                && chatMessages == old(chatMessages)[c := ListAt(old(chatMessages), c) + [m.(createTime := Some(now))]]
                && chatSessions == SessionsAfter(old(chatSessions), c, m.(createTime := Some(now)), now)
                && socket.SendEffect(WebSocket.Text(stringify(m)), readyState)
      ensures currentChatId == old(currentChatId) && totalUnreadCount == old(totalUnreadCount)
      ensures old(Consistent()) ==> Consistent()
    {
      var me := LoggedInId(userId);
      var chat := LoggedInId(currentChatId);
      if me.None? || chat.None? {
        return;
      }
      var c := chat.value;
      var message := Outgoing(me.value, c, content);
      socket.Send(WebSocket.Text(stringify(message)), readyState);
      var stamped := message.(createTime := Some(now));
      chatMessages := chatMessages[c := ListAt(chatMessages, c) + [stamped]];
      var index := FindSession(chatSessions, c);
      if index != -1 {
        var before := chatSessions;
        var s := chatSessions[index].(lastMessage := content, lastMessageTime := now);
        assert s == Touched(before[index], stamped, now);
        chatSessions := MoveToFront(chatSessions[index := s], index);
        MoveToFrontSum(before[index := s], index);
        UnchangedCountSum(before, index, s);
      }
    }
  }

  /** Replacing a session by one with the same count keeps the total. */
  lemma UnchangedCountSum(ss: seq<ChatSession>, i: nat, s: ChatSession)
    requires i < |ss| && s.unreadCount == ss[i].unreadCount
    ensures SumUnread(ss[i := s]) == SumUnread(ss)
  {
    var t := ss[i := s];
    SplitAt(ss, i);
    SplitAt(t, i);
    assert t[..i] == ss[..i] && t[i + 1..] == ss[i + 1..];
    SumUnreadAppend(ss[..i] + [ss[i]], ss[i + 1..]);
    SumUnreadAppend(ss[..i] + [s], ss[i + 1..]);
    SumUnreadAppend(ss[..i], [ss[i]]);
    SumUnreadAppend(ss[..i], [s]);
  }
}
