/** The battle-mode session store: the session list, the current-session
    pointer and the typing indicator, changed by the chat handlers. Each
    handler commits whole-list replacements built by `SessionOps`; clock
    readings that mint ids are parameters. */
module SessionStore {
  import opened Types
  import opened Ids
  import opened SessionOps

  predicate DistinctSessionIds(sessions: seq<ChatSession>) {
    forall i, j :: 0 <= i < j < |sessions| ==> sessions[i].id != sessions[j].id
  }

  predicate DistinctMessageIds(msgs: seq<Message>) {
    forall i, j :: 0 <= i < j < |msgs| ==> msgs[i].id != msgs[j].id
  }

  /** No two sessions share an id, and within a session no two messages do. */
  predicate WellFormed(sessions: seq<ChatSession>) {
    && DistinctSessionIds(sessions)
    && forall i :: 0 <= i < |sessions| ==> DistinctMessageIds(sessions[i].messages)
  }

  predicate SessionIdFresh(sessions: seq<ChatSession>, id: string) {
    forall i :: 0 <= i < |sessions| ==> sessions[i].id != id
  }

  /** No message of the session with id sessionId has an id in ids. */
  predicate MessageIdsFresh(sessions: seq<ChatSession>, sessionId: string, ids: set<string>) {
    forall i, j :: 0 <= i < |sessions| && sessions[i].id == sessionId && 0 <= j < |sessions[i].messages| ==>
      sessions[i].messages[j].id !in ids
  }

  /** `!activeSessionId`: JavaScript treats both null and the empty string
      as "no session". */
  predicate NoActive(current: Option<string>) {
    current.None? || current.value == ""
  }

  /** A session with a fresh id in front of a well-formed list keeps it
      well-formed. */
  lemma PrependKeepsWellFormed(sessions: seq<ChatSession>, s: ChatSession)
    requires WellFormed(sessions) && SessionIdFresh(sessions, s.id) && DistinctMessageIds(s.messages)
    ensures WellFormed([s] + sessions)
  {
  }

  /** Appending a turn whose two message ids are new to the active session
      keeps the list well-formed. */
  lemma AppendTurnKeepsWellFormed(sessions: seq<ChatSession>, activeId: string, user: Message, model: Message)
    requires WellFormed(sessions)
    requires user.id != model.id
    requires MessageIdsFresh(sessions, activeId, {user.id, model.id})
    ensures WellFormed(AppendTurn(sessions, activeId, user, model))
  {
  }

  /** Settling a card changes no id, so the list stays well-formed. */
  lemma ResolveKeepsWellFormed(sessions: seq<ChatSession>, sessionId: string, msgId: string,
                               modelId: string, result: ModelResult)
    requires WellFormed(sessions)
    ensures WellFormed(ResolveInSessions(sessions, sessionId, msgId, modelId, result))
  {
  }

  class Store {
    var sessions: seq<ChatSession>
    var current: Option<string>
    var isTyping: bool

    predicate Valid()
      reads this
    {
      WellFormed(sessions)
    }

    /** Start-up: the list read back from local storage, or nothing when the
        entry is absent, empty or fails to parse; the first stored session
        becomes current. */
    constructor (saved: Option<seq<ChatSession>>)
      ensures saved.None? ==> sessions == [] && current.None?
      ensures saved.Some? ==> sessions == saved.value
      ensures saved.Some? && |saved.value| > 0 ==> current == Some(saved.value[0].id)
      ensures saved.Some? && |saved.value| == 0 ==> current.None?
      ensures !isTyping
      ensures saved.None? || WellFormed(saved.value) ==> Valid()
    {
      sessions := [];
      current := None;
      isTyping := false;
      if saved.Some? {
        sessions := saved.value;
        if |saved.value| > 0 {
          current := Some(saved.value[0].id);
        }
      }
    }

    /** The conversation on screen. */
    function CurrentMessages(): seq<Message>
      reads this
    {
      FindMessages(sessions, current)
    }

    /** New chat: an empty "New Chat" session in front, made current. */
    method NewChat(now: nat)
      modifies this
      ensures sessions == [ChatSession(DecimalString(now), NewChatTitle, [])] + old(sessions)
      ensures current == Some(DecimalString(now))
      ensures !isTyping
      ensures CurrentMessages() == []
      ensures old(Valid()) && SessionIdFresh(old(sessions), DecimalString(now)) ==> Valid()
    {
      var id := DecimalString(now);
      var s := ChatSession(id, NewChatTitle, []);
      if Valid() && SessionIdFresh(sessions, id) {
        PrependKeepsWellFormed(sessions, s);
      }
      sessions := [s] + sessions;
      current := Some(id);
      isTyping := false;
    }

    /** Selecting a session moves the pointer only. */
    method SelectSession(id: string)
      modifies this
      ensures sessions == old(sessions)
      ensures current == Some(id)
      ensures !isTyping
    {
      current := Some(id);
      isTyping := false;
    }

    /** The synchronous part of a send: create a session when none is
        current (at clock reading sessionClock), then append the USER message
        and the MODEL message of loading cards (clock reading t) to the
        active session, and show the typing indicator. Returns the ids the
        backend calls settle against. */
    method Send(text: string, sessionClock: nat, t: nat, roster: seq<RosterModel>)
      returns (activeId: string, modelMsgId: string)
      modifies this
      ensures NoActive(old(current)) ==>
                activeId == DecimalString(sessionClock) &&
                sessions == AppendTurn([ChatSession(activeId, Title(text), [])] + old(sessions),
                                       activeId, UserMessage(text, t), PlaceholderMessage(roster, t))
      ensures !NoActive(old(current)) ==>
                activeId == old(current).value &&
                sessions == AppendTurn(old(sessions), activeId, UserMessage(text, t), PlaceholderMessage(roster, t))
      ensures current == Some(activeId)
      ensures modelMsgId == DecimalString(t + 1) && modelMsgId != DecimalString(t)
      ensures isTyping
      ensures (&& old(Valid())
               && (NoActive(old(current)) ==> SessionIdFresh(old(sessions), activeId))
               && MessageIdsFresh(old(sessions), activeId, {DecimalString(t), DecimalString(t + 1)}))
              ==> Valid()
    {
      activeId := if current.Some? then current.value else "";
      var wasValid := Valid();
      if NoActive(current) {
        var id := DecimalString(sessionClock);
        var s := ChatSession(id, Title(text), []);
        if wasValid && SessionIdFresh(sessions, id) {
          PrependKeepsWellFormed(sessions, s);
        }
        sessions := [s] + sessions;
        current := Some(id);
        activeId := id;
      }
      var user := UserMessage(text, t);
      var model := PlaceholderMessage(roster, t);
      modelMsgId := model.id;
      DecimalStringInjective(t, t + 1);
      if Valid() && MessageIdsFresh(sessions, activeId, {user.id, model.id}) {
        AppendTurnKeepsWellFormed(sessions, activeId, user, model);
      }
      sessions := AppendTurn(sessions, activeId, user, model);
      isTyping := true;
    }

    /** One backend call of a turn has settled: its card in that turn's
        message is rebuilt, wherever that session now is in the list and
        whichever session is current. */
    method Resolve(sessionId: string, msgId: string, modelId: string, result: ModelResult)
      modifies this
      ensures sessions == ResolveInSessions(old(sessions), sessionId, msgId, modelId, result)
      ensures current == old(current) && isTyping == old(isTyping)
      ensures old(Valid()) ==> Valid()
    {
      if Valid() {
        ResolveKeepsWellFormed(sessions, sessionId, msgId, modelId, result);
      }
      sessions := ResolveInSessions(sessions, sessionId, msgId, modelId, result);
    }

    /** Every call of the turn has settled: the typing indicator goes off. */
    method FinishTurn()
      modifies this
      ensures sessions == old(sessions) && current == old(current)
      ensures !isTyping
    {
      isTyping := false;
    }
  }
}
