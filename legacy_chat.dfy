/** The earlier single-conversation client: one message list streamed from
    one model. A send appends the USER message; the model's reply arrives in
    chunks, and each chunk rewrites (or first creates) one MODEL message
    holding the text received so far. */
module LegacyChat {
  import Types
  import opened Ids

  /** A message of the single-conversation client: no response cards. */
  datatype Message = Message(id: string, role: Types.Role, text: string, timestamp: int)

  datatype Part = Part(text: string)

  /** One turn of the conversation history handed to the model. */
  datatype HistoryEntry = HistoryEntry(role: string, parts: seq<Part>)

  function RoleName(role: Types.Role): string {
    if role == Types.User then "user" else "model"
  }

  /** The history sent upstream: one entry per message, same order. */
  function History(messages: seq<Message>): (h: seq<HistoryEntry>)
    ensures |h| == |messages|
    ensures forall i :: 0 <= i < |h| ==>
              (h[i].role == "user" <==> messages[i].role == Types.User) &&
              (h[i].role == "model" <==> messages[i].role == Types.Model) &&
              h[i].parts == [Part(messages[i].text)]
  {
    seq(|messages|, i requires 0 <= i < |messages| =>
      HistoryEntry(RoleName(messages[i].role), [Part(messages[i].text)]))
  }

  /** The history of a longer conversation extends the history of its start. */
  lemma HistoryAppend(a: seq<Message>, b: seq<Message>)
    ensures History(a + b) == History(a) + History(b)
  {
  }

  predicate HasId(messages: seq<Message>, id: string) {
    exists i :: 0 <= i < |messages| && messages[i].id == id
  }

  /** Number of messages with the given id. */
  function CountId(messages: seq<Message>, id: string): nat {
    if messages == [] then 0
    else CountId(messages[..|messages| - 1], id) + (if messages[|messages| - 1].id == id then 1 else 0)
  }

  /** The chunk upsert: when a message with id modelMsgId exists its text
      becomes the text so far; otherwise a MODEL message with that text is
      added at the end. */
  function Upsert(messages: seq<Message>, modelMsgId: string, text: string, now: int): (r: seq<Message>)
    ensures HasId(messages, modelMsgId) ==>
              |r| == |messages| &&
              (forall i :: 0 <= i < |r| && messages[i].id != modelMsgId ==> r[i] == messages[i]) &&
              (forall i :: 0 <= i < |r| && messages[i].id == modelMsgId ==> r[i] == messages[i].(text := text))
    ensures !HasId(messages, modelMsgId) ==>
              r == messages + [Message(modelMsgId, Types.Model, text, now)]
  {
    if HasId(messages, modelMsgId)
    then seq(|messages|, i requires 0 <= i < |messages| =>
           if messages[i].id == modelMsgId then messages[i].(text := text) else messages[i])
    else messages + [Message(modelMsgId, Types.Model, text, now)]
  }

  lemma {:induction false} CountIdZero(messages: seq<Message>, id: string)
    ensures CountId(messages, id) == 0 <==> !HasId(messages, id)
    decreases |messages|
  {
    if messages != [] {
      var init := messages[..|messages| - 1];
      CountIdZero(init, id);
      if HasId(init, id) {
        var i :| 0 <= i < |init| && init[i].id == id;
        assert messages[i].id == id;
      }
      if HasId(messages, id) && messages[|messages| - 1].id != id {
        var i :| 0 <= i < |messages| && messages[i].id == id;
        assert init[i].id == id;
      }
    }
  }

  /** A rewrite that keeps every id keeps every id's count. */
  lemma {:induction false} CountIdSameIds(a: seq<Message>, b: seq<Message>, id: string)
    requires |a| == |b| && forall i :: 0 <= i < |a| ==> a[i].id == b[i].id
    ensures CountId(a, id) == CountId(b, id)
    decreases |a|
  {
    if a != [] {
      CountIdSameIds(a[..|a| - 1], b[..|b| - 1], id);
    }
  }

  /** After an upsert exactly as many messages carry the id as before, or
      exactly one when there was none: the upsert never duplicates the
      streamed message. */
  lemma UpsertCount(messages: seq<Message>, modelMsgId: string, text: string, now: int)
    ensures CountId(Upsert(messages, modelMsgId, text, now), modelMsgId) ==
            if CountId(messages, modelMsgId) == 0 then 1 else CountId(messages, modelMsgId)
  {
    var r := Upsert(messages, modelMsgId, text, now);
    CountIdZero(messages, modelMsgId);
    if HasId(messages, modelMsgId) {
      CountIdSameIds(messages, r, modelMsgId);
    } else {
      assert r[..|r| - 1] == messages;
    }
  }

  /** After an upsert the streamed message exists and every message with its
      id shows exactly the text so far. */
  lemma UpsertShowsText(messages: seq<Message>, modelMsgId: string, text: string, now: int)
    ensures var r := Upsert(messages, modelMsgId, text, now);
            HasId(r, modelMsgId) &&
            forall i :: 0 <= i < |r| && r[i].id == modelMsgId ==> r[i].text == text
  {
    var r := Upsert(messages, modelMsgId, text, now);
    if HasId(messages, modelMsgId) {
      var i :| 0 <= i < |messages| && messages[i].id == modelMsgId;
      assert r[i].id == modelMsgId;
    } else {
      assert r[|messages|].id == modelMsgId;
    }
  }

  /** The chunks received so far, joined in arrival order. */
  function Concat(chunks: seq<string>): string {
    if chunks == [] then "" else Concat(chunks[..|chunks| - 1]) + chunks[|chunks| - 1]
  }

  /** Joining never reorders: each chunk's text is found right after the
      text of the chunks before it. */
  lemma {:induction false} ConcatAppend(a: seq<string>, b: seq<string>)
    ensures Concat(a + b) == Concat(a) + Concat(b)
    decreases |b|
  {
    if b == [] {
      assert a + b == a;
    } else {
      var b' := b[..|b| - 1];
      assert (a + b)[..|a + b| - 1] == a + b';
      ConcatAppend(a, b');
    }
  }

  /** The conversation and the typing indicator. */
  class Chat {
    var messages: seq<Message>
    var isTyping: bool

    constructor ()
      ensures messages == [] && !isTyping
    {
      messages := [];
      isTyping := false;
    }

    /** New chat: clear the conversation and the typing indicator. */
    method NewChat()
      modifies this
      ensures messages == [] && !isTyping
    {
      messages := [];
      isTyping := false;
    }

    /** The synchronous part of a send. The three clock readings mint the
        USER message's id, its timestamp and (plus one) the id of the MODEL
        message the stream will fill. The history is taken from the
        conversation as it was before this USER message. */
    method Send(text: string, idClock: nat, stampClock: nat, modelClock: nat)
      returns (stream: ChunkStream, history: seq<HistoryEntry>)
      modifies this
      ensures messages == old(messages) + [Message(DecimalString(idClock), Types.User, text, stampClock)]
      ensures isTyping
      ensures history == History(old(messages))
      ensures fresh(stream) && stream.Valid() && stream.chat == this
      ensures stream.modelMsgId == DecimalString(modelClock + 1) && stream.chunks == []
    {
      var before := messages;  // the handler's closure still sees this list
      messages := messages + [Message(DecimalString(idClock), Types.User, text, stampClock)];
      isTyping := true;
      stream := new ChunkStream(this, DecimalString(modelClock + 1));
      history := History(before);
    }

    /** The stream has ended (or failed): the typing indicator goes off. */
    method EndStream()
      modifies this
      ensures messages == old(messages) && !isTyping
    {
      isTyping := false;
    }
  }

  /** The state one send keeps for its stream: the text so far and whether
      a chunk has arrived yet. */
  class ChunkStream {
    const chat: Chat
    const modelMsgId: string
    var currentModelText: string
    var isFirstChunk: bool
    ghost var chunks: seq<string>

    /** The text so far is the received chunks joined in arrival order, and
        the first-chunk flag is set exactly while none has arrived. */
    ghost predicate Valid()
      reads this
    {
      currentModelText == Concat(chunks) && (isFirstChunk <==> chunks == [])
    }

    constructor (chat: Chat, modelMsgId: string)
      ensures Valid() && this.chat == chat && this.modelMsgId == modelMsgId && chunks == []
    {
      this.chat := chat;
      this.modelMsgId := modelMsgId;
      currentModelText := "";
      isFirstChunk := true;
      chunks := [];
    }

    /** One chunk of the reply arrives at clock reading now. */
    method OnChunk(chunk: string, now: int)
      requires Valid()
      modifies this, chat
      ensures Valid() && chunks == old(chunks) + [chunk]
      ensures currentModelText == old(currentModelText) + chunk
      ensures chat.messages == Upsert(old(chat.messages), modelMsgId, currentModelText, now)
      ensures HasId(chat.messages, modelMsgId)
      ensures forall i :: 0 <= i < |chat.messages| && chat.messages[i].id == modelMsgId ==>
                chat.messages[i].text == Concat(chunks)
      ensures CountId(old(chat.messages), modelMsgId) <= 1 ==> CountId(chat.messages, modelMsgId) == 1
      ensures chat.isTyping == (if old(isFirstChunk) then false else old(chat.isTyping))
      ensures !isFirstChunk
    {
      currentModelText := currentModelText + chunk;
      chunks := chunks + [chunk];
      assert chunks[..|chunks| - 1] == old(chunks);
      UpsertShowsText(chat.messages, modelMsgId, currentModelText, now);
      UpsertCount(chat.messages, modelMsgId, currentModelText, now);
      chat.messages := Upsert(chat.messages, modelMsgId, currentModelText, now);
      if isFirstChunk {
        chat.isTyping := false;
        isFirstChunk := false;
      }
    }
  }
}
