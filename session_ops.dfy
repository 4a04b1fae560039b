/** The pure state transformations of the battle-mode session store: each
    handler replaces the whole session list by a new one in which exactly the
    targeted session, message or response card is rebuilt, and everything
    else is the same value as before. */
module SessionOps {
  import opened Types
  import opened Ids

  const NewChatTitle: string := "New Chat"
  const TitleLimit: nat := 30
  const Ellipsis: string := "..."

  function Min(a: nat, b: nat): nat {
    if a <= b then a else b
  }

  /* ---------------------------------------------------------------------- */
  /* Reading the current conversation                                        */
  /* ---------------------------------------------------------------------- */

  /** The messages of the first session whose id is the current pointer, or
      no messages when the pointer is empty or names no session. */
  function FindMessages(sessions: seq<ChatSession>, current: Option<string>): (r: seq<Message>)
    ensures (forall i :: 0 <= i < |sessions| ==> Some(sessions[i].id) != current) ==> r == []
    ensures forall i :: 0 <= i < |sessions| && Some(sessions[i].id) == current &&
                        (forall j :: 0 <= j < i ==> Some(sessions[j].id) != current) ==>
                        r == sessions[i].messages
  {
    if sessions == [] then []
    else if Some(sessions[0].id) == current then sessions[0].messages
    else FindMessages(sessions[1..], current)
  }

  /* ---------------------------------------------------------------------- */
  /* Starting a turn                                                         */
  /* ---------------------------------------------------------------------- */

  /** The title of a session created by a send: the first thirty characters
      of the text, followed by an ellipsis exactly when something was cut. */
  function Title(text: string): (r: string)
    ensures |r| <= TitleLimit + |Ellipsis|
    ensures |text| <= TitleLimit ==> r == text
    ensures |text| > TitleLimit ==>
              |r| == TitleLimit + |Ellipsis| && r[..TitleLimit] == text[..TitleLimit] &&
              r[TitleLimit..] == Ellipsis
  {
    text[..Min(|text|, TitleLimit)] + (if |text| > TitleLimit then Ellipsis else "")
  }

  function Placeholder(m: RosterModel): ModelResponse {
    ModelResponse(m.id, m.displayName, "", None, Some(true), None, None)
  }

  /** One loading card per roster model, in roster order. */
  function Placeholders(roster: seq<RosterModel>): (r: seq<ModelResponse>)
    ensures |r| == |roster|
    ensures forall k :: 0 <= k < |r| ==>
              r[k].modelId == roster[k].id && r[k].displayName == roster[k].displayName &&
              r[k].text == "" && r[k].isLoading == Some(true) &&
              r[k].error.None? && r[k].latency.None? && r[k].isWinner.None?
  {
    if roster == [] then [] else [Placeholder(roster[0])] + Placeholders(roster[1..])
  }

  /** The USER message of a turn started at clock reading t. */
  function UserMessage(text: string, t: nat): Message {
    Message(DecimalString(t), User, text, t, None)
  }

  /** The MODEL message of a turn started at clock reading t: id and
      timestamp t + 1, empty text, one loading card per roster model. */
  function PlaceholderMessage(roster: seq<RosterModel>, t: nat): Message {
    Message(DecimalString(t + 1), Model, "", t + 1, Some(Placeholders(roster)))
  }

  /** Appends the two messages of a turn to the end of the session with id
      activeId; every other session is left as it was. */
  function AppendTurn(sessions: seq<ChatSession>, activeId: string, user: Message, model: Message)
    : (r: seq<ChatSession>)
    ensures |r| == |sessions|
    ensures forall i :: 0 <= i < |r| ==> r[i].id == sessions[i].id && r[i].title == sessions[i].title
    ensures forall i :: 0 <= i < |r| && sessions[i].id != activeId ==> r[i] == sessions[i]
    ensures forall i :: 0 <= i < |r| && sessions[i].id == activeId ==>
              |r[i].messages| == |sessions[i].messages| + 2 &&
              r[i].messages[..|sessions[i].messages|] == sessions[i].messages &&
              r[i].messages[|sessions[i].messages|] == user &&
              r[i].messages[|sessions[i].messages| + 1] == model
  {
    seq(|sessions|, i requires 0 <= i < |sessions| =>
      if sessions[i].id == activeId
      then sessions[i].(messages := sessions[i].messages + [user, model])
      else sessions[i])
  }

  /* ---------------------------------------------------------------------- */
  /* Settling one model's card                                               */
  /* ---------------------------------------------------------------------- */

  /** `result.text || ''` */
  function ResultText(result: ModelResult): string {
    match result
    case Answer(text) => text
    case Failure(_) => ""
  }

  /** `result.error` */
  function ResultError(result: ModelResult): Option<string> {
    match result
    case Answer(_) => None
    case Failure(message) => Some(message)
  }

  /** A card after its backend call settled: no longer loading, carrying
      either the answer or the error, with identity, latency and vote kept. */
  function Resolved(resp: ModelResponse, result: ModelResult): (r: ModelResponse)
    ensures r.modelId == resp.modelId && r.displayName == resp.displayName
    ensures r.latency == resp.latency && r.isWinner == resp.isWinner
    ensures r.isLoading == Some(false)
    ensures result.Answer? ==> r.text == result.text && r.error.None?
    ensures result.Failure? ==> r.text == "" && r.error == Some(result.message)
  {
    resp.(isLoading := Some(false), text := ResultText(result), error := ResultError(result))
  }

  /** Settles the cards of one model; its siblings are untouched. */
  function ReplaceResponse(resps: seq<ModelResponse>, modelId: string, result: ModelResult)
    : (r: seq<ModelResponse>)
    ensures |r| == |resps|
    ensures forall k :: 0 <= k < |r| ==> r[k].modelId == resps[k].modelId
    ensures forall k :: 0 <= k < |r| && resps[k].modelId != modelId ==> r[k] == resps[k]
    ensures forall k :: 0 <= k < |r| && resps[k].modelId == modelId ==> r[k] == Resolved(resps[k], result)
  {
    seq(|resps|, k requires 0 <= k < |resps| =>
      if resps[k].modelId == modelId then Resolved(resps[k], result) else resps[k])
  }

  /** Whether the message is one a resolution for msgId applies to. */
  predicate IsTarget(msg: Message, msgId: string) {
    msg.id == msgId && msg.modelResponses.Some?
  }

  function ResolveInMessage(msg: Message, msgId: string, modelId: string, result: ModelResult): Message {
    if IsTarget(msg, msgId)
    then msg.(modelResponses := Some(ReplaceResponse(msg.modelResponses.value, modelId, result)))
    else msg
  }

  /** Rebuilds the messages of one session: only a message with id msgId
      that has response cards changes, and in it only the cards of modelId. */
  function ResolveInMessages(msgs: seq<Message>, msgId: string, modelId: string, result: ModelResult)
    : (r: seq<Message>)
    ensures |r| == |msgs|
    ensures forall j :: 0 <= j < |r| ==>
              r[j].id == msgs[j].id && r[j].role == msgs[j].role && r[j].text == msgs[j].text &&
              r[j].timestamp == msgs[j].timestamp &&
              r[j].modelResponses.Some? == msgs[j].modelResponses.Some?
    ensures forall j :: 0 <= j < |r| && !IsTarget(msgs[j], msgId) ==> r[j] == msgs[j]
    ensures forall j :: 0 <= j < |r| && IsTarget(msgs[j], msgId) ==>
              r[j].modelResponses == Some(ReplaceResponse(msgs[j].modelResponses.value, modelId, result))
  {
    seq(|msgs|, j requires 0 <= j < |msgs| => ResolveInMessage(msgs[j], msgId, modelId, result))
  }

  function ResolveInSession(s: ChatSession, sessionId: string, msgId: string, modelId: string,
                            result: ModelResult): ChatSession
  {
    if s.id == sessionId then s.(messages := ResolveInMessages(s.messages, msgId, modelId, result)) else s
  }

  /** The whole-list replace a settled backend call commits: only the session
      with id sessionId is rebuilt, keeping its id, title and message count. */
  function ResolveInSessions(sessions: seq<ChatSession>, sessionId: string, msgId: string,
                             modelId: string, result: ModelResult): (r: seq<ChatSession>)
    ensures |r| == |sessions|
    ensures forall i :: 0 <= i < |r| ==>
              r[i].id == sessions[i].id && r[i].title == sessions[i].title &&
              |r[i].messages| == |sessions[i].messages|
    ensures forall i :: 0 <= i < |r| && sessions[i].id != sessionId ==> r[i] == sessions[i]
    ensures forall i :: 0 <= i < |r| && sessions[i].id == sessionId ==>
              r[i].messages == ResolveInMessages(sessions[i].messages, msgId, modelId, result)
  {
    seq(|sessions|, i requires 0 <= i < |sessions| =>
      ResolveInSession(sessions[i], sessionId, msgId, modelId, result))
  }

  /* ---------------------------------------------------------------------- */
  /* Properties of settling                                                  */
  /* ---------------------------------------------------------------------- */

  /** Whether some card of modelId sits in a message with id msgId (having
      cards) of a session with id sessionId. */
  predicate Targets(sessions: seq<ChatSession>, sessionId: string, msgId: string, modelId: string) {
    exists i, j, k :: 0 <= i < |sessions| && sessions[i].id == sessionId &&
      0 <= j < |sessions[i].messages| && IsTarget(sessions[i].messages[j], msgId) &&
      0 <= k < |sessions[i].messages[j].modelResponses.value| &&
      sessions[i].messages[j].modelResponses.value[k].modelId == modelId
  }

  /** A result whose session, message or card no longer exists (or whose
      message has no cards) is absorbed: the list stays exactly the same. */
  lemma StaleResolveIsNoOp(sessions: seq<ChatSession>, sessionId: string, msgId: string,
                           modelId: string, result: ModelResult)
    requires !Targets(sessions, sessionId, msgId, modelId)
    ensures ResolveInSessions(sessions, sessionId, msgId, modelId, result) == sessions
  {
    var r := ResolveInSessions(sessions, sessionId, msgId, modelId, result);
    forall i | 0 <= i < |sessions|
      ensures r[i] == sessions[i]
    {
      if sessions[i].id == sessionId {
        var msgs := sessions[i].messages;
        var rm := ResolveInMessages(msgs, msgId, modelId, result);
        forall j | 0 <= j < |msgs|
          ensures rm[j] == msgs[j]
        {
          if IsTarget(msgs[j], msgId) {
            var resps := msgs[j].modelResponses.value;
            var rr := ReplaceResponse(resps, modelId, result);
            forall k | 0 <= k < |resps|
              ensures rr[k] == resps[k]
            {
              assert sessions[i].messages[j].modelResponses.value[k] == resps[k];
            }
            assert rr == resps;
          }
        }
        assert rm == msgs;
      }
    }
  }

  /** Corollary used by the store: resolving against a message id that is
      absent from the session leaves the list unchanged. */
  lemma AbsentMessageIsNoOp(sessions: seq<ChatSession>, sessionId: string, msgId: string,
                            modelId: string, result: ModelResult)
    requires forall i, j ::
               0 <= i < |sessions| && sessions[i].id == sessionId && 0 <= j < |sessions[i].messages| ==>
               sessions[i].messages[j].id != msgId
    ensures ResolveInSessions(sessions, sessionId, msgId, modelId, result) == sessions
  {
    StaleResolveIsNoOp(sessions, sessionId, msgId, modelId, result);
  }

  lemma ReplaceResponseCommutes(resps: seq<ModelResponse>, a: string, ra: ModelResult,
                                b: string, rb: ModelResult)
    requires a != b
    ensures ReplaceResponse(ReplaceResponse(resps, a, ra), b, rb) ==
            ReplaceResponse(ReplaceResponse(resps, b, rb), a, ra)
  {
  }

  lemma ResolveInMessagesCommutes(msgs: seq<Message>, m1: string, a: string, ra: ModelResult,
                                  m2: string, b: string, rb: ModelResult)
    requires m1 != m2 || a != b
    ensures ResolveInMessages(ResolveInMessages(msgs, m1, a, ra), m2, b, rb) ==
            ResolveInMessages(ResolveInMessages(msgs, m2, b, rb), m1, a, ra)
  {
    var x := ResolveInMessages(ResolveInMessages(msgs, m1, a, ra), m2, b, rb);
    var y := ResolveInMessages(ResolveInMessages(msgs, m2, b, rb), m1, a, ra);
    forall j | 0 <= j < |msgs|
      ensures x[j] == y[j]
    {
      if IsTarget(msgs[j], m1) && IsTarget(msgs[j], m2) {
        ReplaceResponseCommutes(msgs[j].modelResponses.value, a, ra, b, rb);
      }
    }
  }

  /** Two settled calls of one turn (or of different turns) give the same
      list whichever of them is committed first, as long as they are not
      for the same card; so the fan-out's results may arrive in any order. */
  lemma ResolveCommutes(sessions: seq<ChatSession>,
                        s1: string, m1: string, a: string, ra: ModelResult,
                        s2: string, m2: string, b: string, rb: ModelResult)
    requires s1 != s2 || m1 != m2 || a != b
    ensures ResolveInSessions(ResolveInSessions(sessions, s1, m1, a, ra), s2, m2, b, rb) ==
            ResolveInSessions(ResolveInSessions(sessions, s2, m2, b, rb), s1, m1, a, ra)
  {
    var x := ResolveInSessions(ResolveInSessions(sessions, s1, m1, a, ra), s2, m2, b, rb);
    var y := ResolveInSessions(ResolveInSessions(sessions, s2, m2, b, rb), s1, m1, a, ra);
    forall i | 0 <= i < |sessions|
      ensures x[i] == y[i]
    {
      if sessions[i].id == s1 && sessions[i].id == s2 {
        ResolveInMessagesCommutes(sessions[i].messages, m1, a, ra, m2, b, rb);
      }
    }
  }

  /** Committing the same settled call twice is the same as committing it once. */
  lemma ResolveIdempotent(sessions: seq<ChatSession>, sessionId: string, msgId: string,
                          modelId: string, result: ModelResult)
    ensures var once := ResolveInSessions(sessions, sessionId, msgId, modelId, result);
            ResolveInSessions(once, sessionId, msgId, modelId, result) == once
  {
    var once := ResolveInSessions(sessions, sessionId, msgId, modelId, result);
    var twice := ResolveInSessions(once, sessionId, msgId, modelId, result);
    forall i | 0 <= i < |sessions| && sessions[i].id == sessionId
      ensures twice[i] == once[i]
    {
      var msgs := once[i].messages;
      forall j | 0 <= j < |msgs| && IsTarget(msgs[j], msgId)
        ensures ResolveInMessages(msgs, msgId, modelId, result)[j] == msgs[j]
      {
        var resps := msgs[j].modelResponses.value;
        assert ReplaceResponse(resps, modelId, result) == resps;
      }
      assert ResolveInMessages(msgs, msgId, modelId, result) == msgs;
    }
  }

  /* ---------------------------------------------------------------------- */
  /* All the calls of a turn                                                 */
  /* ---------------------------------------------------------------------- */

  /** Commits settled calls to a card list in the order they arrive. */
  function ResolveEach(resps: seq<ModelResponse>, results: seq<(string, ModelResult)>)
    : seq<ModelResponse>
    decreases |results|
  {
    if results == [] then resps
    else ResolveEach(ReplaceResponse(resps, results[0].0, results[0].1), results[1..])
  }

  predicate DistinctResultIds(results: seq<(string, ModelResult)>) {
    forall p, q :: 0 <= p < q < |results| ==> results[p].0 != results[q].0
  }

  /** With one result per model, each card ends up settled by its own
      model's result, and a card whose model sent nothing is unchanged. */
  lemma {:induction false} ResolveEachCards(resps: seq<ModelResponse>, results: seq<(string, ModelResult)>)
    requires DistinctResultIds(results)
    ensures |ResolveEach(resps, results)| == |resps|
    ensures forall k, p :: 0 <= k < |resps| && 0 <= p < |results| && results[p].0 == resps[k].modelId ==>
              ResolveEach(resps, results)[k] == Resolved(resps[k], results[p].1)
    ensures forall k :: 0 <= k < |resps| && (forall p :: 0 <= p < |results| ==> results[p].0 != resps[k].modelId) ==>
              ResolveEach(resps, results)[k] == resps[k]
    decreases |results|
  {
    if results != [] {
      var first := ReplaceResponse(resps, results[0].0, results[0].1);
      var rest := results[1..];
      ResolveEachCards(first, rest);
      forall k, p | 0 <= k < |resps| && 0 <= p < |results| && results[p].0 == resps[k].modelId
        ensures ResolveEach(resps, results)[k] == Resolved(resps[k], results[p].1)
      {
        if p == 0 {
          forall q | 0 <= q < |rest|
            ensures rest[q].0 != first[k].modelId
          {
            assert rest[q] == results[q + 1];
          }
        } else {
          assert rest[p - 1] == results[p];
        }
      }
      forall k | 0 <= k < |resps| && (forall p :: 0 <= p < |results| ==> results[p].0 != resps[k].modelId)
        ensures ResolveEach(resps, results)[k] == resps[k]
      {
        forall q | 0 <= q < |rest|
          ensures rest[q].0 != first[k].modelId
        {
          assert rest[q] == results[q + 1];
        }
      }
    }
  }

  /** Some result in results is for model id. */
  predicate Reported(results: seq<(string, ModelResult)>, id: string) {
    exists p :: 0 <= p < |results| && results[p].0 == id
  }

  /** Once every model of the turn has reported, no card is loading. */
  lemma ResolveEachSettles(resps: seq<ModelResponse>, results: seq<(string, ModelResult)>)
    requires DistinctResultIds(results)
    requires forall k :: 0 <= k < |resps| ==> Reported(results, resps[k].modelId)
    ensures forall k :: 0 <= k < |ResolveEach(resps, results)| ==>
              ResolveEach(resps, results)[k].isLoading == Some(false)
  {
    ResolveEachCards(resps, results);
  }

  /** The cards after all results are in do not depend on the order in
      which the results arrived. */
  lemma ResolveEachOrderIndependent(resps: seq<ModelResponse>,
                                    xs: seq<(string, ModelResult)>, ys: seq<(string, ModelResult)>)
    requires DistinctResultIds(xs) && multiset(xs) == multiset(ys)
    ensures ResolveEach(resps, xs) == ResolveEach(resps, ys)
  {
    assert |xs| == |multiset(xs)| == |multiset(ys)| == |ys|;
    assert DistinctResultIds(ys) by {
      forall p, q | 0 <= p < q < |ys|
        ensures ys[p].0 != ys[q].0
      {
        if ys[p].0 == ys[q].0 {
          assert ys[p] in multiset(xs) && ys[q] in multiset(xs);
          var p', q' :| 0 <= p' < |xs| && xs[p'] == ys[p] && 0 <= q' < |xs| && xs[q'] == ys[q];
          if p' == q' {
            // ys holds the same pair twice, but xs holds it once
            assert ys[p] == ys[q];
            assert multiset(ys)[ys[p]] >= 2 by {
              assert ys == ys[..p] + [ys[p]] + ys[p + 1..q] + [ys[q]] + ys[q + 1..];
            }
            MultiplicityAtMostOne(xs, ys[p]);
            assert false;
          }
        }
      }
    }
    ResolveEachCards(resps, xs);
    ResolveEachCards(resps, ys);
    var x := ResolveEach(resps, xs);
    var y := ResolveEach(resps, ys);
    forall k | 0 <= k < |resps|
      ensures x[k] == y[k]
    {
      if p :| 0 <= p < |xs| && xs[p].0 == resps[k].modelId {
        assert xs[p] in multiset(ys);
        var q :| 0 <= q < |ys| && ys[q] == xs[p];
      } else {
        forall q | 0 <= q < |ys|
          ensures ys[q].0 != resps[k].modelId
        {
          assert ys[q] in multiset(xs);
        }
      }
    }
  }

  /** Commits a turn's settled calls to the session list in arrival order,
      one whole-list replace per call. */
  function ResolveAll(sessions: seq<ChatSession>, sessionId: string, msgId: string,
                      results: seq<(string, ModelResult)>): (r: seq<ChatSession>)
    ensures |r| == |sessions|
    ensures forall i :: 0 <= i < |r| ==>
              r[i].id == sessions[i].id && |r[i].messages| == |sessions[i].messages|
    ensures forall i, j :: 0 <= i < |r| && 0 <= j < |r[i].messages| ==>
              r[i].messages[j].id == sessions[i].messages[j].id &&
              r[i].messages[j].modelResponses.Some? == sessions[i].messages[j].modelResponses.Some?
    decreases |results|
  {
    if results == [] then sessions
    else ResolveAll(ResolveInSessions(sessions, sessionId, msgId, results[0].0, results[0].1),
                    sessionId, msgId, results[1..])
  }

  /** Committing the calls one by one to the list does to the target
      message's cards exactly what `ResolveEach` does to that card list; every
      other message and every other session stays as it was. */
  lemma {:induction false} ResolveAllIsResolveEach(sessions: seq<ChatSession>, sessionId: string, msgId: string,
                                                   results: seq<(string, ModelResult)>)
    ensures var r := ResolveAll(sessions, sessionId, msgId, results);
            && (forall i :: 0 <= i < |r| && sessions[i].id != sessionId ==> r[i] == sessions[i])
            && (forall i, j ::
                  (0 <= i < |r| && sessions[i].id == sessionId && 0 <= j < |r[i].messages| &&
                   !IsTarget(sessions[i].messages[j], msgId)) ==>
                  r[i].messages[j] == sessions[i].messages[j])
            && (forall i, j ::
                  (0 <= i < |r| && sessions[i].id == sessionId && 0 <= j < |r[i].messages| &&
                   IsTarget(sessions[i].messages[j], msgId)) ==>
                  r[i].messages[j].modelResponses ==
                  Some(ResolveEach(sessions[i].messages[j].modelResponses.value, results)))
    decreases |results|
  {
    if results != [] {
      var next := ResolveInSessions(sessions, sessionId, msgId, results[0].0, results[0].1);
      ResolveAllIsResolveEach(next, sessionId, msgId, results[1..]);
    }
  }

  /** Once every model with a card in the turn's MODEL message has reported,
      once each, no card of that message is loading, whatever the order of
      arrival. */
  lemma TurnSettles(sessions: seq<ChatSession>, sessionId: string, msgId: string,
                    results: seq<(string, ModelResult)>, i: nat, j: nat)
    requires DistinctResultIds(results)
    requires i < |sessions| && sessions[i].id == sessionId
    requires j < |sessions[i].messages| && IsTarget(sessions[i].messages[j], msgId)
    requires forall k :: 0 <= k < |sessions[i].messages[j].modelResponses.value| ==>
               Reported(results, sessions[i].messages[j].modelResponses.value[k].modelId)
    ensures var cards := ResolveAll(sessions, sessionId, msgId, results)[i].messages[j].modelResponses.value;
            forall k :: 0 <= k < |cards| ==> cards[k].isLoading == Some(false)
  {
    ResolveEachSettles(sessions[i].messages[j].modelResponses.value, results);
    ResolveAllIsResolveEach(sessions, sessionId, msgId, results);
  }

  lemma {:induction false} MultiplicityAtMostOne(xs: seq<(string, ModelResult)>, x: (string, ModelResult))
    requires DistinctResultIds(xs)
    ensures multiset(xs)[x] <= 1
    decreases |xs|
  {
    if xs != [] {
      var rest := xs[1..];
      assert xs == [xs[0]] + rest;
      assert DistinctResultIds(rest) by {
        forall p, q | 0 <= p < q < |rest| ensures rest[p].0 != rest[q].0 {
          assert rest[p] == xs[p + 1] && rest[q] == xs[q + 1];
        }
      }
      MultiplicityAtMostOne(rest, x);
      if xs[0] == x {
        forall q | 0 <= q < |rest|
          ensures rest[q] != x
        {
          assert rest[q] == xs[q + 1];
        }
        assert x !in multiset(rest);
      }
    }
  }
}
