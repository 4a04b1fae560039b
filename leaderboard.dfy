/** The personal leaderboard: per roster model, how many battle turns it
    took part in, how many it won, and its latency, derived from every
    session's battle messages and ranked by win rate. */
module Leaderboard {
  import opened Types

  datatype ModelStats = ModelStats(
    id: string,
    name: string,
    battles: int,
    wins: int,
    winRate: real,        // percent
    totalLatency: int,    // milliseconds
    avgLatency: real)     // milliseconds

  /* ---------------------------------------------------------------------- */
  /* What the scan visits                                                    */
  /* ---------------------------------------------------------------------- */

  /** A battle turn: a MODEL message with more than one card. */
  predicate IsBattle(msg: Message) {
    msg.role == Model && msg.modelResponses.Some? && |msg.modelResponses.value| > 1
  }

  function MessageCards(msg: Message): seq<ModelResponse> {
    if IsBattle(msg) then msg.modelResponses.value else []
  }

  /** The cards of a session's battle messages, in message order. */
  function MessagesCards(msgs: seq<Message>): seq<ModelResponse> {
    if msgs == [] then [] else MessagesCards(msgs[..|msgs| - 1]) + MessageCards(msgs[|msgs| - 1])
  }

  /** Every battle card of every session, in the order the scan visits them. */
  function BattleCards(sessions: seq<ChatSession>): seq<ModelResponse> {
    if sessions == [] then []
    else BattleCards(sessions[..|sessions| - 1]) + MessagesCards(sessions[|sessions| - 1].messages)
  }

  /* ---------------------------------------------------------------------- */
  /* Counting                                                                */
  /* ---------------------------------------------------------------------- */

  /** `if (resp.latency)`: a latency counts when present and not zero. */
  predicate HasLatency(resp: ModelResponse) {
    resp.latency.Some? && resp.latency.value != 0
  }

  predicate IsWin(resp: ModelResponse) {
    resp.isWinner == Some(true)
  }

  /** Number of cards of model id. */
  function Battles(cards: seq<ModelResponse>, id: string): nat {
    if cards == [] then 0
    else Battles(cards[..|cards| - 1], id) + (if cards[|cards| - 1].modelId == id then 1 else 0)
  }

  /** Number of cards of model id that were voted the winner. */
  function Wins(cards: seq<ModelResponse>, id: string): nat {
    if cards == [] then 0
    else Wins(cards[..|cards| - 1], id) +
         (if cards[|cards| - 1].modelId == id && IsWin(cards[|cards| - 1]) then 1 else 0)
  }

  /** Sum of the present, non-zero latencies of the cards of model id. */
  function Latency(cards: seq<ModelResponse>, id: string): int {
    if cards == [] then 0
    else Latency(cards[..|cards| - 1], id) +
         (var c := cards[|cards| - 1]; if c.modelId == id && HasLatency(c) then c.latency.value else 0)
  }

  function Zero(m: RosterModel): ModelStats {
    ModelStats(m.id, m.displayName, 0, 0, 0.0, 0, 0.0)
  }

  /** The zeroed record of every roster model, keyed by model id. */
  function Seed(roster: seq<RosterModel>): map<string, ModelStats> {
    if roster == [] then map[]
    else
      var last := roster[|roster| - 1];
      Seed(roster[..|roster| - 1])[last.id := Zero(last)]
  }

  /** The seed holds a record for exactly the roster's models, each zeroed. */
  lemma {:induction false} SeedAt(roster: seq<RosterModel>)
    ensures forall k :: 0 <= k < |roster| ==> roster[k].id in Seed(roster)
    ensures forall id :: id in Seed(roster) ==> InRoster(roster, id)
    ensures DistinctRosterIds(roster) ==>
              forall k :: 0 <= k < |roster| ==> Seed(roster)[roster[k].id] == Zero(roster[k])
    decreases |roster|
  {
    if roster != [] {
      var n := |roster|;
      var init := roster[..n - 1];
      SeedAt(init);
      assert forall k :: 0 <= k < n - 1 ==> init[k] == roster[k];
      forall id | id in Seed(roster)
        ensures InRoster(roster, id)
      {
        if id != roster[n - 1].id {
          var k :| 0 <= k < |init| && init[k].id == id;
          assert roster[k].id == id;
        }
      }
    }
  }

  /** One card's contribution to its model's record. */
  function Count(stat: ModelStats, resp: ModelResponse): ModelStats {
    stat.(battles := stat.battles + 1,
          totalLatency := if HasLatency(resp) then stat.totalLatency + resp.latency.value else stat.totalLatency,
          wins := if IsWin(resp) then stat.wins + 1 else stat.wins)
  }

  /** A card of a model outside the roster changes nothing. */
  function Step(stats: map<string, ModelStats>, resp: ModelResponse): map<string, ModelStats> {
    if resp.modelId in stats then stats[resp.modelId := Count(stats[resp.modelId], resp)] else stats
  }

  /** The records after visiting the cards in order. */
  function Tally(stats: map<string, ModelStats>, cards: seq<ModelResponse>): (r: map<string, ModelStats>)
    ensures r.Keys == stats.Keys
  {
    if cards == [] then stats else Step(Tally(stats, cards[..|cards| - 1]), cards[|cards| - 1])
  }

  /** Each record ends up holding its model's card count, win count and
      latency sum, added to where it started. */
  lemma {:induction false} TallyAt(stats: map<string, ModelStats>, cards: seq<ModelResponse>, id: string)
    requires id in stats
    ensures id in Tally(stats, cards)
    ensures Tally(stats, cards)[id] ==
            stats[id].(battles := stats[id].battles + Battles(cards, id),
                       wins := stats[id].wins + Wins(cards, id),
                       totalLatency := stats[id].totalLatency + Latency(cards, id))
    decreases |cards|
  {
    if cards != [] {
      TallyAt(stats, cards[..|cards| - 1], id);
    }
  }

  lemma {:induction false} WinsAtMostBattles(cards: seq<ModelResponse>, id: string)
    ensures Wins(cards, id) <= Battles(cards, id)
    decreases |cards|
  {
    if cards != [] {
      WinsAtMostBattles(cards[..|cards| - 1], id);
    }
  }

  /* ---------------------------------------------------------------------- */
  /* Rates and ranking                                                       */
  /* ---------------------------------------------------------------------- */

  /** Win rate in percent and mean latency, both 0 for a model with no battles. */
  function Finish(stat: ModelStats): (r: ModelStats)
    ensures r.id == stat.id && r.name == stat.name && r.battles == stat.battles && r.wins == stat.wins
    ensures r.totalLatency == stat.totalLatency
    ensures stat.battles <= 0 ==> r.winRate == 0.0 && r.avgLatency == 0.0
    ensures stat.battles > 0 ==> r.winRate * (stat.battles as real) == (stat.wins as real) * 100.0
    ensures stat.battles > 0 ==> r.avgLatency * (stat.battles as real) == stat.totalLatency as real
    ensures 0 <= stat.wins <= stat.battles ==> 0.0 <= r.winRate <= 100.0
  {
    var winRate := if stat.battles > 0 then (stat.wins as real / stat.battles as real) * 100.0 else 0.0;
    var avgLatency := if stat.battles > 0 then stat.totalLatency as real / stat.battles as real else 0.0;
    stat.(winRate := winRate, avgLatency := avgLatency)
  }

  /** The comparator `b.winRate - a.winRate || b.wins - a.wins` says b goes
      strictly before a. */
  predicate Outranks(b: ModelStats, a: ModelStats) {
    b.winRate > a.winRate || (b.winRate == a.winRate && b.wins > a.wins)
  }

  /** Non-increasing by win rate, ties non-increasing by wins. */
  predicate Ranked(s: seq<ModelStats>) {
    forall i, j :: 0 <= i < j < |s| ==> !Outranks(s[j], s[i])
  }

  /** Places x before the first entry that does not outrank it. */
  function Insert(x: ModelStats, s: seq<ModelStats>): seq<ModelStats> {
    if s == [] || !Outranks(s[0], x) then [x] + s else [s[0]] + Insert(x, s[1..])
  }

  lemma {:induction false} InsertPermutes(x: ModelStats, s: seq<ModelStats>)
    ensures multiset(Insert(x, s)) == multiset(s) + multiset{x}
    decreases |s|
  {
    if s != [] && Outranks(s[0], x) {
      InsertPermutes(x, s[1..]);
      assert s == [s[0]] + s[1..];
    }
  }

  predicate NoneOutrank(s: seq<ModelStats>, y: ModelStats) {
    forall i :: 0 <= i < |s| ==> !Outranks(s[i], y)
  }

  lemma {:induction false} InsertKeepsBound(x: ModelStats, s: seq<ModelStats>, y: ModelStats)
    requires NoneOutrank(s, y) && !Outranks(x, y)
    ensures NoneOutrank(Insert(x, s), y)
    decreases |s|
  {
    if s != [] && Outranks(s[0], x) {
      InsertKeepsBound(x, s[1..], y);
    }
  }

  lemma {:induction false} InsertRanked(x: ModelStats, s: seq<ModelStats>)
    requires Ranked(s)
    ensures Ranked(Insert(x, s))
    decreases |s|
  {
    if s != [] && Outranks(s[0], x) {
      var rest := s[1..];
      InsertRanked(x, rest);
      InsertKeepsBound(x, rest, s[0]);
      var r := Insert(x, s);
      forall i, j | 0 <= i < j < |r|
        ensures !Outranks(r[j], r[i])
      {
        if i > 0 {
          assert r[i] == Insert(x, rest)[i - 1] && r[j] == Insert(x, rest)[j - 1];
        } else {
          assert r[j] == Insert(x, rest)[j - 1];
        }
      }
    }
  }

  /** Insertion sort under the comparator: a ranked permutation, stable by
      `RankStable`. */
  function Rank(s: seq<ModelStats>): (r: seq<ModelStats>)
    ensures multiset(r) == multiset(s) && |r| == |s|
    ensures Ranked(r)
  {
    if s == [] then []
    else
      var rest := Rank(s[1..]);
      InsertPermutes(s[0], rest);
      InsertRanked(s[0], rest);
      assert s == [s[0]] + s[1..];
      Insert(s[0], rest)
  }

  /** The comparator returns 0 for the pair: same win rate and same wins. */
  predicate Tied(a: ModelStats, b: ModelStats) {
    a.winRate == b.winRate && a.wins == b.wins
  }

  /** The entries tied with y, in the order they appear. */
  function TiedWith(s: seq<ModelStats>, y: ModelStats): seq<ModelStats> {
    if s == [] then [] else (if Tied(s[0], y) then [s[0]] else []) + TiedWith(s[1..], y)
  }

  /** An inserted entry goes in front of every entry it is tied with. */
  lemma {:induction false} InsertTiedWith(x: ModelStats, s: seq<ModelStats>, y: ModelStats)
    ensures TiedWith(Insert(x, s), y) == (if Tied(x, y) then [x] else []) + TiedWith(s, y)
    decreases |s|
  {
    if s == [] || !Outranks(s[0], x) {
      assert Insert(x, s)[1..] == s;
    } else {
      InsertTiedWith(x, s[1..], y);
      assert Insert(x, s)[1..] == Insert(x, s[1..]);
    }
  }

  /** `Array.prototype.sort` is stable: entries the comparator cannot tell
      apart keep the order they had in the input. */
  lemma {:induction false} RankStable(s: seq<ModelStats>, y: ModelStats)
    ensures TiedWith(Rank(s), y) == TiedWith(s, y)
    decreases |s|
  {
    if s != [] {
      RankStable(s[1..], y);
      InsertTiedWith(s[0], Rank(s[1..]), y);
    }
  }

  lemma {:induction false} TiedWithAll(s: seq<ModelStats>, y: ModelStats)
    requires forall i :: 0 <= i < |s| ==> Tied(s[i], y)
    ensures TiedWith(s, y) == s
    decreases |s|
  {
    if s != [] {
      TiedWithAll(s[1..], y);
    }
  }

  /** When every entry ties with every other, ranking keeps the input order. */
  lemma RankAllTied(s: seq<ModelStats>)
    requires forall i :: 0 <= i < |s| ==> Tied(s[i], s[0])
    ensures Rank(s) == s
  {
    if s != [] {
      var r := Rank(s);
      RankStable(s, s[0]);
      TiedWithAll(s, s[0]);
      forall i | 0 <= i < |r|
        ensures Tied(r[i], s[0])
      {
        assert r[i] in multiset(s);
      }
      TiedWithAll(r, s[0]);
    }
  }

  /* ---------------------------------------------------------------------- */
  /* The whole computation                                                   */
  /* ---------------------------------------------------------------------- */

  /** `Object.values(modelStats).map(...)`: one finished record per roster
      model, in roster order. */
  function Derive(roster: seq<RosterModel>, stats: map<string, ModelStats>): seq<ModelStats>
    requires DistinctRosterIds(roster)
    requires forall k :: 0 <= k < |roster| ==> roster[k].id in stats
  {
    seq(|roster|, k requires 0 <= k < |roster| => Finish(stats[roster[k].id]))
  }

  /** The leaderboard of the session list. */
  function Standings(roster: seq<RosterModel>, sessions: seq<ChatSession>): (r: seq<ModelStats>)
    requires DistinctRosterIds(roster)
    ensures |r| == |roster| && Ranked(r)
  {
    SeedAt(roster);
    var stats := Tally(Seed(roster), BattleCards(sessions));
    Rank(Derive(roster, stats))
  }

  /** The unranked record of the k-th roster model. */
  function Entry(roster: seq<RosterModel>, sessions: seq<ChatSession>, k: nat): ModelStats
    requires k < |roster|
  {
    var cards := BattleCards(sessions);
    var id := roster[k].id;
    Finish(ModelStats(id, roster[k].displayName, Battles(cards, id), Wins(cards, id), 0.0, Latency(cards, id), 0.0))
  }

  /** The leaderboard is a ranking of exactly one record per roster model,
      each holding that model's battle count, win count and latency sum. */
  lemma StandingsAreRankedEntries(roster: seq<RosterModel>, sessions: seq<ChatSession>)
    requires DistinctRosterIds(roster)
    ensures var r := Standings(roster, sessions);
            && |r| == |roster|
            && Ranked(r)
            && multiset(r) == multiset(seq(|roster|, k requires 0 <= k < |roster| => Entry(roster, sessions, k)))
  {
    var seed := Seed(roster);
    SeedAt(roster);
    var cards := BattleCards(sessions);
    var stats := Tally(seed, cards);
    forall k | 0 <= k < |roster|
      ensures Derive(roster, stats)[k] == Entry(roster, sessions, k)
    {
      TallyAt(seed, cards, roster[k].id);
    }
    assert Derive(roster, stats) == seq(|roster|, k requires 0 <= k < |roster| => Entry(roster, sessions, k));
  }

  /** Every record of the leaderboard has wins <= battles and a win rate
      between 0 and 100 percent. */
  lemma StandingsBounds(roster: seq<RosterModel>, sessions: seq<ChatSession>)
    requires DistinctRosterIds(roster)
    ensures forall i :: 0 <= i < |Standings(roster, sessions)| ==>
              var e := Standings(roster, sessions)[i];
              0 <= e.wins <= e.battles && 0.0 <= e.winRate <= 100.0
  {
    var entries := seq(|roster|, k requires 0 <= k < |roster| => Entry(roster, sessions, k));
    StandingsAreRankedEntries(roster, sessions);
    var r := Standings(roster, sessions);
    forall i | 0 <= i < |r|
      ensures 0 <= r[i].wins <= r[i].battles && 0.0 <= r[i].winRate <= 100.0
    {
      assert r[i] in multiset(entries);
      var k :| 0 <= k < |entries| && entries[k] == r[i];
      WinsAtMostBattles(BattleCards(sessions), roster[k].id);
    }
  }

  /** With no battle turn anywhere, every model shows 0 battles, a 0 win
      rate and a 0 average latency; nothing is divided by zero. */
  lemma NoBattlesAllZero(roster: seq<RosterModel>, sessions: seq<ChatSession>)
    requires DistinctRosterIds(roster)
    requires BattleCards(sessions) == []
    ensures forall i :: 0 <= i < |Standings(roster, sessions)| ==>
              var e := Standings(roster, sessions)[i];
              e.battles == 0 && e.wins == 0 && e.winRate == 0.0 && e.avgLatency == 0.0
  {
    var entries := seq(|roster|, k requires 0 <= k < |roster| => Entry(roster, sessions, k));
    StandingsAreRankedEntries(roster, sessions);
    var r := Standings(roster, sessions);
    forall i | 0 <= i < |r|
      ensures r[i].battles == 0 && r[i].wins == 0 && r[i].winRate == 0.0 && r[i].avgLatency == 0.0
    {
      assert r[i] in multiset(entries);
    }
  }

  /** With no battle turn anywhere, the ranking keeps the roster order and
      every model shows its zeroed record. */
  lemma NoBattlesRosterOrder(roster: seq<RosterModel>, sessions: seq<ChatSession>)
    requires DistinctRosterIds(roster)
    requires BattleCards(sessions) == []
    ensures Standings(roster, sessions) ==
            seq(|roster|, k requires 0 <= k < |roster| => Finish(Zero(roster[k])))
  {
    SeedAt(roster);
    var d := Derive(roster, Tally(Seed(roster), BattleCards(sessions)));
    assert d == seq(|roster|, k requires 0 <= k < |roster| => Finish(Zero(roster[k])));
    RankAllTied(d);
  }

  /* ---------------------------------------------------------------------- */
  /* Only battle turns count                                                 */
  /* ---------------------------------------------------------------------- */

  function BattlesOnly(msgs: seq<Message>): seq<Message> {
    if msgs == [] then []
    else BattlesOnly(msgs[..|msgs| - 1]) + (if IsBattle(msgs[|msgs| - 1]) then [msgs[|msgs| - 1]] else [])
  }

  /** The sessions with every non-battle message (USER messages, MODEL
      messages with zero or one card) removed. */
  function KeepBattles(sessions: seq<ChatSession>): seq<ChatSession> {
    seq(|sessions|, i requires 0 <= i < |sessions| =>
      sessions[i].(messages := BattlesOnly(sessions[i].messages)))
  }

  lemma {:induction false} MessagesCardsAppend(a: seq<Message>, b: seq<Message>)
    ensures MessagesCards(a + b) == MessagesCards(a) + MessagesCards(b)
    decreases |b|
  {
    if b == [] {
      assert a + b == a;
    } else {
      var b' := b[..|b| - 1];
      assert (a + b)[..|a + b| - 1] == a + b';
      MessagesCardsAppend(a, b');
    }
  }

  lemma {:induction false} BattlesOnlySameCards(msgs: seq<Message>)
    ensures MessagesCards(BattlesOnly(msgs)) == MessagesCards(msgs)
    decreases |msgs|
  {
    if msgs != [] {
      var init := msgs[..|msgs| - 1];
      var last := msgs[|msgs| - 1];
      BattlesOnlySameCards(init);
      var tail := if IsBattle(last) then [last] else [];
      MessagesCardsAppend(BattlesOnly(init), tail);
      if IsBattle(last) {
        assert tail[..0] == [];
        assert MessagesCards(tail) == MessageCards(last);
      }
    }
  }

  lemma {:induction false} KeepBattlesSameCards(sessions: seq<ChatSession>)
    ensures BattleCards(KeepBattles(sessions)) == BattleCards(sessions)
    decreases |sessions|
  {
    if sessions != [] {
      var init := sessions[..|sessions| - 1];
      KeepBattlesSameCards(init);
      var kept := KeepBattles(sessions);
      assert kept[..|kept| - 1] == KeepBattles(init);
      BattlesOnlySameCards(sessions[|sessions| - 1].messages);
    }
  }

  /** Messages that are not battle turns contribute nothing: dropping them
      all leaves the leaderboard unchanged. */
  lemma NonBattleMessagesIgnored(roster: seq<RosterModel>, sessions: seq<ChatSession>)
    requires DistinctRosterIds(roster)
    ensures Standings(roster, KeepBattles(sessions)) == Standings(roster, sessions)
  {
    KeepBattlesSameCards(sessions);
  }

  /* ---------------------------------------------------------------------- */
  /* The scan as the component runs it                                       */
  /* ---------------------------------------------------------------------- */

  lemma {:induction false} TallyAppend(stats: map<string, ModelStats>, a: seq<ModelResponse>, b: seq<ModelResponse>)
    ensures Tally(stats, a + b) == Tally(Tally(stats, a), b)
    decreases |b|
  {
    if b == [] {
      assert a + b == a;
    } else {
      var b' := b[..|b| - 1];
      assert (a + b)[..|a + b| - 1] == a + b';
      TallyAppend(stats, a, b');
    }
  }

  /** `BATTLE_MODELS.forEach(...)`: one zeroed record per roster model. */
  method SeedStats(roster: seq<RosterModel>) returns (modelStats: map<string, ModelStats>)
    ensures modelStats == Seed(roster)
    ensures forall k :: 0 <= k < |roster| ==> roster[k].id in modelStats
    ensures DistinctRosterIds(roster) ==>
              forall k :: 0 <= k < |roster| ==> modelStats[roster[k].id] == Zero(roster[k])
  {
    modelStats := map[];
    for k := 0 to |roster|
      invariant modelStats == Seed(roster[..k])
    {
      assert roster[..k + 1][..k] == roster[..k];
      modelStats := modelStats[roster[k].id := Zero(roster[k])];
    }
    assert roster[..|roster|] == roster;
    SeedAt(roster);
  }

  /** `msg.modelResponses.forEach(...)`: counts one battle message's cards
      into the records of roster models, skipping other models. */
  method ScanCards(stats: map<string, ModelStats>, resps: seq<ModelResponse>)
    returns (modelStats: map<string, ModelStats>)
    ensures modelStats == Tally(stats, resps)
    ensures modelStats.Keys == stats.Keys
  {
    modelStats := stats;
    for k := 0 to |resps|
      invariant modelStats == Tally(stats, resps[..k])
    {
      var resp := resps[k];
      assert resps[..k + 1][..k] == resps[..k];
      if resp.modelId in modelStats {
        var stat := modelStats[resp.modelId];
        stat := stat.(battles := stat.battles + 1);
        if resp.latency.Some? && resp.latency.value != 0 {
          stat := stat.(totalLatency := stat.totalLatency + resp.latency.value);
        }
        if resp.isWinner == Some(true) {
          stat := stat.(wins := stat.wins + 1);
        }
        modelStats := modelStats[resp.modelId := stat];
      }
    }
    assert resps[..|resps|] == resps;
  }

  /** `session.messages.forEach(...)`: only MODEL messages with more than
      one card are scanned. */
  method ScanSession(stats: map<string, ModelStats>, msgs: seq<Message>)
    returns (modelStats: map<string, ModelStats>)
    ensures modelStats == Tally(stats, MessagesCards(msgs))
    ensures modelStats.Keys == stats.Keys
  {
    modelStats := stats;
    for j := 0 to |msgs|
      invariant modelStats == Tally(stats, MessagesCards(msgs[..j]))
    {
      var msg := msgs[j];
      assert msgs[..j + 1][..j] == msgs[..j];
      TallyAppend(stats, MessagesCards(msgs[..j]), MessageCards(msg));
      if msg.role == Model && msg.modelResponses.Some? && |msg.modelResponses.value| > 1 {
        modelStats := ScanCards(modelStats, msg.modelResponses.value);
      } else {
        assert MessagesCards(msgs[..j]) + MessageCards(msg) == MessagesCards(msgs[..j]);
      }
    }
    assert msgs[..|msgs|] == msgs;
  }

  /** Seeds a record per roster model, scans every session, then derives
      the rates and ranks the records. */
  method ComputeStats(roster: seq<RosterModel>, sessions: seq<ChatSession>) returns (r: seq<ModelStats>)
    requires DistinctRosterIds(roster)
    ensures r == Standings(roster, sessions)
    ensures |r| == |roster| && Ranked(r)
  {
    var modelStats := SeedStats(roster);
    ghost var seed := modelStats;
    for i := 0 to |sessions|
      invariant modelStats == Tally(seed, BattleCards(sessions[..i]))
    {
      assert sessions[..i + 1][..i] == sessions[..i];
      TallyAppend(seed, BattleCards(sessions[..i]), MessagesCards(sessions[i].messages));
      modelStats := ScanSession(modelStats, sessions[i].messages);
    }
    assert sessions[..|sessions|] == sessions;
    r := Rank(Derive(roster, modelStats));
  }
}
