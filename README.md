# AiBattle client state, modelled in Dafny

AiBattle is a browser chat client that sends one prompt to a roster of
models at once ("battle mode") and shows their answers side by side. This
project models the part of the client with behaviour worth stating, and proves properties of that model:

- **The session store of the battle client** (`src/App.tsx`). It holds the list of chat
  sessions, the current-session pointer and the typing indicator. It also has the
  handlers for new chat, select session and send. A send may create a session
  titled from the text. It appends a USER message and a MODEL message holding one
  loading card per roster model. Each backend call later settles its own card
  through a whole-list replace. Modules `SessionOps` (the pure replace
  functions) and `SessionStore` (class `Store` with the handlers).
- **The personal leaderboard** (`src/components/Leaderboard.tsx`). It seeds a zeroed
  record per roster model and scans every battle message, counting battles, wins and
  latency. Then it derives the win rate and the average latency, and ranks by win
  rate, then by wins. Module `Leaderboard`: an imperative scan
  (`ComputeStats`, `ScanSession`, `ScanCards`) proved equal to a fold
  (`Tally`), a stable insertion sort (`Rank`), and lemmas about the result.
  The roster's ids are distinct, which `Standings` and `ComputeStats` require.
- **The earlier single-conversation client** (`App.tsx`). New chat clears the list, and
  a send appends the USER message. The streamed reply is accumulated chunk by
  chunk and upserted as one MODEL message. Module `LegacyChat`: classes
  `Chat` and `ChunkStream` (the per-send closure state).
- The records of `src/types.ts` and `types.ts` are datatypes in `Types` and
  `LegacyChat`. Optional fields become `Option`. The backend's
  `{text}`/`{error}` result is `ModelResult`. The roster `BATTLE_MODELS` is a
  parameter `seq<RosterModel>`.
- Ids are `Date.now().toString()`. `Ids.DecimalString` writes a clock reading in decimal. Clock
  readings are parameters of the operations that mint ids.

The model follows the code in these points:

- Selecting a session sets the pointer even to an id that is not in the list.
- Settling a card does not set `latency`.
- A session's title is set only when a send creates the session.
- `!activeSessionId` treats the empty string like null (`SessionStore.NoActive`).

## Model

| member | source | states |
|---|---|---|
| `Ids.DecimalString` | src/App.tsx:61 | an id is a non-empty string of decimal digits without a leading zero, one digit exactly for readings below 10 |
| `Ids.ParseDecimalString` | src/App.tsx:93-95 | reading an id back as a number gives the clock reading that minted it |
| `Ids.DecimalStringInjective` | src/App.tsx:93-95 | different clock readings mint different ids, so a turn's USER id (t) and MODEL id (t + 1) differ |
| `SessionOps.FindMessages` | src/App.tsx:55-58 | the messages of the first session whose id equals the current pointer; empty when no session matches or no pointer is set |
| `SessionStore.Store.CurrentMessages` | src/App.tsx:54-57 | defined as `FindMessages` of the store's list and pointer: the conversation on screen |
| `SessionOps.Title` | src/App.tsx:85 | the title is the text when it has at most 30 characters; otherwise its first 30 characters followed by "..."; never longer than 33 |
| `SessionOps.Placeholders` | src/App.tsx:106-111 | one card per roster model in roster order, with that model's id and display name, empty text, loading, and no error, latency or vote |
| `SessionOps.UserMessage` | src/App.tsx:92-103 | defined as the USER message of a turn at clock reading t: id the decimal reading, the text, timestamp t, no cards |
| `SessionOps.PlaceholderMessage` | src/App.tsx:95-119 | defined as the MODEL message of a turn at clock reading t: id and timestamp t + 1, empty text, the roster's loading cards |
| `SessionOps.AppendTurn` | src/App.tsx:121-129 | the active session gets exactly the USER then the MODEL message appended after its unchanged earlier messages; ids and titles are kept; every other session is unchanged |
| `SessionOps.Resolved` | src/App.tsx:147-152 | a settled card is no longer loading; it carries the answer text with no error, or empty text with the error; model id, display name, latency and vote are kept |
| `SessionOps.ReplaceResponse` | src/App.tsx:145-155 | only the cards of the settled model change, each to its settled form; length and sibling cards are unchanged |
| `SessionOps.ResolveInMessages` | src/App.tsx:141-159 | only a message with the turn's id that has cards is rebuilt, and only its cards of that model; ids, roles, texts, timestamps and card presence of all messages are kept |
| `SessionOps.ResolveInSessions` | src/App.tsx:137-163 | only the session with the turn's session id is rebuilt, keeping id, title and message count; all other sessions are unchanged |
| `SessionOps.StaleResolveIsNoOp` | src/App.tsx:137-163 | when no card of that model exists in a message with that id (with cards) in a session with that id, the list is exactly the same afterwards |
| `SessionOps.AbsentMessageIsNoOp` | src/App.tsx:141-158 | settling against a message id absent from the session leaves the whole list equal to its previous value |
| `SessionOps.ReplaceResponseCommutes` | src/App.tsx:145-155 | settling two different models' cards gives the same cards in either order |
| `SessionOps.ResolveInMessagesCommutes` | src/App.tsx:141-159 | two settlements for different messages or different models commute on a message list |
| `SessionOps.ResolveCommutes` | src/App.tsx:134-163 | two settlements not aimed at the same card give the same session list in either order, so fan-out results may arrive in any order |
| `SessionOps.ResolveIdempotent` | src/App.tsx:137-163 | committing the same settlement twice equals committing it once |
| `SessionOps.ResolveEach` | src/App.tsx:134-164 | defined as the settlement of each result on a card list, in arrival order |
| `SessionOps.ResolveEachCards` | src/App.tsx:134-164 | on a card list: after settling one result per model in sequence, each card equals its own model's settled form, and cards with no result are unchanged |
| `SessionOps.ResolveEachSettles` | src/App.tsx:134-167 | on a card list: once every carded model has reported, no card is loading |
| `SessionOps.ResolveEachOrderIndependent` | src/App.tsx:134-166 | on a card list: the cards after all results are in are the same for any arrival order of the results |
| `SessionOps.ResolveAll` | src/App.tsx:134-164 | one whole-list settlement per result in arrival order keeps the number of sessions, every session's id and message count, and every message's id and card presence |
| `SessionOps.ResolveAllIsResolveEach` | src/App.tsx:134-164 | committing a turn's results one by one to the session list turns the target message's cards into `ResolveEach` of them; every other message and session is unchanged |
| `SessionOps.TurnSettles` | src/App.tsx:134-167 | once every model with a card in the turn's MODEL message has reported, once each, no card of that message in the list is loading, in any arrival order |
| `SessionStore.PrependKeepsWellFormed` | src/App.tsx:68 | a new session with a fresh id in front keeps session ids distinct and each session's message ids distinct |
| `SessionStore.AppendTurnKeepsWellFormed` | src/App.tsx:121-129 | appending a turn with two distinct ids that are new to the active session keeps the list well-formed |
| `SessionStore.ResolveKeepsWellFormed` | src/App.tsx:137-163 | settling a card keeps the list well-formed |
| `SessionStore.Store.constructor` | src/App.tsx:31-44 | the stored list is loaded when present and parsable, and its first session becomes current; otherwise the store starts empty with no current session and typing off |
| `SessionStore.Store.NewChat` | src/App.tsx:60-71 | an empty "New Chat" session with the minted id is put in front of the unchanged old list; it becomes current, typing is off, and no messages show; with a fresh id the store stays well-formed |
| `SessionStore.Store.SelectSession` | src/App.tsx:73-76 | only the pointer moves (to the given id) and typing goes off; the list is unchanged |
| `SessionStore.Store.Send` | src/App.tsx:78-131 | with no active session, a session titled from the text is created in front and made current. Then the USER message (id t, timestamp t) and the MODEL message of loading cards (id and timestamp t + 1) are appended to the active session, and typing is on. The store stays well-formed when the new ids are fresh |
| `SessionStore.Store.Resolve` | src/App.tsx:137-163 | the list becomes the whole-list settlement of that session, message and model; pointer and typing are unchanged; the store stays well-formed |
| `SessionStore.Store.FinishTurn` | src/App.tsx:166-167 | after all calls settle, typing goes off and nothing else changes |
| `Leaderboard.Seed` | src/components/Leaderboard.tsx:26-36 | defined as the map from each roster model's id to its zeroed record |
| `Leaderboard.SeedAt` | src/components/Leaderboard.tsx:26-36 | the seed has a record for every roster model and for no other id, each zeroed under distinct roster ids |
| `Leaderboard.Count` | src/components/Leaderboard.tsx:47-53 | defined as one card's contribution: one more battle, its latency added when present and non-zero, one more win when it was voted the winner |
| `Leaderboard.Step` | src/components/Leaderboard.tsx:45-54 | defined as counting one card into its model's record, and nothing for a model without a record |
| `Leaderboard.Tally` | src/components/Leaderboard.tsx:44-55 | counting never adds or removes a record: cards of models outside the roster are ignored |
| `Leaderboard.TallyAt` | src/components/Leaderboard.tsx:44-51 | each record's battles, wins and latency grow by its model's card count, winning-card count and sum of present non-zero latencies |
| `Leaderboard.WinsAtMostBattles` | src/components/Leaderboard.tsx:46-51 | a model's wins never exceed its battles |
| `Leaderboard.Finish` | src/components/Leaderboard.tsx:61-64 | win rate is wins / battles × 100 and average latency is total / battles when battles > 0; both are 0 otherwise; the win rate lies in [0, 100] when 0 ≤ wins ≤ battles |
| `Leaderboard.InsertPermutes` | src/components/Leaderboard.tsx:65 | inserting adds exactly the one record |
| `Leaderboard.InsertRanked` | src/components/Leaderboard.tsx:65 | inserting into a ranked list keeps it ranked |
| `Leaderboard.Rank` | src/components/Leaderboard.tsx:65 | the sort returns a permutation ordered non-increasingly by win rate, ties non-increasingly by wins |
| `Leaderboard.RankStable` | src/components/Leaderboard.tsx:65 | the sort is stable: the records the comparator cannot tell apart (same win rate, same wins) keep their input order |
| `Leaderboard.RankAllTied` | src/components/Leaderboard.tsx:65 | when all records tie, the sort keeps the input order |
| `Leaderboard.Derive` | src/components/Leaderboard.tsx:61-64 | defined as the finished record of each roster model, in roster order |
| `Leaderboard.Standings` | src/components/Leaderboard.tsx:22-65 | the whole leaderboard of a session list under a roster with distinct ids: one record per roster model, ranked |
| `Leaderboard.StandingsAreRankedEntries` | src/components/Leaderboard.tsx:22-65 | the leaderboard has one record per roster model and is ranked. Each record holds that model's battle count, win count, latency sum and derived rates |
| `Leaderboard.StandingsBounds` | src/components/Leaderboard.tsx:46-64 | every record has 0 ≤ wins ≤ battles and a win rate between 0 and 100 |
| `Leaderboard.NoBattlesAllZero` | src/components/Leaderboard.tsx:26-36 | with no battle turn, every model shows 0 battles, 0 wins, a 0 win rate and a 0 average latency |
| `Leaderboard.NoBattlesRosterOrder` | src/components/Leaderboard.tsx:26-65 | with no battle turn, the leaderboard is every model's zeroed record in roster order |
| `Leaderboard.NonBattleMessagesIgnored` | src/components/Leaderboard.tsx:40 | removing every message that is not a MODEL message with more than one card leaves the leaderboard unchanged |
| `Leaderboard.SeedStats` | src/components/Leaderboard.tsx:26-36 | the initialising loop builds the seed: a zeroed record for every roster model |
| `Leaderboard.ScanCards` | src/components/Leaderboard.tsx:44-55 | the card loop computes the fold of the counting step over the cards, keeping the record keys |
| `Leaderboard.ScanSession` | src/components/Leaderboard.tsx:39-57 | the message loop counts exactly the cards of the battle messages, in order |
| `Leaderboard.ComputeStats` | src/components/Leaderboard.tsx:22-67 | the component's computation equals the specified leaderboard, has one record per roster model and is ranked |
| `LegacyChat.History` | App.tsx:41-44 | one history entry per message in the same order, with role 'user' exactly for USER messages and 'model' otherwise, carrying the message text |
| `LegacyChat.HistoryAppend` | App.tsx:41-44 | the history of a longer conversation is the history of its start followed by the history of the rest |
| `LegacyChat.Upsert` | App.tsx:54-67 | when the streamed id exists, only messages with it get the new text and length is kept; otherwise one MODEL message with that text is appended at the end |
| `LegacyChat.UpsertCount` | App.tsx:56-66 | after an upsert the number of messages with the streamed id is unchanged, or 1 if there was none, so it never exceeds one when it did not before |
| `LegacyChat.UpsertShowsText` | App.tsx:56-66 | after an upsert the streamed message exists and shows exactly the text so far |
| `LegacyChat.Concat` | App.tsx:52 | defined as the chunks received so far joined in arrival order, the value of `currentModelText` |
| `LegacyChat.ConcatAppend` | App.tsx:52 | joining chunks respects arrival order: joining two runs equals joining each and concatenating |
| `LegacyChat.Chat.constructor` | App.tsx:12-13 | the conversation starts empty with typing off |
| `LegacyChat.Chat.NewChat` | App.tsx:17-20 | the conversation becomes empty and typing goes off |
| `LegacyChat.Chat.Send` | App.tsx:22-46 | the USER message with the text is appended after every earlier message and typing is on. The history sent upstream is that of the conversation before this message. A fresh stream state has no chunks yet and waits for id reading + 1 |
| `LegacyChat.Chat.EndStream` | App.tsx:76 | when the stream ends typing goes off and the conversation is unchanged |
| `LegacyChat.ChunkStream.constructor` | App.tsx:33-46 | a stream starts with empty text and the first-chunk flag set |
| `LegacyChat.ChunkStream.OnChunk` | App.tsx:51-73 | the text so far becomes the chunks joined in arrival order and is upserted into the conversation. The streamed message then exists once and shows that text. Typing goes off at the first chunk and is otherwise untouched |

## Left out

- Rendering, layout and styling (`Sidebar`, `Header`, `Hero`, `MessageList`, `InputArea`, `Leaderboard` markup, `tailwind.config.js`) and the sidebar open/close and resize state: markup with no state worth stating.
- Writing to `localStorage` and the JSON codec (src/App.tsx:46-51): browser storage and a library codec. Reading is modelled only as the start-up decision over an optional stored list (`SessionStore.Store.constructor`).
- The Groq and Gemini clients (src/services/groq.ts, src/services/gemini.ts): network calls. A settled call is the input `ModelResult`, and a stream is a sequence of `OnChunk` calls.
- `Promise.allSettled` and the async fan-out (src/App.tsx:134-167): each settled call is one atomic `Store.Resolve`, in any order. The caller invokes `FinishTurn` once all have settled.
- `Date.now()`: clock readings are parameters. Freshness of minted ids is a hypothesis of the well-formedness clauses, not something the model can show about a clock.
- React schedules state updates and runs updater functions later. The model applies each update when its handler runs. A `handleSend` closure's captured `currentSessionId` is modelled as the pointer at the moment of the send.
- Authentication (`AuthModal.tsx`) is out of scope; the battle client never sets `latency` on a settled card.
- Title length is counted in Dafny characters, not the UTF-16 code units of JavaScript's `slice` and `length`. The two differ only for characters outside the Basic Multilingual Plane.
- Win rate and average latency are exact rationals. JavaScript computes them in double precision, so two win rates that differ by less than its rounding compare equal there and are ordered by wins instead.
- `Object.values` lists integer-like keys before the others. The model lists records in roster order, which is what the roster's non-numeric ids give.
- A card whose model id names an inherited `Object.prototype` member (such as "toString") passes the `modelStats[...]` check in the source. The writes then go to that shared member and not into any listed record. The model ignores such a card, which gives the same leaderboard.
- The unused `hasWinner` flag (src/components/Leaderboard.tsx:42, 52).
