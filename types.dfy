/** The records of the battle-mode chat client: a chat session holds an
    ordered list of messages, and a MODEL message holds one response card per
    model of the roster. Optional fields of the TypeScript interfaces become
    `Option` values. */
module Types {

  datatype Option<T> = None | Some(value: T)

  /** The two message roles; their wire spellings are 'user' and 'model'. */
  datatype Role = User | Model

  /** One model's answer card inside a MODEL message. */
  datatype ModelResponse = ModelResponse(
    modelId: string,
    displayName: string,
    text: string,
    error: Option<string>,
    isLoading: Option<bool>,
    latency: Option<int>,     // milliseconds
    isWinner: Option<bool>)

  datatype Message = Message(
    id: string,
    role: Role,
    text: string,
    timestamp: int,           // epoch milliseconds
    modelResponses: Option<seq<ModelResponse>>)

  datatype ChatSession = ChatSession(id: string, title: string, messages: seq<Message>)

  /** An entry of the battle roster: the id sent to the backend and the
      short name shown on the card. */
  datatype RosterModel = RosterModel(id: string, displayName: string)

  /** What one backend call settles to: a text on success, an error message
      on failure, never both. */
  datatype ModelResult = Answer(text: string) | Failure(message: string)

  /** The roster lists every model once. */
  predicate DistinctRosterIds(roster: seq<RosterModel>) {
    forall i, j :: 0 <= i < j < |roster| ==> roster[i].id != roster[j].id
  }

  predicate InRoster(roster: seq<RosterModel>, id: string) {
    exists k :: 0 <= k < |roster| && roster[k].id == id
  }
}
