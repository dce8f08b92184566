/**
 The history store a session talks to: one append-only log per conversation. Any operation
 may raise, and then changes nothing; `faults` says which ones do.
 */
module Store {
  import opened Results
  import opened JsonValues
  import opened Handlers

  datatype Conversation = Conversation(id: int, kind: string)

  datatype Row = Row(sender: Sender, content: string, meta: Json)

  /** The tables, and how many operations have been attempted. */
  datatype StoreState = StoreState(conversations: map<string, Conversation>, logs: map<int, seq<Row>>, ops: nat)

  type Faults = nat -> bool

  function Log(s: StoreState, id: int): seq<Row> {
    if id in s.logs then s.logs[id] else []
  }

  function Tick(s: StoreState): StoreState {
    s.(ops := s.ops + 1)
  }

  function LastN<T>(items: seq<T>, n: nat): seq<T> {
    if n < |items| then items[|items| - n..] else items
  }

  /** `conversation_by_hash`. */
  function Find(faults: Faults, s: StoreState, hash: string): Outcome<Option<Conversation>> {
    if faults(s.ops) then Raised
    else Ok(if hash in s.conversations then Some(s.conversations[hash]) else None)
  }

  /** `list_recent_messages`: the last `limit` rows, oldest first. */
  function Recent(faults: Faults, s: StoreState, id: int, limit: nat): Outcome<seq<Row>> {
    if faults(s.ops) then Raised else Ok(LastN(Log(s, id), limit))
  }

  /** `append_message`. */
  function Append(faults: Faults, s: StoreState, id: int, row: Row): (StoreState, Outcome<()>) {
    if faults(s.ops) then (Tick(s), Raised)
    else (Tick(s).(logs := s.logs[id := Log(s, id) + [row]]), Ok(()))
  }

  class HistoryStore {
    const faults: Faults
    var conversations: map<string, Conversation>
    var logs: map<int, seq<Row>>
    var ops: nat

    function State(): StoreState
      reads this
    {
      StoreState(conversations, logs, ops)
    }

    constructor (faults: Faults, conversations: map<string, Conversation>)
      ensures this.faults == faults
      ensures State() == StoreState(conversations, map[], 0)
    {
      this.faults := faults;
      this.conversations := conversations;
      this.logs := map[];
      this.ops := 0;
    }

    method ConversationByHash(hash: string) returns (found: Outcome<Option<Conversation>>)
      modifies this
      ensures State() == Tick(old(State())) && found == Find(faults, old(State()), hash)
    {
      ops := ops + 1;
      if faults(ops - 1) {
        return Raised;
      }
      if hash in conversations {
        return Ok(Some(conversations[hash]));
      }
      return Ok(None);
    }

    method ListRecentMessages(id: int, limit: nat) returns (rows: Outcome<seq<Row>>)
      modifies this
      ensures State() == Tick(old(State())) && rows == Recent(faults, old(State()), id, limit)
    {
      ops := ops + 1;
      if faults(ops - 1) {
        return Raised;
      }
      var all := if id in logs then logs[id] else [];
      return Ok(LastN(all, limit));
    }

    method AppendMessage(id: int, sender: Sender, content: string, meta: Json) returns (done: Outcome<()>)
      modifies this
      ensures (State(), done) == Append(faults, old(State()), id, Row(sender, content, meta))
    {
      ops := ops + 1;
      if faults(ops - 1) {
        return Raised;
      }
      var before := if id in logs then logs[id] else [];
      logs := logs[id := before + [Row(sender, content, meta)]];
      return Ok(());
    }
  }
}
