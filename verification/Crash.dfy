/** Crash consistency: what any failure leaves in the store. */
module Crash {
  import opened Results
  import opened JsonValues
  import opened World
  import opened Rounds
  import opened Handlers
  import opened Metadata
  import opened Store
  import opened Session

  /** The same session on a store that never fails. */
  function Calm(cfg: Config): Config {
    cfg.(faults := (op: nat) => false)
  }

  ghost predicate NeverFails(cfg: Config) {
    forall op :: !cfg.faults(op)
  }

  /** No store operation between the two states failed. */
  ghost predicate NoFaultBetween(cfg: Config, s: StoreState, t: StoreState) {
    forall op :: s.ops <= op < t.ops ==> !cfg.faults(op)
  }

  /** Only the log of `id` may have grown, and it has grown by `rows`. */
  ghost predicate Grew(s: StoreState, t: StoreState, id: int, rows: seq<Row>) {
    && t.conversations == s.conversations
    && Log(t, id) == Log(s, id) + rows
    && forall other :: other != id ==> Log(t, other) == Log(s, other)
  }

  lemma GrewTwice(s: StoreState, t: StoreState, u: StoreState, id: int, rows: seq<Row>, more: seq<Row>)
    requires Grew(s, t, id, rows) && Grew(t, u, id, more)
    ensures Grew(s, u, id, rows + more)
  {
    assert Log(s, id) + (rows + more) == (Log(s, id) + rows) + more;
  }

  lemma AppendGrows(cfg: Config, s: StoreState, id: int, row: Row)
    requires Append(cfg.faults, s, id, row).1.Ok?
    ensures Grew(s, Append(cfg.faults, s, id, row).0, id, [row])
  {
  }

  lemma NothingGrew(s: StoreState, t: StoreState, id: int)
    requires t.conversations == s.conversations && t.logs == s.logs
    ensures Grew(s, t, id, [])
  {
    assert Log(s, id) + [] == Log(s, id);
  }

  /** The rows the write loop stores when no write fails: all, or none after a metadata failure. */
  function NewRows(cfg: Config, kind: Kind, messages: seq<Json>, w: World): seq<Row> {
    if messages == [] then [] else
    var meta := WithToolMetadata(messages[0], w.refs, w.payload);
    if meta.Raised? then []
    else [MessageRow(cfg, kind, messages[0], meta.value)] + NewRows(cfg, kind, messages[1..], w)
  }

  /** A write loop that fails leaves a prefix of its rows; one that succeeds leaves them all. */
  lemma {:induction false} PersistGrows(cfg: Config, kind: Kind, s: StoreState, id: int, messages: seq<Json>, w: World)
    returns (k: nat)
    ensures var (t, done) := PersistNew(cfg, kind, s, id, messages, w);
      var rows := NewRows(cfg, kind, messages, w);
      && k <= |rows| && Grew(s, t, id, rows[..k])
      && (done.Ok? ==> k == |rows| == |messages|)
      && s.ops <= t.ops && (NoFaultBetween(cfg, s, t) ==> k == |rows|)
    decreases |messages|
  {
    k := 0;
    if messages == [] {
      NothingGrew(s, s, id);
    } else {
      var meta := WithToolMetadata(messages[0], w.refs, w.payload);
      if meta.Ok? {
        var row := MessageRow(cfg, kind, messages[0], meta.value);
        var (s1, stored) := Append(cfg.faults, s, id, row);
        if stored.Ok? {
          AppendGrows(cfg, s, id, row);
          var n := PersistGrows(cfg, kind, s1, id, messages[1..], w);
          var more := NewRows(cfg, kind, messages[1..], w);
          GrewTwice(s, s1, PersistNew(cfg, kind, s1, id, messages[1..], w).0, id, [row], more[..n]);
          k := n + 1;
          assert ([row] + more)[..k] == [row] + more[..n];
        } else {
          NothingGrew(s, s1, id);
        }
      } else {
        NothingGrew(s, s, id);
      }
    }
  }

  /** Up to the model call a turn stores its prompt, or nothing. */
  lemma PrepareGrows(cfg: Config, s: StoreState, hash: string, command: string) returns (rows: seq<Row>)
    ensures var (t, p) := Prepare(cfg, s, hash, command);
      && t.conversations == s.conversations
      && (hash !in s.conversations ==> p.Raised? && t.logs == s.logs)
      && (hash in s.conversations ==>
           var conv := s.conversations[hash];
           && Grew(s, t, conv.id, rows)
           && (rows == [] || (PromptStored(cfg, s, hash) && rows == [TurnPrompt(cfg, s, hash, command)]))
           && (p.Ok? ==> rows != [] && p.value.id == conv.id && KindNamed(conv.kind) == Some(p.value.kind)))
  {
    rows := [];
    if hash in s.conversations {
      var conv := s.conversations[hash];
      var t := Prepare(cfg, s, hash, command).0;
      var (s1, history) := BuildHistoricalContext(cfg, Tick(s), hash, conv.id);
      var row := TurnPrompt(cfg, s, hash, command);
      if Find(cfg.faults, s, hash).Ok? && PromptStored(cfg, s, hash) && history.Ok?
        && Append(cfg.faults, s1, conv.id, row).1.Ok? {
        rows := [row];
        NothingGrew(s, s1, conv.id);
        AppendGrows(cfg, s1, conv.id, row);
        GrewTwice(s, s1, t, conv.id, [], [row]);
        assert [] + [row] == [row];
      } else {
        NothingGrew(s, t, conv.id);
      }
    }
  }

  /** A preparation that survives its faults did exactly what it does without them. */
  lemma PrepareCalm(cfg: Config, s: StoreState, hash: string, command: string)
    requires Prepare(cfg, s, hash, command).1.Ok?
    ensures Prepare(Calm(cfg), s, hash, command) == Prepare(cfg, s, hash, command)
  {
  }

  /** The rows stored after the model call when no write fails. */
  function FinishRows(cfg: Config, w: World, p: Prepared): seq<Row> {
    var loop := ChatWithTools(cfg.connection, cfg.host, p.sent, cfg.Cap(), StartTurn(w));
    if loop.response.Raised? then [] else NewRows(cfg, p.kind, NewMessages(p.sent, loop.messages), loop.world)
  }

  /** The rows a turn stores when no store operation fails. */
  function TurnRows(cfg: Config, s: StoreState, w: World, hash: string, command: string): seq<Row> {
    var prepared := Prepare(Calm(cfg), s, hash, command).1;
    (if PromptStored(cfg, s, hash) then [TurnPrompt(cfg, s, hash, command)] else [])
    + (if prepared.Ok? then FinishRows(cfg, w, prepared.value) else [])
  }

  predicate PromptStored(cfg: Config, s: StoreState, hash: string) {
    hash in s.conversations && KindNamed(s.conversations[hash].kind).Some?
  }

  function TurnPrompt(cfg: Config, s: StoreState, hash: string, command: string): Row {
    var kind := if PromptStored(cfg, s, hash) then KindNamed(s.conversations[hash].kind).value else OpenAiKind;
    PromptRow(cfg, kind, BuildUserPrompt(kind, command))
  }

  /**
   Whatever fails in a turn (a store operation, the replay, the scrub, the provider, a tool,
   the metadata), the conversation's log is its old log plus a prefix of the rows the turn
   stores when the store never fails, and no other log has changed. Once the provider is
   reached the prefix holds the prompt; a turn that returns has stored every row.
   */
  lemma CrashConsistency(cfg: Config, s: StoreState, w: World, hash: string, command: string) returns (k: nat)
    ensures var turn := RunTurn(cfg, s, w, hash, command);
      var rows := TurnRows(cfg, s, w, hash, command);
      && k <= |rows|
      && (hash in s.conversations ==> Grew(s, turn.store, s.conversations[hash].id, rows[..k]))
      && (hash !in s.conversations ==> turn.store.logs == s.logs && turn.store.conversations == s.conversations)
      && (turn.world.asked != w.asked ==> k >= 1)
      && (k >= 1 ==> rows[0] == TurnPrompt(cfg, s, hash, command))
      && (turn.reply.Ok? ==> k == |rows|)
      && (NeverFails(cfg) ==> k == |rows|)
  {
    if hash !in s.conversations {
      k := 0;
    } else if Prepare(cfg, s, hash, command).1.Ok? {
      var stored := PrepareGrows(cfg, s, hash, command);
      var (s1, prepared) := Prepare(cfg, s, hash, command);
      TurnSplits(cfg, s, w, hash, command);
      k := FinishFollows(cfg, s, s1, w, prepared.value, TurnPrompt(cfg, s, hash, command));
    } else {
      k := RaisedWhilePreparing(cfg, s, w, hash, command);
    }
  }

  lemma RaisedWhilePreparing(cfg: Config, s: StoreState, w: World, hash: string, command: string) returns (k: nat)
    requires hash in s.conversations && Prepare(cfg, s, hash, command).1.Raised?
    ensures var turn := RunTurn(cfg, s, w, hash, command);
      var rows := TurnRows(cfg, s, w, hash, command);
      && turn.reply.Raised? && turn.world == w
      && k <= |rows| && k <= 1 && (k == 1 ==> rows[0] == TurnPrompt(cfg, s, hash, command))
      && Grew(s, turn.store, s.conversations[hash].id, rows[..k])
      && (NeverFails(cfg) ==> k == |rows|)
  {
    var stored := PrepareGrows(cfg, s, hash, command);
    k := |stored|;
    assert TurnRows(cfg, s, w, hash, command)[..k] == stored;
  }

  lemma TurnSplits(cfg: Config, s: StoreState, w: World, hash: string, command: string)
    requires hash in s.conversations && Prepare(cfg, s, hash, command).1.Ok?
    ensures var (s1, p) := Prepare(cfg, s, hash, command);
      && RunTurn(cfg, s, w, hash, command) == Finish(cfg, s1, w, p.value)
      && TurnRows(cfg, s, w, hash, command) == [TurnPrompt(cfg, s, hash, command)] + FinishRows(cfg, w, p.value)
  {
    PrepareCalm(cfg, s, hash, command);
  }

  /** From the model call on. */
  lemma FinishGrows(cfg: Config, s: StoreState, w: World, p: Prepared) returns (n: nat)
    ensures var turn := Finish(cfg, s, w, p);
      var rows := FinishRows(cfg, w, p);
      && n <= |rows| && Grew(s, turn.store, p.id, rows[..n])
      && (turn.reply.Ok? ==> n == |rows|)
      && (NoFaultBetween(cfg, s, turn.store) ==> n == |rows|)
  {
    var loop := ChatWithTools(cfg.connection, cfg.host, p.sent, cfg.Cap(), StartTurn(w));
    if loop.response.Raised? {
      n := 0;
      NothingGrew(s, s, p.id);
    } else {
      var messages := NewMessages(p.sent, loop.messages);
      n := PersistGrows(cfg, p.kind, s, p.id, messages, loop.world);
      var done := PersistNew(cfg, p.kind, s, p.id, messages, loop.world).1;
      assert Finish(cfg, s, w, p).reply.Ok? ==> done.Ok?;
      assert FinishRows(cfg, w, p) == NewRows(cfg, p.kind, messages, loop.world);
    }
  }

  lemma FinishFollows(cfg: Config, s: StoreState, s1: StoreState, w: World, p: Prepared, row: Row) returns (k: nat)
    requires Grew(s, s1, p.id, [row])
    ensures var turn := Finish(cfg, s1, w, p);
      var rows := [row] + FinishRows(cfg, w, p);
      && 1 <= k <= |rows| && Grew(s, turn.store, p.id, rows[..k])
      && (turn.reply.Ok? ==> k == |rows|)
      && (NoFaultBetween(cfg, s1, turn.store) ==> k == |rows|)
  {
    var n := FinishGrows(cfg, s1, w, p);
    var more := FinishRows(cfg, w, p);
    GrewTwice(s, s1, Finish(cfg, s1, w, p).store, p.id, [row], more[..n]);
    k := n + 1;
    assert ([row] + more)[..k] == [row] + more[..n];
  }

  /** The rows this turn sets out to store: its prompt and, once prepared, the rows of its answer. */
  function AttemptedRows(cfg: Config, s: StoreState, w: World, hash: string, command: string): seq<Row> {
    var p := Prepare(cfg, s, hash, command).1;
    [TurnPrompt(cfg, s, hash, command)] + if p.Ok? then FinishRows(cfg, w, p.value) else []
  }

  /** A turn stores a prefix of them; of the answer all, if no write after the model call fails. */
  lemma StoredByTurn(cfg: Config, s: StoreState, w: World, hash: string, command: string) returns (k: nat)
    requires hash in s.conversations
    ensures var (s1, p) := Prepare(cfg, s, hash, command);
      var turn := RunTurn(cfg, s, w, hash, command);
      var rows := AttemptedRows(cfg, s, w, hash, command);
      && k <= |rows| && Grew(s, turn.store, s.conversations[hash].id, rows[..k])
      && (k >= 1 ==> PromptStored(cfg, s, hash))
      && (WritesSucceed(cfg, s, w, hash, command) ==> k == 0 || k == |rows|)
  {
    var row := TurnPrompt(cfg, s, hash, command);
    var stored := PrepareGrows(cfg, s, hash, command);
    var (s1, prepared) := Prepare(cfg, s, hash, command);
    if prepared.Ok? {
      k := FinishFollows(cfg, s, s1, w, prepared.value, row);
    } else {
      k := |stored|;
      assert [row] + [] == [row];
      assert [row][..k] == stored;
    }
  }

  /** Every row written after the model call reaches the store; anything before it may fail. */
  ghost predicate WritesSucceed(cfg: Config, s: StoreState, w: World, hash: string, command: string) {
    var (s1, p) := Prepare(cfg, s, hash, command);
    p.Ok? ==> NoFaultBetween(cfg, s1, RunTurn(cfg, s, w, hash, command).store)
  }

  /** The same on every turn of a run. */
  ghost predicate AllWritesSucceed(cfg: Config, s: StoreState, w: World, commands: seq<Command>)
    decreases |commands|
  {
    commands != [] ==>
      && WritesSucceed(cfg, s, w, commands[0].hash, commands[0].text)
      && var turn := RunTurn(cfg, s, w, commands[0].hash, commands[0].text);
         AllWritesSucceed(cfg, turn.store, turn.world, commands[1..])
  }

  /** A turn that returns on a failing store returns what it returns on one that never fails. */
  lemma SurvivingFaultsChangesNothing(cfg: Config, s: StoreState, w: World, hash: string, command: string)
    requires RunTurn(cfg, s, w, hash, command).reply.Ok?
    ensures RunTurn(Calm(cfg), s, w, hash, command) == RunTurn(cfg, s, w, hash, command)
  {
    PrepareCalm(cfg, s, hash, command);
    var (s1, prepared) := Prepare(cfg, s, hash, command);
    var p := prepared.value;
    var loop := ChatWithTools(cfg.connection, cfg.host, p.sent, cfg.Cap(), StartTurn(w));
    PersistCalm(cfg, p.kind, s1, p.id, NewMessages(p.sent, loop.messages), loop.world);
  }

  lemma {:induction false} PersistCalm(cfg: Config, kind: Kind, s: StoreState, id: int, messages: seq<Json>, w: World)
    requires PersistNew(cfg, kind, s, id, messages, w).1.Ok?
    ensures PersistNew(Calm(cfg), kind, s, id, messages, w) == PersistNew(cfg, kind, s, id, messages, w)
    decreases |messages|
  {
    if messages != [] {
      var meta := WithToolMetadata(messages[0], w.refs, w.payload).value;
      var s1 := Append(cfg.faults, s, id, MessageRow(cfg, kind, messages[0], meta)).0;
      PersistCalm(cfg, kind, s1, id, messages[1..], w);
    }
  }
}
