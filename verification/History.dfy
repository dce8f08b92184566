/** What a turn remembers: the history it is given, message by message (`_build_historical_context`). */
module History {
  import opened Results
  import opened JsonValues
  import opened JsonText
  import opened Replay
  import opened Picking
  import opened Metadata
  import opened Store
  import opened Session
  import opened Window
  import Runs

  // ---- a replay that works ------------------------------------------------------

  /** An entry with something to say: a user's text, an assistant's text or payload. */
  predicate Speaks(e: ReplayEntry) {
    && e.Entry?
    && ((e.role == "user" && e.text != "") || (e.role == "assistant" && (e.text != "" || Truthy(e.payload))))
  }

  function SpeakFlags(entries: seq<ReplayEntry>): seq<bool> {
    seq(|entries|, k requires 0 <= k < |entries| => Speaks(entries[k]))
  }

  /** The payload as the model reads it: sorted JSON, cut with a mark after 1200 characters. */
  ghost predicate ShowsPayload(shown: string, payload: Json) {
    var text := Dumps(SortKeys(payload), true);
    if |text| <= 1200 then shown == text
    else 1200 <= |shown| && shown[..1200] == text[..1200] && shown[1200..] == "\U{2026}(truncated)"
  }

  /** What an entry becomes: its role, and its text with the payload behind it in brackets. */
  ghost predicate Replays(e: ReplayEntry, m: Json)
    requires e.Entry?
  {
    && m.Obj? && KeysOf(m.fields) == {"role", "content"}
    && Get(m, "role") == Some(Str(e.role))
    && if e.role == "user" || !Truthy(e.payload) then Get(m, "content") == Some(Str(e.text))
       else exists shown :: ShowsPayload(shown, e.payload) && Get(m, "content") == Some(Str(
         if e.text == "" then "[Tool results: " + shown + "]" else e.text + "\n\n[Tool results: " + shown + "]"))
  }

  lemma PlainMessageReads(role: string, content: string)
    ensures var m := PlainMessage(role, content);
      && KeysOf(m.fields) == {"role", "content"}
      && Get(m, "role") == Some(Str(role)) && Get(m, "content") == Some(Str(content))
  {
    var fields := PlainMessage(role, content).fields;
    assert |"role"| != |"content"| && fields == [fields[0], fields[1]];
    LookupPair(fields[0], fields[1], "role");
    LookupPair(fields[0], fields[1], "content");
  }

  lemma PayloadIsShown(payload: Json)
    ensures ShowsPayload(PayloadText(payload), payload)
  {
  }

  lemma BracketsJoin(text: string, shown: string)
    ensures "[Tool results: " + (shown + "]") == "[Tool results: " + shown + "]"
    ensures text + ("\n\n" + ("[Tool results: " + (shown + "]"))) == text + "\n\n[Tool results: " + shown + "]"
  {
    assert "\n\n[Tool results: " == "\n\n" + "[Tool results: ";
  }

  /** An entry is replayed if and only if it has something to say. */
  lemma EntryReplays(e: ReplayEntry)
    ensures ProjectEntry(e).Some? <==> Speaks(e)
    ensures Speaks(e) ==> Replays(e, ProjectEntry(e).value)
  {
    if Speaks(e) {
      var content := if e.role == "user" then e.text else AssistantContent(e.text, e.payload);
      PlainMessageReads(e.role, content);
      PayloadIsShown(e.payload);
      BracketsJoin(e.text, PayloadText(e.payload));
    }
  }

  lemma {:induction false} ProjectionExtends(entries: seq<ReplayEntry>, k: nat)
    requires k < |entries|
    ensures var m := ProjectEntry(entries[k]);
      ProjectEntries(entries[..k + 1]) == ProjectEntries(entries[..k]) + if m.Some? then [m.value] else []
  {
    if k == 0 {
      assert entries[..1][1..] == [];
    } else {
      assert entries[..k + 1][1..] == entries[1..][..k] && entries[..k][1..] == entries[1..][..k - 1];
      ProjectionExtends(entries[1..], k - 1);
    }
  }

  ghost predicate ReplaysAll(entries: seq<ReplayEntry>, messages: seq<Json>, positions: seq<nat>) {
    && Exactly(SpeakFlags(entries), positions) && |messages| == |positions|
    && forall i :: 0 <= i < |messages| ==> entries[positions[i]].Entry? && Replays(entries[positions[i]], messages[i])
  }

  lemma {:induction false} EntriesReplay(entries: seq<ReplayEntry>)
    ensures ReplaysAll(entries, ProjectEntries(entries), Chosen(SpeakFlags(entries)))
  {
    ChosenIsExact(SpeakFlags(entries));
    if entries != [] {
      var n := |entries| - 1;
      EntriesReplay(entries[..n]);
      ProjectionExtends(entries, n);
      EntryReplays(entries[n]);
      assert entries[..n + 1] == entries && SpeakFlags(entries)[..n] == SpeakFlags(entries[..n]);
      var before := Chosen(SpeakFlags(entries[..n]));
      forall i | 0 <= i < |before| ensures entries[..n][before[i]] == entries[before[i]] {
      }
    }
  }

  /**
   With a replay that works, the history is in order one message for each entry that has something
   to say, in that entry's role and words, and none for any other. The store is not read.
   */
  lemma ReplayedHistory(cfg: Config, s: StoreState, hash: string, id: int)
    requires cfg.replayer.Some? && cfg.replayer.value(s, hash, cfg.maxHistory).Ok?
    ensures var (t, history) := BuildHistoricalContext(cfg, s, hash, id);
      && t == s && history.Ok?
      && exists positions :: ReplaysAll(cfg.replayer.value(s, hash, cfg.maxHistory).value, history.value, positions)
  {
    EntriesReplay(cfg.replayer.value(s, hash, cfg.maxHistory).value);
  }

  // ---- no replay, or one that raises -----------------------------------------------

  /** A row as the model reads it again: the stored message without its two side-cars. */
  ghost predicate Rereads(meta: Json, m: Json) {
    if !meta.Obj? then m == meta
    else m.Obj? && forall key ::
      Get(m, key) == if key == "refs" || key == "llm_payload" then None else Get(meta, key)
  }

  lemma StrippedRereads(meta: Json)
    ensures Rereads(meta, StripPersistenceKeys(meta))
  {
    if meta.Obj? {
      forall key
        ensures Get(StripPersistenceKeys(meta), key)
          == if key == "refs" || key == "llm_payload" then None else Get(meta, key)
      {
        LookupWithout(meta.fields, PersistenceOnlyKeys(), key);
      }
    }
  }

  /** Without a replay, or when it raises, the history is the last rows of the log, oldest first. */
  lemma StoredHistory(cfg: Config, s: StoreState, hash: string, id: int)
    requires cfg.replayer.None? || cfg.replayer.value(s, hash, cfg.maxHistory).Raised?
    ensures var (t, history) := BuildHistoricalContext(cfg, s, hash, id);
      var log := Log(s, id);
      && (history.Raised? <==> cfg.faults(s.ops))
      && (history.Ok? ==>
           && |history.value| == (if |log| <= cfg.maxHistory then |log| else cfg.maxHistory)
           && forall i :: 0 <= i < |history.value| ==>
                Rereads(log[|log| - |history.value| + i].meta, history.value[i]))
  {
    var rows := LastN(Log(s, id), cfg.maxHistory);
    StripRowsSplits(rows, []);
    assert rows + [] == rows;
    forall i | 0 <= i < |rows| ensures Rereads(rows[i].meta, StripRows(rows)[i]) {
      Runs.StripRowsAt(rows, i);
      StrippedRereads(rows[i].meta);
    }
  }
}
