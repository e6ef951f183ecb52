/**
  The call-state store: one hash per call (`call:{sid}`), an append-only
  event list (`events:{sid}`) and transcript list (`transcript:{sid}`) per
  call, an audio-URL cache (`audio:{scenario}:{turn}`) and the pending-call
  keys (`pending_call:{phone}`) the router writes through the raw client.

  `Snapshot` is the store's contents as a value, with each operation as a
  function on it; `SessionStore` is the mutable store whose methods are
  proved to perform exactly those functions.
 */
module Store {
  import opened Wrappers
  import opened Models

  /** The fields of a `call:{sid}` hash; None is a field the hash does not hold. */
  datatype SessionRecord = SessionRecord(
    callSid: Option<string>,
    phoneNumber: Option<string>,
    scenarioId: Option<string>,
    status: Option<string>,
    currentTurn: Option<int>,
    startedAt: Option<Timestamp>,
    endedAt: Option<Timestamp>)

  /** The hash of a call nothing was ever written for. */
  const NoFields := SessionRecord(None, None, None, None, None, None, None)

  /** What `create_call_session` writes: every field, status "initiated", turn 1, empty `ended_at`. */
  function NewSession(sid: string, phone: string, scenarioId: string, now: Timestamp): SessionRecord {
    SessionRecord(Some(sid), Some(phone), Some(scenarioId), Some(Initiated.Value()), Some(1), Some(now), Some(""))
  }

  /** The statuses `update_call_status` stamps `ended_at` for. */
  predicate EndsCall(status: CallStatus) {
    status == Completed || status == Failed || status == NoAnswer
  }

  datatype TranscriptEntry = TranscriptEntry(turn: int, speaker: string, text: string, timestamp: Timestamp)

  /** The part of the store that belongs to one call. */
  datatype CallView = CallView(record: SessionRecord, events: seq<CallEvent>, transcript: seq<TranscriptEntry>)

  datatype Snapshot = Snapshot(
    calls: map<string, SessionRecord>,
    events: map<string, seq<CallEvent>>,
    transcripts: map<string, seq<TranscriptEntry>>,
    audio: map<(string, int), string>,
    pending: map<string, string>)
  {
    function Record(sid: string): SessionRecord {
      if sid in calls then calls[sid] else NoFields
    }

    function EventsOf(sid: string): seq<CallEvent> {
      if sid in events then events[sid] else []
    }

    function TranscriptOf(sid: string): seq<TranscriptEntry> {
      if sid in transcripts then transcripts[sid] else []
    }

    function View(sid: string): CallView {
      CallView(Record(sid), EventsOf(sid), TranscriptOf(sid))
    }

    /** `create_call_session`: `hset` of all seven fields. */
    function CreateCallSession(sid: string, phone: string, scenarioId: string, now: Timestamp): Snapshot {
      this.(calls := calls[sid := NewSession(sid, phone, scenarioId, now)])
    }

    /** `get_call_session`: None exactly when the hash holds no field. */
    function GetCallSession(sid: string): Option<SessionRecord> {
      if Record(sid) == NoFields then None else Some(Record(sid))
    }

    /** `update_call_status`: `hset` of `status`, and of `ended_at` for an ending status. */
    function UpdateCallStatus(sid: string, status: CallStatus, now: Timestamp): Snapshot {
      var r := Record(sid).(status := Some(status.Value()));
      this.(calls := calls[sid := if EndsCall(status) then r.(endedAt := Some(now)) else r])
    }

    /** `increment_turn`: `hincrby current_turn 1`, an absent field counting as 0. */
    function IncrementTurn(sid: string): (Snapshot, int) {
      var t := Record(sid).currentTurn.GetOr(0) + 1;
      (this.(calls := calls[sid := Record(sid).(currentTurn := Some(t))]), t)
    }

    /** The router's direct `hset current_turn`. */
    function SetCurrentTurn(sid: string, turn: int): Snapshot {
      this.(calls := calls[sid := Record(sid).(currentTurn := Some(turn))])
    }

    /** `get_current_turn`: 1 when the field is absent. */
    function GetCurrentTurn(sid: string): int {
      Record(sid).currentTurn.GetOr(1)
    }

    /** `log_event`: `rpush` onto `events:{sid}`. */
    function LogEvent(sid: string, e: CallEvent): Snapshot {
      this.(events := events[sid := EventsOf(sid) + [e]])
    }

    /** `add_transcript_entry`: `rpush` onto `transcript:{sid}`. */
    function AddTranscriptEntry(sid: string, turn: int, speaker: string, text: string, now: Timestamp): Snapshot {
      this.(transcripts := transcripts[sid := TranscriptOf(sid) + [TranscriptEntry(turn, speaker, text, now)]])
    }

    /** `cache_audio_url`: `set audio:{scenario}:{turn}`. */
    function CacheAudioUrl(scenarioId: string, turn: int, url: string): Snapshot {
      this.(audio := audio[(scenarioId, turn) := url])
    }

    function GetCachedAudioUrl(scenarioId: string, turn: int): Option<string> {
      if (scenarioId, turn) in audio then Some(audio[(scenarioId, turn)]) else None
    }

    /** The router's `setex pending_call:{phone}`. */
    function SetPending(phone: string, scenarioId: string): Snapshot {
      this.(pending := pending[phone := scenarioId])
    }

    /** The router's `get pending_call:{phone}`. */
    function GetPending(phone: string): Option<string> {
      if phone in pending then Some(pending[phone]) else None
    }
  }

  const EmptyStore := Snapshot(map[], map[], map[], map[], map[])

  /** The store as the service object holds it. */
  class SessionStore {
    var calls: map<string, SessionRecord>
    var events: map<string, seq<CallEvent>>
    var transcripts: map<string, seq<TranscriptEntry>>
    var audio: map<(string, int), string>
    var pending: map<string, string>

    function State(): Snapshot
      reads this
    {
      Snapshot(calls, events, transcripts, audio, pending)
    }

    constructor()
      ensures State() == EmptyStore
    {
      calls, events, transcripts, audio, pending := map[], map[], map[], map[], map[];
    }

    method CreateCallSession(sid: string, phone: string, scenarioId: string, now: Timestamp)
      modifies this
      ensures State() == old(State()).CreateCallSession(sid, phone, scenarioId, now)
    {
      calls := calls[sid := NewSession(sid, phone, scenarioId, now)];
    }

    method GetCallSession(sid: string) returns (session: Option<SessionRecord>)
      ensures session == State().GetCallSession(sid)
      ensures session.None? <==> sid !in calls || calls[sid] == NoFields
    {
      if sid !in calls || calls[sid] == NoFields {
        session := None;
      } else {
        session := Some(calls[sid]);
      }
    }

    method UpdateCallStatus(sid: string, status: CallStatus, now: Timestamp)
      modifies this
      ensures State() == old(State()).UpdateCallStatus(sid, status, now)
    {
      ghost var before := calls;
      var r := if sid in calls then calls[sid] else NoFields;
      var withStatus := r.(status := Some(status.Value()));
      calls := calls[sid := withStatus];
      if EndsCall(status) {
        calls := calls[sid := calls[sid].(endedAt := Some(now))];
        assert calls == before[sid := withStatus.(endedAt := Some(now))];
      }
    }

    method IncrementTurn(sid: string) returns (newTurn: int)
      modifies this
      ensures (State(), newTurn) == old(State()).IncrementTurn(sid)
    {
      var r := if sid in calls then calls[sid] else NoFields;
      newTurn := r.currentTurn.GetOr(0) + 1;
      calls := calls[sid := r.(currentTurn := Some(newTurn))];
    }

    method SetCurrentTurn(sid: string, turn: int)
      modifies this
      ensures State() == old(State()).SetCurrentTurn(sid, turn)
    {
      var r := if sid in calls then calls[sid] else NoFields;
      calls := calls[sid := r.(currentTurn := Some(turn))];
    }

    method GetCurrentTurn(sid: string) returns (turn: int)
      ensures turn == State().GetCurrentTurn(sid)
      ensures sid in calls && calls[sid].currentTurn.Some? ==> turn == calls[sid].currentTurn.value
      ensures sid !in calls || calls[sid].currentTurn.None? ==> turn == 1
    {
      if sid in calls && calls[sid].currentTurn.Some? {
        turn := calls[sid].currentTurn.value;
      } else {
        turn := 1;
      }
    }

    method LogEvent(sid: string, e: CallEvent)
      modifies this
      ensures State() == old(State()).LogEvent(sid, e)
    {
      var list := if sid in events then events[sid] else [];
      events := events[sid := list + [e]];
    }

    /** `get_events`: the stored list, decoded entry by entry in order. */
    method GetEvents(sid: string) returns (result: seq<CallEvent>)
      ensures result == State().EventsOf(sid)
    {
      var raw := if sid in events then events[sid] else [];
      result := [];
      var i := 0;
      while i < |raw|
        invariant 0 <= i <= |raw|
        invariant result == raw[..i]
      {
        result := result + [raw[i]];
        i := i + 1;
      }
      assert raw[..|raw|] == raw;
    }

    method AddTranscriptEntry(sid: string, turn: int, speaker: string, text: string, now: Timestamp)
      modifies this
      ensures State() == old(State()).AddTranscriptEntry(sid, turn, speaker, text, now)
    {
      var list := if sid in transcripts then transcripts[sid] else [];
      transcripts := transcripts[sid := list + [TranscriptEntry(turn, speaker, text, now)]];
    }

    method GetTranscript(sid: string) returns (result: seq<TranscriptEntry>)
      ensures result == State().TranscriptOf(sid)
      ensures sid !in transcripts ==> result == []
    {
      result := if sid in transcripts then transcripts[sid] else [];
    }

    method CacheAudioUrl(scenarioId: string, turn: int, url: string)
      modifies this
      ensures State() == old(State()).CacheAudioUrl(scenarioId, turn, url)
    {
      audio := audio[(scenarioId, turn) := url];
    }

    method GetCachedAudioUrl(scenarioId: string, turn: int) returns (url: Option<string>)
      ensures url == State().GetCachedAudioUrl(scenarioId, turn)
      ensures url.None? <==> (scenarioId, turn) !in audio
    {
      if (scenarioId, turn) in audio {
        url := Some(audio[(scenarioId, turn)]);
      } else {
        url := None;
      }
    }

    method SetPending(phone: string, scenarioId: string)
      modifies this
      ensures State() == old(State()).SetPending(phone, scenarioId)
    {
      pending := pending[phone := scenarioId];
    }

    method GetPending(phone: string) returns (scenarioId: Option<string>)
      ensures scenarioId == State().GetPending(phone)
      ensures scenarioId.None? <==> phone !in pending
    {
      if phone in pending {
        scenarioId := Some(pending[phone]);
      } else {
        scenarioId := None;
      }
    }
  }

  // ---------------------------------------------------------------------
  // Properties of the operations

  /** A fresh session reads back with every field set, status "initiated", turn 1 and no end time. */
  lemma CreateThenGet(s: Snapshot, sid: string, phone: string, scenarioId: string, now: Timestamp)
    ensures var r := s.CreateCallSession(sid, phone, scenarioId, now);
      && r.GetCallSession(sid).Some?
      && var rec := r.GetCallSession(sid).value;
      && rec.callSid == Some(sid) && rec.phoneNumber == Some(phone) && rec.scenarioId == Some(scenarioId)
      && rec.status == Some("initiated") && rec.currentTurn == Some(1)
      && rec.startedAt == Some(now) && rec.endedAt == Some("")
      && r.GetCurrentTurn(sid) == 1
      && r.EventsOf(sid) == s.EventsOf(sid) && r.TranscriptOf(sid) == s.TranscriptOf(sid)
  {
  }

  /** A second `create_call_session` for the same call overwrites everything the first wrote. */
  lemma CreateOverwrites(s: Snapshot, sid: string, p1: string, c1: string, t1: Timestamp, p2: string, c2: string, t2: Timestamp)
    ensures s.CreateCallSession(sid, p1, c1, t1).CreateCallSession(sid, p2, c2, t2) == s.CreateCallSession(sid, p2, c2, t2)
  {
  }

  /** A call has a session after any write to its hash. */
  lemma SessionAfterWrite(s: Snapshot, sid: string, status: CallStatus, turn: int, now: Timestamp)
    ensures s.UpdateCallStatus(sid, status, now).GetCallSession(sid).Some?
    ensures s.SetCurrentTurn(sid, turn).GetCallSession(sid).Some?
    ensures s.IncrementTurn(sid).0.GetCallSession(sid).Some?
  {
  }

  /**
    `update_call_status` writes `status` whether or not the call exists,
    stamps `ended_at` only for completed, failed and no_answer, and leaves
    every other field as it was; on an absent call it creates a hash with
    just those fields.
   */
  lemma UpdateCallStatusFields(s: Snapshot, sid: string, status: CallStatus, now: Timestamp)
    ensures var before := s.Record(sid);
      var after := s.UpdateCallStatus(sid, status, now).Record(sid);
      && after.status == Some(status.Value())
      && after.endedAt == (if EndsCall(status) then Some(now) else before.endedAt)
      && after.callSid == before.callSid && after.phoneNumber == before.phoneNumber
      && after.scenarioId == before.scenarioId && after.currentTurn == before.currentTurn
      && after.startedAt == before.startedAt
    ensures sid !in s.calls && !EndsCall(status) ==>
      s.UpdateCallStatus(sid, status, now).Record(sid) == NoFields.(status := Some(status.Value()))
    ensures s.UpdateCallStatus(sid, status, now).EventsOf(sid) == s.EventsOf(sid)
  {
  }

  /** Busy, ringing, initiated and in_progress leave the end time as it was. */
  lemma NonEndingStatusKeepsEnd(s: Snapshot, sid: string, status: CallStatus, now: Timestamp)
    requires status in {Initiated, Ringing, InProgress, Busy}
    ensures s.UpdateCallStatus(sid, status, now).Record(sid).endedAt == s.Record(sid).endedAt
  {
  }

  /** `increment_turn` returns the previous turn plus one (absent as 0), which `get_current_turn` then reads. */
  lemma IncrementTurnValue(s: Snapshot, sid: string)
    ensures var (r, t) := s.IncrementTurn(sid);
      && (s.Record(sid).currentTurn.None? ==> t == 1)
      && (s.Record(sid).currentTurn.Some? ==> t == s.GetCurrentTurn(sid) + 1)
      && r.GetCurrentTurn(sid) == t
  {
  }

  /** The direct turn write reads back, and every other field of the call keeps its value. */
  lemma SetCurrentTurnValue(s: Snapshot, sid: string, turn: int)
    ensures var r := s.SetCurrentTurn(sid, turn);
      && r.GetCurrentTurn(sid) == turn
      && r.Record(sid) == s.Record(sid).(currentTurn := Some(turn))
      && r.events == s.events && r.transcripts == s.transcripts
  {
  }

  /** Logging appends exactly one event at the end of that call's list. */
  lemma LogEventAppends(s: Snapshot, sid: string, e: CallEvent)
    ensures s.LogEvent(sid, e).EventsOf(sid) == s.EventsOf(sid) + [e]
    ensures s.LogEvent(sid, e).calls == s.calls
    ensures s.LogEvent(sid, e).transcripts == s.transcripts
  {
  }

  /** Logging each event of a list in turn. */
  function LogAll(s: Snapshot, sid: string, es: seq<CallEvent>): Snapshot
    decreases |es|
  {
    if es == [] then s else LogAll(s, sid, es[..|es| - 1]).LogEvent(sid, es[|es| - 1])
  }

  /** `get_events` returns exactly what was logged, in append order. */
  lemma {:induction false} EventsInLogOrder(s: Snapshot, sid: string, es: seq<CallEvent>)
    ensures LogAll(s, sid, es).EventsOf(sid) == s.EventsOf(sid) + es
    decreases |es|
  {
    if es != [] {
      var n := |es| - 1;
      EventsInLogOrder(s, sid, es[..n]);
      LogEventAppends(LogAll(s, sid, es[..n]), sid, es[n]);
      assert es[..n] + [es[n]] == es;
    }
  }

  /** A transcript entry lands at the end of that call's transcript, as given. */
  lemma AddTranscriptAppends(s: Snapshot, sid: string, turn: int, speaker: string, text: string, now: Timestamp)
    ensures s.AddTranscriptEntry(sid, turn, speaker, text, now).TranscriptOf(sid) ==
      s.TranscriptOf(sid) + [TranscriptEntry(turn, speaker, text, now)]
    ensures s.AddTranscriptEntry(sid, turn, speaker, text, now).events == s.events
    ensures s.AddTranscriptEntry(sid, turn, speaker, text, now).calls == s.calls
  {
  }

  /** Adding each entry of a list in turn. */
  function AddAll(s: Snapshot, sid: string, entries: seq<TranscriptEntry>): Snapshot
    decreases |entries|
  {
    if entries == [] then s
    else
      var e := entries[|entries| - 1];
      AddAll(s, sid, entries[..|entries| - 1]).AddTranscriptEntry(sid, e.turn, e.speaker, e.text, e.timestamp)
  }

  /** `get_transcript` returns exactly the added entries, in append order. */
  lemma {:induction false} TranscriptInAddOrder(s: Snapshot, sid: string, entries: seq<TranscriptEntry>)
    ensures AddAll(s, sid, entries).TranscriptOf(sid) == s.TranscriptOf(sid) + entries
    decreases |entries|
  {
    if entries != [] {
      var n := |entries| - 1;
      var e := entries[n];
      TranscriptInAddOrder(s, sid, entries[..n]);
      AddTranscriptAppends(AddAll(s, sid, entries[..n]), sid, e.turn, e.speaker, e.text, e.timestamp);
      assert entries[..n] + [e] == entries;
    }
  }

  /** The audio cache returns what was cached under a key, keeps other keys, and has nothing for an unknown key. */
  lemma AudioCacheLaws(s: Snapshot, scenarioId: string, turn: int, url: string, otherId: string, otherTurn: int)
    ensures s.CacheAudioUrl(scenarioId, turn, url).GetCachedAudioUrl(scenarioId, turn) == Some(url)
    ensures (otherId, otherTurn) != (scenarioId, turn) ==>
      s.CacheAudioUrl(scenarioId, turn, url).GetCachedAudioUrl(otherId, otherTurn) == s.GetCachedAudioUrl(otherId, otherTurn)
    ensures EmptyStore.GetCachedAudioUrl(otherId, otherTurn) == None
  {
  }

  /** The pending key reads back what was set, and other phones keep theirs. */
  lemma PendingLaws(s: Snapshot, phone: string, scenarioId: string, other: string)
    ensures s.SetPending(phone, scenarioId).GetPending(phone) == Some(scenarioId)
    ensures other != phone ==> s.SetPending(phone, scenarioId).GetPending(other) == s.GetPending(other)
    ensures s.SetPending(phone, scenarioId).calls == s.calls
  {
  }

  /** An operation on one call never changes what another call holds. */
  lemma OtherCallsUntouched(s: Snapshot, sid: string, other: string, phone: string, scenarioId: string,
                            status: CallStatus, turn: int, text: string, e: CallEvent, now: Timestamp)
    requires sid != other
    ensures s.CreateCallSession(sid, phone, scenarioId, now).View(other) == s.View(other)
    ensures s.UpdateCallStatus(sid, status, now).View(other) == s.View(other)
    ensures s.IncrementTurn(sid).0.View(other) == s.View(other)
    ensures s.SetCurrentTurn(sid, turn).View(other) == s.View(other)
    ensures s.LogEvent(sid, e).View(other) == s.View(other)
    ensures s.AddTranscriptEntry(sid, turn, scenarioId, text, now).View(other) == s.View(other)
  {
  }

  // ---------------------------------------------------------------------
  // Key names

  function CallKey(sid: string): string { "call:" + sid }
  function EventsKey(sid: string): string { "events:" + sid }
  function TranscriptKey(sid: string): string { "transcript:" + sid }
  function PendingKey(phone: string): string { "pending_call:" + phone }

  lemma PrefixInjective(p: string, a: string, b: string)
    requires p + a == p + b
    ensures a == b
  {
    assert a == (p + a)[|p|..];
    assert b == (p + b)[|p|..];
  }

  /**
    Distinct calls (and phones) have distinct keys, and the key families
    never meet, so one map per family loses nothing.
   */
  lemma KeysSeparate(a: string, b: string)
    ensures CallKey(a) == CallKey(b) ==> a == b
    ensures EventsKey(a) == EventsKey(b) ==> a == b
    ensures TranscriptKey(a) == TranscriptKey(b) ==> a == b
    ensures PendingKey(a) == PendingKey(b) ==> a == b
    ensures CallKey(a) != EventsKey(b) && CallKey(a) != TranscriptKey(b) && CallKey(a) != PendingKey(b)
    ensures EventsKey(a) != TranscriptKey(b) && EventsKey(a) != PendingKey(b)
    ensures TranscriptKey(a) != PendingKey(b)
  {
    if CallKey(a) == CallKey(b) { PrefixInjective("call:", a, b); }
    if EventsKey(a) == EventsKey(b) { PrefixInjective("events:", a, b); }
    if TranscriptKey(a) == TranscriptKey(b) { PrefixInjective("transcript:", a, b); }
    if PendingKey(a) == PendingKey(b) { PrefixInjective("pending_call:", a, b); }
    assert CallKey(a)[0] == 'c' && EventsKey(b)[0] == 'e' && TranscriptKey(b)[0] == 't' && PendingKey(b)[0] == 'p';
    assert EventsKey(a)[0] == 'e' && TranscriptKey(a)[0] == 't';
  }
}
