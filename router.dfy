/**
  The call router: placing a call, the three provider webhooks (call answered,
  speech gathered, status changed) and the audit view of one call.

  Each webhook is a method over the store that returns the call-control
  instructions of its reply. Its new state and reply are exactly those of a
  pure effect function on the store's snapshot, and the lemmas below state
  what those effects do.
 */
module Router {
  import opened Wrappers
  import opened Text
  import opened Models
  import opened Scenarios
  import opened Detection
  import opened Store

  /** The deployment settings the router reads. */
  datatype Settings = Settings(baseUrl: string, twilioPhoneNumber: string)

  /** One instruction of a call-control reply, in the order the reply gives them. */
  datatype Verb =
    | Play(url: string)
    | Say(text: string)
    | Gather(input: string, action: string, httpMethod: string, timeout: int, speechTimeout: string)
    | Redirect(url: string)
    | Pause(length: int)
    | Hangup

  /** A webhook's reply: instructions, or the 500 an uncaught KeyError or ValueError produces. */
  datatype WebhookReply = Instructions(verbs: seq<Verb>) | ServerError

  const StartApology := "Sorry, there was an error. Goodbye."
  const NotConfigured := "Sorry, scenario not configured properly."
  const GatherApology := "Error occurred. Goodbye."
  const Farewell := "Thank you. Goodbye."

  function GatherUrl(settings: Settings): string {
    settings.baseUrl + "/api/call/webhook/gather"
  }

  /** Listen for speech, and come back to the gather webhook when none arrives. */
  function ListenVerbs(settings: Settings): seq<Verb> {
    [Gather("speech", GatherUrl(settings), "POST", 8, "auto"), Redirect(GatherUrl(settings))]
  }

  /** Python truthiness of an optional string: present and non-empty. */
  predicate Truthy(o: Option<string>) {
    o.Some? && o.value != ""
  }

  // ---------------------------------------------------------------------
  // Pure parts

  /** `status_mapping`, in dictionary order. */
  const StatusMapping: seq<(string, CallStatus)> := [
    ("initiated", Initiated),
    ("ringing", Ringing),
    ("in-progress", InProgress),
    ("completed", Completed),
    ("busy", Busy),
    ("no-answer", NoAnswer),
    ("failed", Failed)
  ]

  /** `status_mapping.get(call_status, CallStatus.FAILED)`; an absent form field is `None`. */
  function MapProviderStatus(providerStatus: Option<string>): (status: CallStatus)
    ensures providerStatus.None? ==> status == Failed
    ensures providerStatus.Some? && (exists k | 0 <= k < |StatusMapping| :: StatusMapping[k].0 == providerStatus.value) ==>
      (providerStatus.value, status) in StatusMapping
    ensures status != Failed ==> providerStatus.Some? && (providerStatus.value, status) in StatusMapping
  {
    if providerStatus.None? then Failed else Lookup(StatusMapping, providerStatus.value).GetOr(Failed)
  }

  /** The provider strings of the mapping are distinct. */
  lemma StatusMappingKeysDistinct()
    ensures forall i, j | 0 <= i < j < |StatusMapping| :: StatusMapping[i].0 != StatusMapping[j].0
  {
  }

  /** The seven provider strings go to their statuses. */
  lemma MapProviderStatusTable()
    ensures MapProviderStatus(Some("initiated")) == Initiated
    ensures MapProviderStatus(Some("ringing")) == Ringing
    ensures MapProviderStatus(Some("in-progress")) == InProgress
    ensures MapProviderStatus(Some("completed")) == Completed
    ensures MapProviderStatus(Some("busy")) == Busy
    ensures MapProviderStatus(Some("no-answer")) == NoAnswer
    ensures MapProviderStatus(Some("failed")) == Failed
  {
    var t := StatusMapping;
    StatusMappingKeysDistinct();
    LookupDistinct(t, 0);
    LookupDistinct(t, 1);
    LookupDistinct(t, 2);
    LookupDistinct(t, 3);
    LookupDistinct(t, 4);
    LookupDistinct(t, 5);
    LookupDistinct(t, 6);
  }

  /** Every other string, and a missing field, maps to failed: the mapping is total. */
  lemma MapProviderStatusOther(s: Option<string>)
    requires s.Some? ==> s.value !in {"initiated", "ringing", "in-progress", "completed", "busy", "no-answer", "failed"}
    ensures MapProviderStatus(s) == Failed
  {
    if s.Some? {
      var t := StatusMapping;
      assert forall k | 0 <= k < |t| :: t[k].0 in {"initiated", "ringing", "in-progress", "completed", "busy", "no-answer", "failed"};
    }
  }

  /** Only the provider's "completed" maps to completed, so only it ends the call with an event. */
  lemma CompletedOnlyFromCompleted(s: Option<string>)
    ensures MapProviderStatus(s) == Completed <==> s == Some("completed")
  {
    CompletedMapsToCompleted();
    if s.Some? && s.value != "completed" {
      NoOtherKeyCompletes(s.value);
    }
  }

  lemma CompletedMapsToCompleted()
    ensures MapProviderStatus(Some("completed")) == Completed
  {
    StatusMappingKeysDistinct();
    LookupDistinct(StatusMapping, 3);
  }

  /** Completed is held by the "completed" entry alone. */
  lemma NoOtherKeyCompletes(key: string)
    requires key != "completed"
    ensures Lookup(StatusMapping, key) != Some(Completed)
  {
    var t := StatusMapping;
    assert forall k | 0 <= k < |t| :: t[k].1 == Completed ==> t[k].0 == "completed";
    LookupSoleOwner(t, key, Completed, "completed");
  }

  /** The audit's `vulnerabilities`: the events whose type is sensitive_data_detected, in order. */
  function Vulnerabilities(events: seq<CallEvent>): (r: seq<CallEvent>)
    ensures |r| <= |events|
    ensures forall e | e in r :: e in events && e.eventType == SensitiveDataDetected
  {
    if events == [] then []
    else
      var rest := Vulnerabilities(events[..|events| - 1]);
      var last := events[|events| - 1];
      if last.eventType == SensitiveDataDetected then rest + [last] else rest
  }

  /** Filtering distributes over concatenation, so the kept events keep their relative order. */
  lemma {:induction false} VulnerabilitiesAppend(a: seq<CallEvent>, b: seq<CallEvent>)
    ensures Vulnerabilities(a + b) == Vulnerabilities(a) + Vulnerabilities(b)
    decreases |b|
  {
    if b == [] {
      assert a + b == a;
    } else {
      var n := |b| - 1;
      assert (a + b)[..|a + b| - 1] == a + b[..n];
      VulnerabilitiesAppend(a, b[..n]);
    }
  }

  /** An event is a vulnerability exactly when it is a logged sensitive_data_detected event. */
  lemma {:induction false} VulnerabilitiesMembers(events: seq<CallEvent>, e: CallEvent)
    ensures e in Vulnerabilities(events) <==> e in events && e.eventType == SensitiveDataDetected
    decreases |events|
  {
    if events != [] {
      var n := |events| - 1;
      VulnerabilitiesMembers(events[..n], e);
      assert events == events[..n] + [events[n]];
    }
  }

  /** `next((line for line in lines if line.turn == turn [and line.speaker == "scammer"]), None)`. */
  function FindLine(lines: seq<ScenarioLine>, turn: int, scammerOnly: bool): (r: Option<ScenarioLine>)
    ensures r.Some? ==> r.value in lines && r.value.turn == turn && (scammerOnly ==> r.value.speaker == "scammer")
    ensures r.None? <==> forall k | 0 <= k < |lines| :: !(lines[k].turn == turn && (scammerOnly ==> lines[k].speaker == "scammer"))
    ensures r.Some? ==> exists k | 0 <= k < |lines| ::
      (lines[k] == r.value && forall j | 0 <= j < k :: !(lines[j].turn == turn && (scammerOnly ==> lines[j].speaker == "scammer")))
  {
    if lines == [] then None
    else if lines[0].turn == turn && (scammerOnly ==> lines[0].speaker == "scammer") then Some(lines[0])
    else
      var r := FindLine(lines[1..], turn, scammerOnly);
      assert forall k | 1 <= k < |lines| :: lines[k] == lines[1..][k - 1];
      FirstLineShifted(lines, turn, scammerOnly, r);
      r
  }

  /** A first qualifying line of `lines[1..]` is a first qualifying line of `lines` when `lines[0]` does not qualify. */
  lemma FirstLineShifted(lines: seq<ScenarioLine>, turn: int, scammerOnly: bool, r: Option<ScenarioLine>)
    requires lines != [] && !(lines[0].turn == turn && (scammerOnly ==> lines[0].speaker == "scammer"))
    requires r.Some? ==> exists k | 0 <= k < |lines[1..]| ::
      (lines[1..][k] == r.value && forall j | 0 <= j < k :: !(lines[1..][j].turn == turn && (scammerOnly ==> lines[1..][j].speaker == "scammer")))
    ensures r.Some? ==> exists k | 0 <= k < |lines| ::
      (lines[k] == r.value && forall j | 0 <= j < k :: !(lines[j].turn == turn && (scammerOnly ==> lines[j].speaker == "scammer")))
  {
    if r.Some? {
      var k :| 0 <= k < |lines[1..]| && lines[1..][k] == r.value &&
        forall j | 0 <= j < k :: !(lines[1..][j].turn == turn && (scammerOnly ==> lines[1..][j].speaker == "scammer"));
      assert lines[k + 1] == r.value;
      forall j | 0 <= j < k + 1 ensures !(lines[j].turn == turn && (scammerOnly ==> lines[j].speaker == "scammer")) {
        if j > 0 { assert lines[j] == lines[1..][j - 1]; }
      }
    }
  }

  /** `any(line.turn > turn and line.speaker == "user" for line in lines)`. */
  predicate HasMoreUserTurns(lines: seq<ScenarioLine>, turn: int) {
    exists k | 0 <= k < |lines| :: lines[k].turn > turn && lines[k].speaker == "user"
  }

  /** In a well-formed script the line of a turn is the one at index turn - 1. */
  lemma FindLineInScript(s: Scenario, turn: int, scammerOnly: bool)
    requires WellFormedScript(s)
    ensures 1 <= turn <= |s.lines| && (scammerOnly ==> turn % 2 == 1) ==> FindLine(s.lines, turn, scammerOnly) == Some(s.lines[turn - 1])
    ensures !(1 <= turn <= |s.lines| && (scammerOnly ==> turn % 2 == 1)) ==> FindLine(s.lines, turn, scammerOnly) == None
  {
    if 1 <= turn <= |s.lines| && (scammerOnly ==> turn % 2 == 1) {
      FindLinePresent(s.lines, turn, scammerOnly);
    } else {
      FindLineAbsent(s.lines, turn, scammerOnly);
    }
  }

  lemma FindLinePresent(lines: seq<ScenarioLine>, turn: int, scammerOnly: bool)
    requires forall k | 0 <= k < |lines| :: LineShape(lines[k], k)
    requires 1 <= turn <= |lines| && (scammerOnly ==> turn % 2 == 1)
    ensures FindLine(lines, turn, scammerOnly) == Some(lines[turn - 1])
  {
    var r := FindLine(lines, turn, scammerOnly);
    assert LineShape(lines[turn - 1], turn - 1);
    var k :| 0 <= k < |lines| && lines[k] == r.value;
    assert LineShape(lines[k], k);
  }

  lemma FindLineAbsent(lines: seq<ScenarioLine>, turn: int, scammerOnly: bool)
    requires forall k | 0 <= k < |lines| :: LineShape(lines[k], k)
    requires !(1 <= turn <= |lines| && (scammerOnly ==> turn % 2 == 1))
    ensures FindLine(lines, turn, scammerOnly) == None
  {
    var r := FindLine(lines, turn, scammerOnly);
    if r.Some? {
      assert false;
    }
  }

  /** In a well-formed script a user line follows turn t exactly when t + 1 < the number of lines, or t + 2 does. */
  lemma HasMoreUserTurnsInScript(s: Scenario, turn: int)
    requires WellFormedScript(s) && turn >= 0 && turn % 2 == 1
    ensures HasMoreUserTurns(s.lines, turn) <==> turn + 1 <= |s.lines|
  {
    if turn + 1 <= |s.lines| {
      assert LineShape(s.lines[turn], turn);
    }
  }

  /** adith_venkatesh has no scammer line at turn 3, so the first reply ends the call. */
  lemma AdithEndsAfterFirstReply()
    ensures FindLine(AdithVenkatesh.lines, 3, true) == None
  {
    var lines := AdithVenkatesh.lines;
    assert |lines| == 2 && lines[0].turn == 1 && lines[1].turn == 2;
  }

  /**
    The scenario lookup the handlers consult (`get_scenario`). The handlers
    and their effects take it as a parameter, so that their lemmas hold for
    any catalog whose scripts are well formed; the deployed lookup is
    `GetScenario`.
   */
  type ScenarioLookup = string -> Result<Scenario, string>

  /** Every script the lookup returns is well formed. */
  ghost predicate WellFormedCatalog(scenarios: ScenarioLookup) {
    forall id :: scenarios(id).Success? ==> WellFormedScript(scenarios(id).value)
  }

  /** The deployed catalog is well formed. */
  lemma DeployedCatalogWellFormed()
    ensures WellFormedCatalog(GetScenario)
  {
    CatalogWellFormed();
  }

  /** In a well-formed catalog every scenario starts with a scammer line at turn 1. */
  lemma CatalogFirstLine(scenarios: ScenarioLookup, id: string)
    requires WellFormedCatalog(scenarios)
    requires scenarios(id).Success?
    ensures var sc := scenarios(id).value;
      FindLine(sc.lines, 1, false) == Some(sc.lines[0]) && sc.lines[0].speaker == "scammer"
  {
    FindLineInScript(scenarios(id).value, 1, false);
  }

  // ---------------------------------------------------------------------
  // Session recovery

  /**
    The pending-call lookup: `pending_call:{To}`, then `pending_call:+{To
    without leading '+'}`, then `pending_call:{To without leading '+'}`, each
    tried only when the one before is missing or empty.
   */
  function RecoverScenarioId(s: Snapshot, to: string): Option<string> {
    var a := s.GetPending(to);
    var b := s.GetPending("+" + StripLeadingPlus(to));
    var c := s.GetPending(StripLeadingPlus(to));
    if Truthy(a) then a else if Truthy(b) then b else c
  }

  /** The lookup hits when one of the three spellings holds a non-empty id, and then returns the first such. */
  lemma RecoverScenarioIdOrder(s: Snapshot, to: string)
    ensures var a := s.GetPending(to);
      var b := s.GetPending("+" + StripLeadingPlus(to));
      var c := s.GetPending(StripLeadingPlus(to));
      var r := RecoverScenarioId(s, to);
      && (Truthy(r) <==> Truthy(a) || Truthy(b) || Truthy(c))
      && (Truthy(a) ==> r == a)
      && (!Truthy(a) && Truthy(b) ==> r == b)
      && (!Truthy(a) && !Truthy(b) && Truthy(c) ==> r == c)
  {
  }

  /** Both webhooks: with no session and a usable `To`, create one from a pending key when it hits. */
  function Recover(s: Snapshot, sid: string, to: Option<string>, now: Timestamp): Snapshot {
    if s.GetCallSession(sid).None? && Truthy(to) then
      var id := RecoverScenarioId(s, to.value);
      if Truthy(id) then s.CreateCallSession(sid, to.value, id.value, now) else s
    else s
  }

  /** Recovery creates a session only on a pending hit, and never touches an existing one. */
  lemma RecoverCases(s: Snapshot, sid: string, to: Option<string>, now: Timestamp)
    ensures s.GetCallSession(sid).Some? ==> Recover(s, sid, to, now) == s
    ensures s.GetCallSession(sid).None? && !(Truthy(to) && Truthy(RecoverScenarioId(s, to.value))) ==>
      Recover(s, sid, to, now) == s && Recover(s, sid, to, now).GetCallSession(sid).None?
    ensures s.GetCallSession(sid).None? && Truthy(to) && Truthy(RecoverScenarioId(s, to.value)) ==>
      Recover(s, sid, to, now) == s.CreateCallSession(sid, to.value, RecoverScenarioId(s, to.value).value, now)
      && Recover(s, sid, to, now).GetCallSession(sid) == Some(NewSession(sid, to.value, RecoverScenarioId(s, to.value).value, now))
  {
  }

  // ---------------------------------------------------------------------
  // The call-answered webhook

  function ScammerSpoke(turn: int, text: string, now: Timestamp): CallEvent {
    CallEvent(EventType.ScammerSpoke, now, map["turn" := Int(turn), "text" := Str(text)])
  }

  /** Play the cached audio of a line when there is some, else speak its text. */
  function Speak(audio: Option<string>, text: string): Verb {
    if Truthy(audio) then Play(audio.value) else Say(text)
  }

  /** What `webhook_call_start` does to the store and replies. */
  function CallStartEffect(s: Snapshot, scenarios: ScenarioLookup, sid: string, to: Option<string>, settings: Settings, now: Timestamp): (Snapshot, WebhookReply) {
    var s1 := Recover(s, sid, to, now);
    match s1.GetCallSession(sid)
    case None => (s1, Instructions([Say(StartApology), Hangup]))
    case Some(session) =>
      if session.scenarioId.None? then (s1, ServerError)
      else
        var id := session.scenarioId.value;
        match scenarios(id)
        case Failure(_) => (s1, ServerError)
        case Success(scenario) =>
          var s2 := s1.UpdateCallStatus(sid, InProgress, now).LogEvent(sid, CallEvent(CallAnswered, now, map["call_sid" := Str(sid)]));
          match FindLine(scenario.lines, 1, false)
          case None => (s2, Instructions([Say(NotConfigured), Hangup]))
          case Some(line) =>
            var s3 := s2.LogEvent(sid, ScammerSpoke(1, line.text, now)).AddTranscriptEntry(sid, 1, "scammer", line.text, now);
            (s3, Instructions([Speak(s2.GetCachedAudioUrl(id, 1), line.text)] + ListenVerbs(settings)))
  }

  /** Without a session and without a pending hit the call is refused and still has no session. */
  lemma CallStartRefused(s: Snapshot, scenarios: ScenarioLookup, sid: string, to: Option<string>, settings: Settings, now: Timestamp)
    requires s.GetCallSession(sid).None?
    requires !(Truthy(to) && Truthy(RecoverScenarioId(s, to.value)))
    ensures CallStartEffect(s, scenarios, sid, to, settings, now) == (s, Instructions([Say(StartApology), Hangup]))
    ensures CallStartEffect(s, scenarios, sid, to, settings, now).0.GetCallSession(sid).None?
  {
    RecoverCases(s, sid, to, now);
  }

  /**
    A call whose session names a catalog scenario is answered: status
    in_progress, events call_answered then scammer_spoke for turn 1, the
    turn-1 transcript entry, and a reply that plays turn 1 and listens.
   */
  lemma CallStartAnswered(s: Snapshot, scenarios: ScenarioLookup, sid: string, to: Option<string>, settings: Settings, now: Timestamp)
    requires Recover(s, sid, to, now).GetCallSession(sid).Some?
    requires Recover(s, sid, to, now).GetCallSession(sid).value.scenarioId.Some?
    requires WellFormedCatalog(scenarios)
    requires scenarios(Recover(s, sid, to, now).GetCallSession(sid).value.scenarioId.value).Success?
    ensures var s1 := Recover(s, sid, to, now);
      var id := s1.GetCallSession(sid).value.scenarioId.value;
      var line := scenarios(id).value.lines[0];
      var (r, reply) := CallStartEffect(s, scenarios, sid, to, settings, now);
      && r.Record(sid).status == Some("in_progress")
      && r.Record(sid).currentTurn == s1.Record(sid).currentTurn
      && r.EventsOf(sid) == s1.EventsOf(sid) + [CallEvent(CallAnswered, now, map["call_sid" := Str(sid)]), ScammerSpoke(1, line.text, now)]
      && r.TranscriptOf(sid) == s1.TranscriptOf(sid) + [TranscriptEntry(1, "scammer", line.text, now)]
      && reply == Instructions([Speak(s.GetCachedAudioUrl(id, 1), line.text)] + ListenVerbs(settings))
  {
    var s1 := Recover(s, sid, to, now);
    CatalogFirstLine(scenarios, s1.GetCallSession(sid).value.scenarioId.value);
  }

  // ---------------------------------------------------------------------
  // The speech-gathered webhook

  function UserSpoke(turn: int, text: string, now: Timestamp): CallEvent {
    CallEvent(EventType.UserSpoke, now, map["turn" := Int(turn), "text" := Str(text)])
  }

  function Detected(turn: int, found: seq<SensitiveDataMatch>, now: Timestamp): CallEvent {
    CallEvent(SensitiveDataDetected, now, map["turn" := Int(turn), "matches" := MatchList(found)])
  }

  /** No speech: replay the current line (cached audio, else its scammer text, else nothing) and listen again. */
  function Reprompt(s: Snapshot, scenarios: ScenarioLookup, session: SessionRecord, settings: Settings): WebhookReply
    requires session.currentTurn.Some?
  {
    if session.scenarioId.None? then ServerError
    else
      var id := session.scenarioId.value;
      var turn := session.currentTurn.value;
      match scenarios(id)
      case Failure(_) => ServerError
      case Success(scenario) =>
        var audio := s.GetCachedAudioUrl(id, turn);
        var line := FindLine(scenario.lines, turn, true);
        var replay := if Truthy(audio) then [Play(audio.value)] else if line.Some? then [Say(line.value.text)] else [];
        Instructions(replay + ListenVerbs(settings))
  }

  /** After the reply is recorded: play the scammer line two turns on, or say goodbye. */
  function Advance(s: Snapshot, scenarios: ScenarioLookup, sid: string, session: SessionRecord, settings: Settings, now: Timestamp): (Snapshot, WebhookReply)
    requires session.currentTurn.Some?
  {
    if session.scenarioId.None? then (s, ServerError)
    else
      var id := session.scenarioId.value;
      var next := session.currentTurn.value + 2;
      match scenarios(id)
      case Failure(_) => (s, ServerError)
      case Success(scenario) =>
        match FindLine(scenario.lines, next, true)
        case None => (s, Instructions([Say(Farewell), Hangup]))
        case Some(line) => SpeakLine(s, sid, id, scenario.lines, line, next, settings, now)
  }

  /** Speak `line` at turn `next`: log it, transcribe it, move the turn there, then listen or hang up. */
  function SpeakLine(s: Snapshot, sid: string, id: string, lines: seq<ScenarioLine>, line: ScenarioLine, next: int,
                     settings: Settings, now: Timestamp): (Snapshot, WebhookReply)
  {
    var s1 := s.LogEvent(sid, ScammerSpoke(next, line.text, now))
               .AddTranscriptEntry(sid, next, "scammer", line.text, now)
               .SetCurrentTurn(sid, next);
    var ending := if HasMoreUserTurns(lines, next) then ListenVerbs(settings) else [Pause(1), Hangup];
    (s1, Instructions([Speak(s.GetCachedAudioUrl(id, next), line.text)] + ending))
  }

  /** Record a non-empty reply at turn + 1, with a detection event when `found` is non-empty. */
  function RecordReply(s: Snapshot, sid: string, userTurn: int, speech: string, found: seq<SensitiveDataMatch>, now: Timestamp): Snapshot {
    var s1 := s.LogEvent(sid, UserSpoke(userTurn, speech, now)).AddTranscriptEntry(sid, userTurn, "user", speech, now);
    if found != [] then s1.LogEvent(sid, Detected(userTurn, found, now)) else s1
  }

  /** What `webhook_gather_speech` does when the detector reports `found` for the speech. */
  function GatherEffectWith(s: Snapshot, scenarios: ScenarioLookup, sid: string, speech: string, to: Option<string>, found: seq<SensitiveDataMatch>,
                            settings: Settings, now: Timestamp): (Snapshot, WebhookReply)
  {
    var s1 := Recover(s, sid, to, now);
    match s1.GetCallSession(sid)
    case None => (s1, Instructions([Say(GatherApology), Hangup]))
    case Some(session) =>
      if session.currentTurn.None? then (s1, ServerError)
      else if speech == "" then (s1, Reprompt(s1, scenarios, session, settings))
      else Advance(RecordReply(s1, sid, session.currentTurn.value + 1, speech, found, now), scenarios, sid, session, settings, now)
  }

  /** What `webhook_gather_speech` does: the detector is `detect_sensitive_data`. */
  function GatherEffect(s: Snapshot, scenarios: ScenarioLookup, sid: string, speech: string, to: Option<string>, settings: Settings, now: Timestamp): (Snapshot, WebhookReply) {
    GatherEffectWith(s, scenarios, sid, speech, to, Detect(speech), settings, now)
  }

  /** Empty speech on an existing session changes nothing in the store. */
  lemma EmptySpeechMutatesNothing(s: Snapshot, scenarios: ScenarioLookup, sid: string, to: Option<string>, settings: Settings, now: Timestamp)
    requires s.GetCallSession(sid).Some?
    ensures GatherEffect(s, scenarios, sid, "", to, settings, now).0 == s
    ensures s.Record(sid).currentTurn.Some? ==>
      GatherEffect(s, scenarios, sid, "", to, settings, now).1 == Reprompt(s, scenarios, s.Record(sid), settings)
  {
    RecoverCases(s, sid, to, now);
  }

  /** The reprompt of a catalog scenario replays the line at the current turn, then listens. */
  lemma RepromptReplays(s: Snapshot, scenarios: ScenarioLookup, session: SessionRecord, settings: Settings)
    requires WellFormedCatalog(scenarios)
    requires session.currentTurn.Some? && session.scenarioId.Some?
    requires scenarios(session.scenarioId.value).Success?
    ensures var id := session.scenarioId.value;
      var turn := session.currentTurn.value;
      var lines := scenarios(id).value.lines;
      var audio := s.GetCachedAudioUrl(id, turn);
      && Reprompt(s, scenarios, session, settings).Instructions?
      && var verbs := Reprompt(s, scenarios, session, settings).verbs;
      && verbs[|verbs| - 2..] == ListenVerbs(settings)
      && (Truthy(audio) ==> verbs == [Play(audio.value)] + ListenVerbs(settings))
      && (!Truthy(audio) && 1 <= turn <= |lines| && turn % 2 == 1 ==>
            verbs == [Say(lines[turn - 1].text)] + ListenVerbs(settings))
      && (!Truthy(audio) && !(1 <= turn <= |lines| && turn % 2 == 1) ==> verbs == ListenVerbs(settings))
  {
    var sc := scenarios(session.scenarioId.value).value;
    FindLineInScript(sc, session.currentTurn.value, true);
  }

  /**
    Non-empty speech is recorded as user_spoke and a user transcript entry at
    turn + 1, followed by a sensitive_data_detected event exactly when the
    detector found something.
   */
  lemma {:induction false} ReplyRecorded(s: Snapshot, sid: string, userTurn: int, speech: string, found: seq<SensitiveDataMatch>, now: Timestamp)
    ensures var r := RecordReply(s, sid, userTurn, speech, found, now);
      && r.EventsOf(sid) == s.EventsOf(sid) + [UserSpoke(userTurn, speech, now)] + (if found != [] then [Detected(userTurn, found, now)] else [])
      && r.TranscriptOf(sid) == s.TranscriptOf(sid) + [TranscriptEntry(userTurn, "user", speech, now)]
      && r.calls == s.calls && r.audio == s.audio && r.pending == s.pending
  {
    var s1 := s.LogEvent(sid, UserSpoke(userTurn, speech, now));
    LogEventAppends(s, sid, UserSpoke(userTurn, speech, now));
    var s2 := s1.AddTranscriptEntry(sid, userTurn, "user", speech, now);
    AddTranscriptAppends(s1, sid, userTurn, "user", speech, now);
    if found != [] {
      LogEventAppends(s2, sid, Detected(userTurn, found, now));
    }
  }

  /** The detector's findings are used only once a session with a turn receives non-empty speech. */
  lemma GatherBranch(s: Snapshot, scenarios: ScenarioLookup, sid: string, speech: string, to: Option<string>,
                     found: seq<SensitiveDataMatch>, settings: Settings, now: Timestamp)
    ensures var s1 := Recover(s, sid, to, now);
      var session := s1.GetCallSession(sid);
      GatherEffectWith(s, scenarios, sid, speech, to, found, settings, now) ==
        if session.Some? && session.value.currentTurn.Some? && speech != "" then
          Advance(RecordReply(s1, sid, session.value.currentTurn.value + 1, speech, found, now), scenarios, sid, session.value, settings, now)
        else GatherEffectWith(s, scenarios, sid, speech, to, [], settings, now)
  {
  }

  /** The three early answers of the gather webhook: no session, no current turn, no speech. */
  lemma GatherEarly(s: Snapshot, scenarios: ScenarioLookup, sid: string, speech: string, to: Option<string>, settings: Settings, now: Timestamp)
    ensures var s1 := Recover(s, sid, to, now);
      var session := s1.GetCallSession(sid);
      var g := GatherEffect(s, scenarios, sid, speech, to, settings, now);
      && (session.None? ==> g == (s1, Instructions([Say(GatherApology), Hangup])))
      && (session.Some? && session.value.currentTurn.None? ==> g == (s1, ServerError))
      && (session.Some? && session.value.currentTurn.Some? && speech == "" ==> g == (s1, Reprompt(s1, scenarios, session.value, settings)))
  {
  }

  /** A non-empty reply on a session with a current turn is recorded with what the detector finds, then answered. */
  lemma GatherActive(s: Snapshot, scenarios: ScenarioLookup, sid: string, speech: string, to: Option<string>, settings: Settings, now: Timestamp)
    requires var session := Recover(s, sid, to, now).GetCallSession(sid);
      session.Some? && session.value.currentTurn.Some? && speech != ""
    ensures var s1 := Recover(s, sid, to, now);
      var session := s1.GetCallSession(sid).value;
      GatherEffect(s, scenarios, sid, speech, to, settings, now) ==
        Advance(RecordReply(s1, sid, session.currentTurn.value + 1, speech, Detect(speech), now), scenarios, sid, session, settings, now)
  {
    GatherBranch(s, scenarios, sid, speech, to, Detect(speech), settings, now);
  }

  /** What the detector found changes the logged events and nothing else: not the reply, sessions, transcripts or caches. */
  lemma DetectionOnlyLogs(s: Snapshot, scenarios: ScenarioLookup, sid: string, speech: string, to: Option<string>,
                          f1: seq<SensitiveDataMatch>, f2: seq<SensitiveDataMatch>, settings: Settings, now: Timestamp)
    ensures var g1 := GatherEffectWith(s, scenarios, sid, speech, to, f1, settings, now);
      var g2 := GatherEffectWith(s, scenarios, sid, speech, to, f2, settings, now);
      g1.1 == g2.1 && SameButEvents(g1.0, g2.0)
  {
    var g1 := GatherEffectWith(s, scenarios, sid, speech, to, f1, settings, now);
    var g2 := GatherEffectWith(s, scenarios, sid, speech, to, f2, settings, now);
    GatherBranch(s, scenarios, sid, speech, to, f1, settings, now);
    GatherBranch(s, scenarios, sid, speech, to, f2, settings, now);
    var s1 := Recover(s, sid, to, now);
    var session := s1.GetCallSession(sid);
    if session.Some? && session.value.currentTurn.Some? && speech != "" {
      var u := session.value.currentTurn.value + 1;
      ReplyRecorded(s1, sid, u, speech, f1, now);
      ReplyRecorded(s1, sid, u, speech, f2, now);
      var a := RecordReply(s1, sid, u, speech, f1, now);
      var b := RecordReply(s1, sid, u, speech, f2, now);
      assert SameButEvents(a, b);
      AdvanceFrame(a, b, scenarios, sid, session.value, settings, now);
      SameEffects(g1, g2, Advance(a, scenarios, sid, session.value, settings, now), Advance(b, scenarios, sid, session.value, settings, now));
    } else {
      SameEffects(g1, g2, g1, g1);
    }
  }

  lemma SameEffects(g1: (Snapshot, WebhookReply), g2: (Snapshot, WebhookReply), x: (Snapshot, WebhookReply), y: (Snapshot, WebhookReply))
    requires g1 == x && g2 == y && x.1 == y.1 && SameButEvents(x.0, y.0)
    ensures g1.1 == g2.1 && SameButEvents(g1.0, g2.0)
  {
  }

  /** Two snapshots that differ at most in their logged events. */
  predicate SameButEvents(a: Snapshot, b: Snapshot) {
    a.calls == b.calls && a.transcripts == b.transcripts && a.audio == b.audio && a.pending == b.pending
  }

  /** Playing a scammer line keeps two snapshots that differ only in events so. */
  lemma PlayFrame(a: Snapshot, b: Snapshot, sid: string, next: int, text: string, now: Timestamp)
    requires SameButEvents(a, b)
    ensures SameButEvents(
      a.LogEvent(sid, ScammerSpoke(next, text, now)).AddTranscriptEntry(sid, next, "scammer", text, now).SetCurrentTurn(sid, next),
      b.LogEvent(sid, ScammerSpoke(next, text, now)).AddTranscriptEntry(sid, next, "scammer", text, now).SetCurrentTurn(sid, next))
  {
    var ta := a.LogEvent(sid, ScammerSpoke(next, text, now));
    var tb := b.LogEvent(sid, ScammerSpoke(next, text, now));
    assert SameButEvents(ta, tb);
    var ua := ta.AddTranscriptEntry(sid, next, "scammer", text, now);
    var ub := tb.AddTranscriptEntry(sid, next, "scammer", text, now);
    assert SameButEvents(ua, ub);
  }

  /** `Advance` reads only the sessions and caches, and leaves the events aside. */
  lemma AdvanceFrame(a: Snapshot, b: Snapshot, scenarios: ScenarioLookup, sid: string, session: SessionRecord, settings: Settings, now: Timestamp)
    requires session.currentTurn.Some?
    requires SameButEvents(a, b)
    ensures Advance(a, scenarios, sid, session, settings, now).1 == Advance(b, scenarios, sid, session, settings, now).1
    ensures SameButEvents(Advance(a, scenarios, sid, session, settings, now).0, Advance(b, scenarios, sid, session, settings, now).0)
  {
    if session.scenarioId.Some? {
      var id := session.scenarioId.value;
      var next := session.currentTurn.value + 2;
      var sc := scenarios(id);
      if sc.Success? {
        var line := FindLine(sc.value.lines, next, true);
        if line.Some? {
          assert a.GetCachedAudioUrl(id, next) == b.GetCachedAudioUrl(id, next);
          PlayFrame(a, b, sid, next, line.value.text, now);
        }
      }
    }
  }

  /**
    With a scammer line two turns on, it is played and recorded and the turn
    becomes exactly turn + 2; the reply then listens again exactly when a user
    line comes later, and otherwise pauses one second and hangs up.
   */
  lemma AdvancePlays(s: Snapshot, scenarios: ScenarioLookup, sid: string, session: SessionRecord, settings: Settings, now: Timestamp)
    requires session.currentTurn.Some? && session.scenarioId.Some?
    requires scenarios(session.scenarioId.value).Success?
    requires FindLine(scenarios(session.scenarioId.value).value.lines, session.currentTurn.value + 2, true).Some?
    ensures var id := session.scenarioId.value;
      var next := session.currentTurn.value + 2;
      var lines := scenarios(id).value.lines;
      var line := FindLine(lines, next, true).value;
      var (r, reply) := Advance(s, scenarios, sid, session, settings, now);
      && r.Record(sid).currentTurn == Some(next)
      && r.EventsOf(sid) == s.EventsOf(sid) + [ScammerSpoke(next, line.text, now)]
      && r.TranscriptOf(sid) == s.TranscriptOf(sid) + [TranscriptEntry(next, "scammer", line.text, now)]
      && reply.Instructions?
      && reply.verbs[0] == Speak(s.GetCachedAudioUrl(id, next), line.text)
      && (HasMoreUserTurns(lines, next) <==> reply.verbs[1..] == ListenVerbs(settings))
      && (!HasMoreUserTurns(lines, next) <==> reply.verbs[1..] == [Pause(1), Hangup])
  {
  }

  /** Without a scammer line two turns on, the call says goodbye and the turn stays. */
  lemma AdvanceEnds(s: Snapshot, scenarios: ScenarioLookup, sid: string, session: SessionRecord, settings: Settings, now: Timestamp)
    requires session.currentTurn.Some? && session.scenarioId.Some?
    requires scenarios(session.scenarioId.value).Success?
    requires FindLine(scenarios(session.scenarioId.value).value.lines, session.currentTurn.value + 2, true).None?
    ensures Advance(s, scenarios, sid, session, settings, now) == (s, Instructions([Say(Farewell), Hangup]))
  {
  }

  /** Without a session and without a pending hit the gather is refused and nothing changes. */
  lemma GatherRefused(s: Snapshot, scenarios: ScenarioLookup, sid: string, speech: string, to: Option<string>, settings: Settings, now: Timestamp)
    requires s.GetCallSession(sid).None?
    requires !(Truthy(to) && Truthy(RecoverScenarioId(s, to.value)))
    ensures GatherEffect(s, scenarios, sid, speech, to, settings, now) == (s, Instructions([Say(GatherApology), Hangup]))
  {
    RecoverCases(s, sid, to, now);
  }

  // ---------------------------------------------------------------------
  // Odd turns

  /** Every stored turn is odd: the turn always names the last scammer line played. */
  predicate TurnsOdd(s: Snapshot) {
    forall sid | sid in s.calls :: s.calls[sid].currentTurn.Some? ==> s.calls[sid].currentTurn.value % 2 == 1
  }

  lemma RecoverKeepsTurnsOdd(s: Snapshot, sid: string, to: Option<string>, now: Timestamp)
    requires TurnsOdd(s)
    ensures TurnsOdd(Recover(s, sid, to, now))
  {
  }

  /** A status update leaves every stored turn as it was. */
  lemma UpdateKeepsTurnsOdd(s: Snapshot, sid: string, status: CallStatus, now: Timestamp)
    requires TurnsOdd(s)
    ensures TurnsOdd(s.UpdateCallStatus(sid, status, now))
  {
    UpdateCallStatusFields(s, sid, status, now);
  }

  lemma CallStartKeepsTurnsOdd(s: Snapshot, scenarios: ScenarioLookup, sid: string, to: Option<string>, settings: Settings, now: Timestamp)
    requires TurnsOdd(s)
    ensures TurnsOdd(CallStartEffect(s, scenarios, sid, to, settings, now).0)
  {
    RecoverKeepsTurnsOdd(s, sid, to, now);
    var s1 := Recover(s, sid, to, now);
    var e := CallStartEffect(s, scenarios, sid, to, settings, now).0;
    var session := s1.GetCallSession(sid);
    if session.Some? && session.value.scenarioId.Some? && scenarios(session.value.scenarioId.value).Success? {
      var s2 := s1.UpdateCallStatus(sid, InProgress, now);
      UpdateKeepsTurnsOdd(s1, sid, InProgress, now);
      assert e.calls == s2.calls;
      SameCallsKeepTurnsOdd(s2, e);
    } else {
      assert e == s1;
    }
  }

  lemma SameCallsKeepTurnsOdd(a: Snapshot, b: Snapshot)
    requires TurnsOdd(a) && a.calls == b.calls
    ensures TurnsOdd(b)
  {
  }

  /** A reply advances the turn by two, so odd turns stay odd. */
  lemma AdvanceKeepsTurnsOdd(s: Snapshot, scenarios: ScenarioLookup, sid: string, session: SessionRecord, settings: Settings, now: Timestamp)
    requires TurnsOdd(s) && session.currentTurn.Some? && session.currentTurn.value % 2 == 1
    ensures TurnsOdd(Advance(s, scenarios, sid, session, settings, now).0)
  {
    if session.scenarioId.Some? {
      var id := session.scenarioId.value;
      var next := session.currentTurn.value + 2;
      var sc := scenarios(id);
      if sc.Success? {
        var line := FindLine(sc.value.lines, next, true);
        if line.Some? {
          var t := s.LogEvent(sid, ScammerSpoke(next, line.value.text, now))
                    .AddTranscriptEntry(sid, next, "scammer", line.value.text, now);
          assert t.calls == s.calls;
          var u := t.SetCurrentTurn(sid, next);
          assert TurnsOdd(u);
          assert Advance(s, scenarios, sid, session, settings, now).0.calls == u.calls;
          SameCallsKeepTurnsOdd(u, Advance(s, scenarios, sid, session, settings, now).0);
        }
      }
    }
  }

  lemma GatherKeepsTurnsOdd(s: Snapshot, scenarios: ScenarioLookup, sid: string, speech: string, to: Option<string>, settings: Settings, now: Timestamp)
    requires TurnsOdd(s)
    ensures TurnsOdd(GatherEffect(s, scenarios, sid, speech, to, settings, now).0)
  {
    GatherWithKeepsTurnsOdd(s, scenarios, sid, speech, to, Detect(speech), settings, now);
  }

  /** Whatever the detector reports, the reply keeps every current turn odd. */
  lemma GatherWithKeepsTurnsOdd(s: Snapshot, scenarios: ScenarioLookup, sid: string, speech: string, to: Option<string>,
                                found: seq<SensitiveDataMatch>, settings: Settings, now: Timestamp)
    requires TurnsOdd(s)
    ensures TurnsOdd(GatherEffectWith(s, scenarios, sid, speech, to, found, settings, now).0)
  {
    RecoverKeepsTurnsOdd(s, sid, to, now);
    GatherBranch(s, scenarios, sid, speech, to, found, settings, now);
    var s1 := Recover(s, sid, to, now);
    if s1.GetCallSession(sid).Some? && s1.GetCallSession(sid).value.currentTurn.Some? && speech != "" {
      var session := s1.GetCallSession(sid).value;
      var u := session.currentTurn.value + 1;
      ReplyRecorded(s1, sid, u, speech, found, now);
      var r := RecordReply(s1, sid, u, speech, found, now);
      assert s1.calls[sid] == session;
      AdvanceKeepsTurnsOdd(r, scenarios, sid, session, settings, now);
    }
  }

  lemma StatusKeepsTurnsOdd(s: Snapshot, sid: string, providerStatus: Option<string>, duration: Option<string>, now: Timestamp)
    requires TurnsOdd(s)
    ensures TurnsOdd(StatusEffect(s, sid, providerStatus, duration, now))
  {
    UpdateKeepsTurnsOdd(s, sid, MapProviderStatus(providerStatus), now);
  }

  // ---------------------------------------------------------------------
  // The status webhook

  function OptionalStr(o: Option<string>): Value {
    if o.Some? then Str(o.value) else Null
  }

  /** What `webhook_status_update` does to the store. */
  function StatusEffect(s: Snapshot, sid: string, providerStatus: Option<string>, duration: Option<string>, now: Timestamp): Snapshot {
    var status := MapProviderStatus(providerStatus);
    var s1 := s.UpdateCallStatus(sid, status, now);
    if status == Completed then
      s1.LogEvent(sid, CallEvent(CallEnded, now, map["call_status" := OptionalStr(providerStatus), "duration" := OptionalStr(duration)]))
    else s1
  }

  /** The status is stored as mapped, and a call_ended event is appended exactly for "completed". */
  lemma StatusEffectEvents(s: Snapshot, sid: string, providerStatus: Option<string>, duration: Option<string>, now: Timestamp)
    ensures var r := StatusEffect(s, sid, providerStatus, duration, now);
      && r.Record(sid).status == Some(MapProviderStatus(providerStatus).Value())
      && (providerStatus == Some("completed") ==>
            r.EventsOf(sid) == s.EventsOf(sid) + [CallEvent(CallEnded, now, map["call_status" := Str("completed"), "duration" := OptionalStr(duration)])])
      && (providerStatus != Some("completed") ==> r.EventsOf(sid) == s.EventsOf(sid))
  {
    CompletedOnlyFromCompleted(providerStatus);
  }

  // ---------------------------------------------------------------------
  // Placing a call

  /** The outbound call request handed to the telephony provider. */
  datatype OutboundCall = OutboundCall(to: string, from: string, url: string, statusCallback: string, httpMethod: string)

  datatype InitiateReply = Accepted(response: CallInitiateResponse) | HttpError(code: int, detail: string)

  /**
    What `initiate_call` does, given the provider's answer to the outbound
    request (the new call's sid, or the message of the exception it raised).
    Also returns the outbound requests made.
   */
  function InitiateEffect(s: Snapshot, scenarios: ScenarioLookup, request: CallInitiateRequest, placement: Result<string, string>,
                          settings: Settings, now: Timestamp): (Snapshot, InitiateReply, seq<OutboundCall>)
  {
    match scenarios(request.scenarioId)
    case Failure(e) => (s, HttpError(400, e), [])
    case Success(scenario) =>
      var s1 := s.SetPending(request.phoneNumber, request.scenarioId);
      var call := OutboundCall(request.phoneNumber, settings.twilioPhoneNumber,
        settings.baseUrl + "/api/call/webhook/start", settings.baseUrl + "/api/call/webhook/status", "POST");
      match placement
      case Failure(message) => (s1, HttpError(500, "Failed to initiate call: " + message), [call])
      case Success(sid) =>
        var data := map["phone_number" := Str(request.phoneNumber), "scenario_id" := Str(request.scenarioId), "scenario_name" := Str(scenario.name)];
        var s2 := s1.CreateCallSession(sid, request.phoneNumber, request.scenarioId, now).LogEvent(sid, CallEvent(CallInitiated, now, data));
        (s2, Accepted(CallInitiateResponse(sid, Initiated, "Call initiated to " + request.phoneNumber)), [call])
  }

  /** An unknown scenario is refused with 400 before any write or outbound call. */
  lemma InitiateUnknownScenario(s: Snapshot, request: CallInitiateRequest, placement: Result<string, string>, settings: Settings, now: Timestamp)
    requires request.scenarioId !in CatalogKeys
    ensures InitiateEffect(s, GetScenario, request, placement, settings, now) ==
      (s, HttpError(400, "Scenario '" + request.scenarioId + "' not found"), [])
  {
  }

  /**
    A known scenario seeds the pending key, places one call and, once the
    provider returns a sid, creates that call's session and logs
    call_initiated.
   */
  lemma InitiateKnownScenario(s: Snapshot, request: CallInitiateRequest, sid: string, settings: Settings, now: Timestamp)
    requires request.scenarioId in CatalogKeys
    ensures var (r, reply, calls) := InitiateEffect(s, GetScenario, request, Success(sid), settings, now);
      && r.GetPending(request.phoneNumber) == Some(request.scenarioId)
      && r.GetCallSession(sid) == Some(NewSession(sid, request.phoneNumber, request.scenarioId, now))
      && |r.EventsOf(sid)| == |s.EventsOf(sid)| + 1 && r.EventsOf(sid)[|s.EventsOf(sid)|].eventType == CallInitiated
      && reply == Accepted(CallInitiateResponse(sid, Initiated, "Call initiated to " + request.phoneNumber))
      && |calls| == 1 && calls[0].to == request.phoneNumber
  {
  }

  /** Placing a call creates at most one session, at turn 1, so odd turns stay odd. */
  lemma InitiateKeepsTurnsOdd(s: Snapshot, scenarios: ScenarioLookup, request: CallInitiateRequest, placement: Result<string, string>,
                              settings: Settings, now: Timestamp)
    requires TurnsOdd(s)
    ensures TurnsOdd(InitiateEffect(s, scenarios, request, placement, settings, now).0)
  {
  }

  // ---------------------------------------------------------------------
  // The handlers

  /** The three pending-key reads, in order, stopping at the first non-empty one. */
  method PendingLookup(st: SessionStore, to: string) returns (id: Option<string>)
    ensures id == RecoverScenarioId(st.State(), to)
  {
    id := st.GetPending(to);
    if !Truthy(id) {
      id := st.GetPending("+" + StripLeadingPlus(to));
      if !Truthy(id) {
        id := st.GetPending(StripLeadingPlus(to));
      }
    }
  }

  /** The recovery both webhooks share, returning the session it ends with. */
  method RecoverSession(st: SessionStore, sid: string, to: Option<string>, now: Timestamp) returns (session: Option<SessionRecord>)
    modifies st
    ensures st.State() == Recover(old(st.State()), sid, to, now)
    ensures session == st.State().GetCallSession(sid)
  {
    session := st.GetCallSession(sid);
    if session.None? && Truthy(to) {
      var id := PendingLookup(st, to.value);
      if Truthy(id) {
        st.CreateCallSession(sid, to.value, id.value, now);
        session := st.GetCallSession(sid);
      }
    }
  }

  method WebhookCallStart(st: SessionStore, scenarios: ScenarioLookup, sid: string, to: Option<string>, settings: Settings, now: Timestamp) returns (reply: WebhookReply)
    modifies st
    ensures (st.State(), reply) == CallStartEffect(old(st.State()), scenarios, sid, to, settings, now)
  {
    var session := RecoverSession(st, sid, to, now);
    if session.None? {
      return Instructions([Say(StartApology), Hangup]);
    }
    if session.value.scenarioId.None? {
      return ServerError;
    }
    var id := session.value.scenarioId.value;
    var scenario := scenarios(id);
    if scenario.Failure? {
      return ServerError;
    }
    st.UpdateCallStatus(sid, InProgress, now);
    st.LogEvent(sid, CallEvent(CallAnswered, now, map["call_sid" := Str(sid)]));
    var line := FindLine(scenario.value.lines, 1, false);
    if line.None? {
      return Instructions([Say(NotConfigured), Hangup]);
    }
    var audio := st.GetCachedAudioUrl(id, 1);
    var verbs := [if Truthy(audio) then Play(audio.value) else Say(line.value.text)];
    st.LogEvent(sid, ScammerSpoke(1, line.value.text, now));
    st.AddTranscriptEntry(sid, 1, "scammer", line.value.text, now);
    verbs := verbs + ListenVerbs(settings);
    reply := Instructions(verbs);
  }

  method WebhookGatherSpeech(st: SessionStore, scenarios: ScenarioLookup, sid: string, speech: string, to: Option<string>, settings: Settings, now: Timestamp)
    returns (reply: WebhookReply)
    modifies st
    ensures (st.State(), reply) == GatherEffect(old(st.State()), scenarios, sid, speech, to, settings, now)
  {
    ghost var s0 := st.State();
    GatherEarly(s0, scenarios, sid, speech, to, settings, now);
    var session := RecoverSession(st, sid, to, now);
    if session.None? {
      return Instructions([Say(GatherApology), Hangup]);
    }
    if session.value.currentTurn.None? {
      return ServerError;
    }
    if speech == "" {
      reply := Replay(st, scenarios, session.value, settings);
      return;
    }
    GatherActive(s0, scenarios, sid, speech, to, settings, now);
    reply := AnswerReply(st, scenarios, sid, session.value, speech, settings, now);
  }

  /** The reply branch: log and transcribe the reply, log what the detector finds, then play the next line. */
  method AnswerReply(st: SessionStore, scenarios: ScenarioLookup, sid: string, session: SessionRecord, speech: string,
                     settings: Settings, now: Timestamp) returns (reply: WebhookReply)
    requires session.currentTurn.Some?
    modifies st
    ensures (st.State(), reply) ==
      Advance(RecordReply(old(st.State()), sid, session.currentTurn.value + 1, speech, Detect(speech), now), scenarios, sid, session, settings, now)
  {
    ghost var s1 := st.State();
    var userTurn := session.currentTurn.value + 1;
    st.LogEvent(sid, UserSpoke(userTurn, speech, now));
    st.AddTranscriptEntry(sid, userTurn, "user", speech, now);
    var found := DetectSensitiveData(speech);
    if found != [] {
      st.LogEvent(sid, Detected(userTurn, found, now));
    }
    assert st.State() == RecordReply(s1, sid, userTurn, speech, found, now);
    reply := PlayNext(st, scenarios, sid, session, settings, now);
  }

  /** The no-speech branch: reads only. */
  method Replay(st: SessionStore, scenarios: ScenarioLookup, session: SessionRecord, settings: Settings) returns (reply: WebhookReply)
    requires session.currentTurn.Some?
    ensures reply == Reprompt(st.State(), scenarios, session, settings)
  {
    if session.scenarioId.None? {
      return ServerError;
    }
    var id := session.scenarioId.value;
    var turn := session.currentTurn.value;
    var scenario := scenarios(id);
    if scenario.Failure? {
      return ServerError;
    }
    var audio := st.GetCachedAudioUrl(id, turn);
    var line := FindLine(scenario.value.lines, turn, true);
    var verbs: seq<Verb> := [];
    if Truthy(audio) {
      verbs := [Play(audio.value)];
    } else if line.Some? {
      verbs := [Say(line.value.text)];
    }
    reply := Instructions(verbs + ListenVerbs(settings));
  }

  /** The end of the reply branch: the next scammer line, or goodbye. */
  method PlayNext(st: SessionStore, scenarios: ScenarioLookup, sid: string, session: SessionRecord, settings: Settings, now: Timestamp) returns (reply: WebhookReply)
    requires session.currentTurn.Some?
    modifies st
    ensures (st.State(), reply) == Advance(old(st.State()), scenarios, sid, session, settings, now)
  {
    if session.scenarioId.None? {
      return ServerError;
    }
    var id := session.scenarioId.value;
    var next := session.currentTurn.value + 2;
    var scenario := scenarios(id);
    if scenario.Failure? {
      return ServerError;
    }
    var line := FindLine(scenario.value.lines, next, true);
    if line.None? {
      return Instructions([Say(Farewell), Hangup]);
    }
    ghost var s0 := st.State();
    assert Advance(s0, scenarios, sid, session, settings, now) ==
      SpeakLine(s0, sid, id, scenario.value.lines, line.value, next, settings, now);
    reply := PlayLine(st, sid, id, scenario.value.lines, line.value, next, settings, now);
  }

  /** The spoken end of the reply branch. */
  method PlayLine(st: SessionStore, sid: string, id: string, lines: seq<ScenarioLine>, line: ScenarioLine, next: int,
                  settings: Settings, now: Timestamp) returns (reply: WebhookReply)
    modifies st
    ensures (st.State(), reply) == SpeakLine(old(st.State()), sid, id, lines, line, next, settings, now)
  {
    var audio := st.GetCachedAudioUrl(id, next);
    var verbs := [if Truthy(audio) then Play(audio.value) else Say(line.text)];
    st.LogEvent(sid, ScammerSpoke(next, line.text, now));
    st.AddTranscriptEntry(sid, next, "scammer", line.text, now);
    st.SetCurrentTurn(sid, next);
    if HasMoreUserTurns(lines, next) {
      verbs := verbs + ListenVerbs(settings);
    } else {
      verbs := verbs + [Pause(1), Hangup];
    }
    reply := Instructions(verbs);
  }

  method WebhookStatusUpdate(st: SessionStore, sid: string, providerStatus: Option<string>, duration: Option<string>, now: Timestamp)
    modifies st
    ensures st.State() == StatusEffect(old(st.State()), sid, providerStatus, duration, now)
  {
    var status := MapProviderStatus(providerStatus);
    st.UpdateCallStatus(sid, status, now);
    if status == Completed {
      st.LogEvent(sid, CallEvent(CallEnded, now, map["call_status" := OptionalStr(providerStatus), "duration" := OptionalStr(duration)]));
    }
  }

  method InitiateCall(st: SessionStore, scenarios: ScenarioLookup, request: CallInitiateRequest, placement: Result<string, string>, settings: Settings, now: Timestamp)
    returns (reply: InitiateReply, placed: seq<OutboundCall>)
    modifies st
    ensures (st.State(), reply, placed) == InitiateEffect(old(st.State()), scenarios, request, placement, settings, now)
  {
    var scenario := scenarios(request.scenarioId);
    if scenario.Failure? {
      return HttpError(400, scenario.error), [];
    }
    st.SetPending(request.phoneNumber, request.scenarioId);
    placed := [OutboundCall(request.phoneNumber, settings.twilioPhoneNumber,
      settings.baseUrl + "/api/call/webhook/start", settings.baseUrl + "/api/call/webhook/status", "POST")];
    if placement.Failure? {
      return HttpError(500, "Failed to initiate call: " + placement.error), placed;
    }
    var sid := placement.value;
    st.CreateCallSession(sid, request.phoneNumber, request.scenarioId, now);
    st.LogEvent(sid, CallEvent(CallInitiated, now,
      map["phone_number" := Str(request.phoneNumber), "scenario_id" := Str(request.scenarioId), "scenario_name" := Str(scenario.value.name)]));
    reply := Accepted(CallInitiateResponse(sid, Initiated, "Call initiated to " + request.phoneNumber));
  }

  // ---------------------------------------------------------------------
  // The audit view

  datatype AuditReport = NotFound | Audit(callSid: string, session: SessionRecord, transcript: seq<TranscriptEntry>,
                                          events: seq<CallEvent>, vulnerabilities: seq<CallEvent>)

  /** `get_call_audit`: 404 without a session, else the session, transcript, events and vulnerabilities. */
  method GetCallAudit(st: SessionStore, sid: string) returns (report: AuditReport)
    ensures report.NotFound? <==> st.State().GetCallSession(sid).None?
    ensures report.Audit? ==>
      && report.callSid == sid
      && Some(report.session) == st.State().GetCallSession(sid)
      && report.transcript == st.State().TranscriptOf(sid)
      && report.events == st.State().EventsOf(sid)
      && report.vulnerabilities == Vulnerabilities(st.State().EventsOf(sid))
  {
    var session := st.GetCallSession(sid);
    if session.None? {
      return NotFound;
    }
    var transcript := st.GetTranscript(sid);
    var events := st.GetEvents(sid);
    report := Audit(sid, session.value, transcript, events, Vulnerabilities(events));
  }
}
