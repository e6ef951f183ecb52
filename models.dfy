/**
  The enums and records shared by the store, the detector, the catalog and
  the router, with the phone-number constraint of a call request.
 */
module Models {
  import opened Wrappers
  import opened Text

  /** An opaque `datetime.utcnow().isoformat()` value, supplied by the caller. */
  type Timestamp = string

  datatype CallStatus = Initiated | Ringing | InProgress | Completed | Failed | NoAnswer | Busy {
    /** The enum's string value, which is what the session hash stores. */
    function Value(): string {
      match this
      case Initiated => "initiated"
      case Ringing => "ringing"
      case InProgress => "in_progress"
      case Completed => "completed"
      case Failed => "failed"
      case NoAnswer => "no_answer"
      case Busy => "busy"
    }
  }

  /** `CallStatus(s)`: the member whose value is `s`, if any. */
  function CallStatusFromValue(s: string): (r: Option<CallStatus>)
    ensures r.Some? ==> r.value.Value() == s
  {
    if s == "initiated" then Some(Initiated)
    else if s == "ringing" then Some(Ringing)
    else if s == "in_progress" then Some(InProgress)
    else if s == "completed" then Some(Completed)
    else if s == "failed" then Some(Failed)
    else if s == "no_answer" then Some(NoAnswer)
    else if s == "busy" then Some(Busy)
    else None
  }

  /** Storing `status.value` and reading it back loses nothing. */
  lemma CallStatusValueRoundTrip(c: CallStatus)
    ensures CallStatusFromValue(c.Value()) == Some(c)
  {
  }

  datatype EventType =
    | CallInitiated | CallAnswered | ScammerSpoke | UserSpoke | SensitiveDataDetected | CallEnded
  {
    function Value(): string {
      match this
      case CallInitiated => "call_initiated"
      case CallAnswered => "call_answered"
      case ScammerSpoke => "scammer_spoke"
      case UserSpoke => "user_spoke"
      case SensitiveDataDetected => "sensitive_data_detected"
      case CallEnded => "call_ended"
    }
  }

  /** Distinct event types have distinct stored values. */
  lemma EventTypeValueInjective(a: EventType, b: EventType)
    ensures a.Value() == b.Value() ==> a == b
  {
  }

  /** A detector finding; confidence is in hundredths (85 stands for 0.85). */
  datatype SensitiveDataMatch = SensitiveDataMatch(dataType: string, value: string, confidence: int, position: int)

  /** A JSON value as it occurs in event payloads. */
  datatype Value = Str(s: string) | Int(i: int) | Null | MatchList(matches: seq<SensitiveDataMatch>)

  datatype CallEvent = CallEvent(eventType: EventType, timestamp: Timestamp, data: map<string, Value> := map[])

  datatype ScenarioLine = ScenarioLine(turn: int, speaker: string, text: string, audioUrl: Option<string> := None)

  datatype Scenario = Scenario(id: string, name: string, description: string, difficulty: string, lines: seq<ScenarioLine>)

  datatype CallInitiateRequest = CallInitiateRequest(phoneNumber: string, scenarioId: string := "bank_fraud")

  datatype CallInitiateResponse = CallInitiateResponse(callSid: string, status: CallStatus, message: string)

  /** `\d{10,15}$` */
  predicate TenToFifteenDigits(s: string) {
    10 <= |s| <= 15 && AllDigits(s)
  }

  /** `1?\d{10,15}$`, the greedy `1?` tried before the empty alternative. */
  predicate OptionalOneThenDigits(s: string) {
    (|s| > 0 && s[0] == '1' && TenToFifteenDigits(s[1..])) || TenToFifteenDigits(s)
  }

  /** The constraint `^\+?1?\d{10,15}$` on `CallInitiateRequest.phone_number`. */
  predicate PhoneNumberPattern(s: string) {
    (|s| > 0 && s[0] == '+' && OptionalOneThenDigits(s[1..])) || OptionalOneThenDigits(s)
  }

  /**
    The pattern accepts exactly an optional '+' followed by digits only, 10 to
    15 of them, or 16 when the first is '1'.
   */
  lemma PhoneNumberPatternIff(s: string)
    ensures PhoneNumberPattern(s) <==>
      var body := if |s| > 0 && s[0] == '+' then s[1..] else s;
      AllDigits(body) && (10 <= |body| <= 15 || (|body| == 16 && body[0] == '1'))
  {
    var body := if |s| > 0 && s[0] == '+' then s[1..] else s;
    if |s| > 0 && s[0] == '+' {
      assert !IsDigit(s[0]);
      assert !TenToFifteenDigits(s) && !(s[0] == '1');
    }
    if |body| > 0 && body[0] == '1' && TenToFifteenDigits(body[1..]) {
      assert forall k | 1 <= k < |body| :: body[k] == body[1..][k - 1];
    }
    if AllDigits(body) && |body| == 16 && body[0] == '1' {
      assert forall k | 0 <= k < |body| - 1 :: body[1..][k] == body[k + 1];
    }
  }

  /**
    Request validation: a phone number that fails the pattern is refused
    (HTTP 422); an absent scenario id defaults to "bank_fraud".
   */
  function ParseCallInitiateRequest(phoneNumber: string, scenarioId: Option<string>): (r: Result<CallInitiateRequest, string>)
    ensures r.Success? <==> PhoneNumberPattern(phoneNumber)
    ensures r.Success? ==> r.value.phoneNumber == phoneNumber
    ensures r.Success? && scenarioId.None? ==> r.value.scenarioId == "bank_fraud"
    ensures r.Success? && scenarioId.Some? ==> r.value.scenarioId == scenarioId.value
  {
    if !PhoneNumberPattern(phoneNumber) then Failure("string_pattern_mismatch")
    else match scenarioId
      case None => Success(CallInitiateRequest(phoneNumber))
      case Some(id) => Success(CallInitiateRequest(phoneNumber, id))
  }
}
