# Phishing-call simulator backend, modelled in Dafny

This project models the backend core of a phone-based phishing-training simulator. The backend places a call to a trainee. A scripted "scammer" then speaks one line per turn. The trainee's spoken replies are recorded and scanned for sensitive data, and an audit view lists what leaked.

The model has five parts:

- **`models.dfy` (module `Models`)**: the status and event enums and their stored string values; the records (scenario line, scenario, call event, detector match, call request and response); and the phone-number constraint `^\+?1?\d{10,15}$` of a call request.
- **`scenarios.dfy` (module `Scenarios`)**: the static catalog of four scripts, `get_scenario` and `list_scenarios`, and the shape every script has. Turns run 1..n, odd turns belong to the scammer and even turns to the user, user lines hold the placeholder, and no line carries an audio URL.
- **`patterns.dfy` and `detection.dfy` (modules `Patterns`, `Detection`)**: the sensitive-data detector.
  - The seven regular expressions are given as the matches `re.finditer` reports. Each is tried at each start index in the engine's greedy-then-backtrack order, and the scan resumes at the end of a match.
  - The email pattern keeps its top-level-domain class as written, `[A-Z|a-z]`, in which the vertical bar is a literal member, so the detector reports what the code reports. The letters-only class the authors evidently meant is modelled beside it (see "## Findings").
  - The pattern loop, the keyword loop and the context-score loop are methods. Each is proved equal to a specification function, and the properties are proved about those functions.
  - Confidence is an integer in hundredths: 70, 85 and 95, and 90 for keywords.
  - `detection_examples.dfy` works two concrete utterances through the detector.
- **`store.dfy` (module `Store`)**: the Valkey-backed session service.
  - `Snapshot` is the store's contents as a value: a hash per call, an append-only event list and transcript per call, the audio-URL cache and the pending-call keys. Each service operation is a function on it.
  - `SessionStore` is the mutable object. Each of its methods is proved to perform exactly the matching operation.
- **`router.dfy` (module `Router`)**: `initiate_call`, the call-answered, speech-gathered and status webhooks, and the per-call audit view.
  - Each handler is a method over a `SessionStore` that returns the call-control instructions of its reply (`Play`, `Say`, `Gather`, `Redirect`, `Pause`, `Hangup`), or `ServerError` where the code lets a `KeyError` or `ValueError` escape.
  - Each handler's new state and reply are proved equal to a pure effect function of the old snapshot. The lemmas state what those effects do: the session recovery order, append order, turn arithmetic, the empty-speech path, odd turns and the status mapping.

Things the model takes as parameters rather than computing:

- **The catalog lookup.** The handlers take the `get_scenario` lookup as a parameter, so their lemmas hold for any catalog of well-formed scripts. The deployed lookup is `Scenarios.GetScenario`, and `Router.DeployedCatalogWellFormed` proves it well formed.
- **Timestamps.** `datetime.utcnow()` is a `now` parameter.
- **The provider's answer.** The answer to the outbound-call request is a parameter: the new call's sid, or the message of the exception raised.
- **Settings.** The base URL and the caller number are a `Settings` value.

Scenario texts are written as concatenations of short literals; their values are the source's texts unchanged.

## Model

| member | source | states |
|---|---|---|
| Models.CallStatusFromValue | backend/app/models.py:7-14 | reading a status back from its stored string yields the member with that value |
| Models.CallStatusValueRoundTrip | backend/app/models.py:7-14 | every one of the seven statuses survives being stored as its value and read back |
| Models.EventTypeValueInjective | backend/app/models.py:17-23 | the six event types have pairwise distinct stored values |
| Models.PhoneNumberPatternIff | backend/app/models.py:42 | the phone pattern accepts exactly an optional '+' followed only by digits, 10 to 15 of them, or 16 when the first is '1' |
| Models.ParseCallInitiateRequest | backend/app/models.py:41-43 | a request is accepted exactly when its phone number meets the pattern; it keeps the phone number, and the scenario id defaults to "bank_fraud" |
| Wrappers.Lookup | backend/app/scenarios.py:210-212 | a dictionary lookup gives None exactly when no entry has the key, and otherwise the value of an entry with that key |
| Text.Lower | backend/app/services/detection_service.py:37 | lower-casing keeps the length and lower-cases each character on its own |
| Text.FirstIndexOf | backend/app/services/detection_service.py:55-60 | `k in s` / `s.index(k)`: the first index where k occurs, with no earlier occurrence; None exactly when k occurs nowhere |
| Text.StripLeadingPlus | backend/app/routers/twilio_router.py:111-112 | `lstrip('+')` removes only leading '+' characters and leaves a suffix that does not start with '+' |
| Scenarios.ListScenarios | backend/app/scenarios.py:215-217 | the listing is the catalog's entries, in table order |
| Scenarios.ListScenariosOrder | backend/app/scenarios.py:215-217 | the listing is bank_fraud, tech_support, irs_tax, adith_venkatesh |
| Scenarios.GetScenario | backend/app/scenarios.py:208-212 | the lookup fails exactly for ids that are not catalog keys, with the message "Scenario '<id>' not found"; otherwise it returns a listed scenario whose id is the one asked for |
| Scenarios.LookupCatalog | backend/app/scenarios.py:8-205 | each of the four keys maps to its own entry, and every other key to nothing |
| Scenarios.CatalogWellFormed | backend/app/scenarios.py:14-203 | in every script the turns are exactly 1..n in order, odd turns are scammer lines and even turns user lines, user lines hold "[User response expected]", and no line has an audio URL |
| Scenarios.AlternatingWellFormed | backend/app/scenarios.py:14-203 | a script of alternating scammer and user lines numbered from 1 is well formed |
| Scenarios.CatalogEndings | backend/app/scenarios.py:71-75 | bank_fraud, tech_support and irs_tax end on scammer turns 11, 9 and 7; adith_venkatesh ends on user turn 2 |
| Patterns.RunLength | backend/app/services/detection_service.py:15-21 | a greedy character-class run: all its characters are members and the next one is not |
| Patterns.BacktrackToBoundary | backend/app/services/detection_service.py:15-21 | a greedy `{lo,k}` then `\b` ends at a word boundary within lo..k characters |
| Patterns.MatchAt | backend/app/services/detection_service.py:14-22 | a match attempt at index i, when it succeeds, ends beyond i and within the text |
| Patterns.FindAll | backend/app/services/detection_service.py:41 | every finditer match is non-empty text located at its start index, and the matches run left to right without overlap |
| Patterns.FindFromReportsHits | backend/app/services/detection_service.py:41 | every match the scan reports is a match of the pattern at its start index |
| Patterns.DigitRunMatchIff | backend/app/services/detection_service.py:15-21 | `\b\d{lo,hi}\b` matches at i exactly when i starts a standalone word of lo..hi digits, and the match is that whole word |
| Patterns.DigitRunMatchSound | backend/app/services/detection_service.py:15-21 | a digit-run match is a standalone word of digits with its length in range |
| Patterns.DigitRunMatchComplete | backend/app/services/detection_service.py:15-21 | a standalone word of lo..hi digits is matched, whole |
| Patterns.FindFromReaches | backend/app/services/detection_service.py:41 | a match at i is reported by the scan when every match starting earlier ends by i, so no reported match steps over it |
| Patterns.NineDigitWord | backend/app/services/detection_service.py:15-21 | a standalone nine-digit number is reported, whole and at its first digit, by the finditer scans of the account_number, ssn and routing_number patterns, and no otp match starts inside it |
| Patterns.EmailMatchChars | backend/app/services/detection_service.py:20 | an email match is made of local-part characters, one '@', domain characters and the TLD class |
| Patterns.AsWrittenEmailAcceptsBar | backend/app/services/detection_service.py:20 | with the TLD class as written, which lists a vertical bar among the letters, the text "x@y." + vertical bar + "z" is reported as one email |
| Patterns.CorrectedEmailHasNoBar | backend/app/services/detection_service.py:20 | with the letters-only TLD class, no email match contains a vertical bar |
| Patterns.CorrectedEmailRejectsBar | backend/app/services/detection_service.py:20 | with the letters-only TLD class, "x@y." + vertical bar + "z" holds no email match |
| Patterns.NoMatchInPlainText | backend/app/services/detection_service.py:14-22 | no pattern matches a text without digits and without '@' |
| Detection.CountPresentZeroIff | backend/app/services/detection_service.py:81-84 | no clue is counted exactly when none of the clues occurs |
| Detection.Confidence | backend/app/services/detection_service.py:65-86 | the context score is always one of 0.70, 0.85 and 0.95 |
| Detection.ScoreClues | backend/app/services/detection_service.py:81-84 | the clue loop, which caps after each step, yields min(0.95, 0.70 + 0.15 × the number of clues present) |
| Detection.CalculateConfidence | backend/app/services/detection_service.py:65-86 | `_calculate_confidence` is the context score of its kind, and the matched value plays no part |
| Detection.ConfidenceLevels | backend/app/services/detection_service.py:70-86 | a kind without clues scores 0.70; otherwise 0.70 exactly when no clue occurs, 0.85 exactly when one does, 0.95 exactly when two or more do |
| Detection.UncluedKinds | backend/app/services/detection_service.py:73-79 | phone_number and email matches always score 0.70 |
| Detection.ScanKind | backend/app/services/detection_service.py:41-50 | the inner pattern loop yields one scored match per finditer match of its pattern, in order |
| Detection.ScanPatterns | backend/app/services/detection_service.py:40-50 | the pattern loop yields the pattern pass over the seven patterns in table order |
| Detection.ScanCategory | backend/app/services/detection_service.py:54-61 | the inner keyword loop yields each category keyword present, in list order |
| Detection.ScanKeywords | backend/app/services/detection_service.py:52-61 | the keyword loop yields the keyword pass over the three categories in table order |
| Detection.DetectSensitiveData | backend/app/services/detection_service.py:31-63 | `detect_sensitive_data` returns the pattern matches followed by the keyword matches, exactly as `Detect` defines them, with the email class as written |
| Detection.HasSensitiveData | backend/app/services/detection_service.py:88-90 | `has_sensitive_data` holds exactly when the detector reports something |
| Detection.DetectOrder | backend/app/services/detection_service.py:14-63 | pattern matches come first, grouped by kind in the order account_number, ssn, otp, credit_card, phone_number, email, routing_number; keyword matches follow, grouped as password, personal_info, verification |
| Detection.DetectPatternMatches | backend/app/services/detection_service.py:40-50 | each pattern match is its kind's pattern matching at its position, with that text as value and its kind's context score; the matches of one kind run left to right without overlap |
| Detection.PatternPassFacts | backend/app/services/detection_service.py:40-50 | the pattern pass is grouped by kind in table order, disjoint within a kind, and each match is a hit of its kind's pattern |
| Detection.KeywordPassMatches | backend/app/services/detection_service.py:52-61 | each keyword match has confidence 0.90 and one of its category's keywords as value, at that keyword's first index in the lower-cased text |
| Detection.KeywordPassDistinct | backend/app/services/detection_service.py:52-61 | no keyword is reported twice, however often it occurs |
| Detection.DetectKeywordIff | backend/app/services/detection_service.py:52-61 | a keyword is reported under its category exactly when it occurs in the lower-cased text |
| Detection.CategoryMatchesComplete | backend/app/services/detection_service.py:54-61 | every keyword of a category that occurs is reported |
| Detection.KeywordTableDistinct | backend/app/services/detection_service.py:25-29 | the keyword lists have no repeats within or across categories |
| Detection.DetectEmpty | backend/app/services/detection_service.py:31-63 | nothing is detected in the empty text |
| Detection.DetectBlocks | backend/app/services/detection_service.py:14-63 | the output is the seven pattern blocks in table order, the email block using the TLD class as written, then the keyword pass |
| Detection.NineDigitReported | backend/app/services/detection_service.py:14-50 | the detector reports a standalone nine-digit number as account_number, ssn and routing_number, each at its first digit with its kind's score, and reports no otp match starting inside it |
| DetectionExamples.PlainTextDetect | backend/app/services/detection_service.py:31-63 | in a text without digits and without '@' only keyword matches are reported |
| DetectionExamples.HeresMyPassword | backend/app/services/detection_service.py:26-61 | "here's my password" yields exactly one match: password, value "password", confidence 0.90, position 10 |
| DetectionExamples.DashedSsnMatch | backend/app/services/detection_service.py:16 | the ssn pattern matches a standalone "ddd-dd-dddd" at its first digit, taking both dashes |
| DetectionExamples.SsnExample | backend/app/services/detection_service.py:16-75 | in "my ssn is 123-45-6789" the ssn pattern reports one match, "123-45-6789" at index 10, scored 0.85 because "ssn" is a clue |
| DetectionExamples.SsnReported | backend/app/services/detection_service.py:31-63 | that ssn match is among what the detector reports for the utterance |
| DetectionExamples.BarEmailBlock | backend/app/services/detection_service.py:20-50 | the email block reports "x@y." + vertical bar + "z" as one email at index 0, scored 0.70 |
| DetectionExamples.BarEmailReported | backend/app/services/detection_service.py:31-90 | the detector reports that email, so `has_sensitive_data` holds for the text |
| Store.SessionStore.CreateCallSession | backend/app/services/valkey_service.py:25-37 | the call's hash becomes a fresh session, and nothing else changes |
| Store.SessionStore.GetCallSession | backend/app/services/valkey_service.py:39-47 | None exactly when no field is stored for the call, otherwise the stored fields with the turn as an integer |
| Store.SessionStore.UpdateCallStatus | backend/app/services/valkey_service.py:49-53 | the status (and, for ending statuses, the end time) is written with no existence check |
| Store.SessionStore.IncrementTurn | backend/app/services/valkey_service.py:55-58 | the turn becomes its old value plus one, with an absent value counting as 0, and that is returned |
| Store.SessionStore.SetCurrentTurn | backend/app/routers/twilio_router.py:306 | the router's direct `hset current_turn` writes the turn into the call's hash, and nothing else changes |
| Store.SessionStore.GetCurrentTurn | backend/app/services/valkey_service.py:60-63 | the stored turn, or 1 when none is stored |
| Store.SessionStore.LogEvent | backend/app/services/valkey_service.py:66-74 | the event is appended to that call's list, and nothing else changes |
| Store.SessionStore.GetEvents | backend/app/services/valkey_service.py:76-84 | the decode loop returns exactly the stored list, in order |
| Store.SessionStore.AddTranscriptEntry | backend/app/services/valkey_service.py:98-107 | the entry is appended to that call's transcript, and nothing else changes |
| Store.SessionStore.GetTranscript | backend/app/services/valkey_service.py:109-112 | exactly the stored transcript, or empty when there is none |
| Store.SessionStore.CacheAudioUrl | backend/app/services/valkey_service.py:87-91 | the URL is stored under (scenario, turn), and nothing else changes |
| Store.SessionStore.GetCachedAudioUrl | backend/app/services/valkey_service.py:93-95 | the cached URL, and None exactly when the key is absent |
| Store.SessionStore.SetPending | backend/app/routers/twilio_router.py:44-48 | the pending key of the phone holds the scenario id |
| Store.SessionStore.GetPending | backend/app/routers/twilio_router.py:110-112 | the pending scenario id, and None exactly when the key is absent |
| Store.CreateThenGet | backend/app/services/valkey_service.py:25-47 | a created session reads back with the given sid, phone and scenario, status "initiated", turn 1, the start time and an empty end time; events and transcript are untouched |
| Store.CreateOverwrites | backend/app/services/valkey_service.py:25-37 | a second creation for the same call overwrites everything the first wrote |
| Store.SessionAfterWrite | backend/app/services/valkey_service.py:49-58 | any write to a call's hash leaves the call with a session |
| Store.UpdateCallStatusFields | backend/app/services/valkey_service.py:49-53 | the status is always written; the end time is stamped only for completed, failed and no_answer; all other fields keep their values; on an absent call a non-ending status creates a hash holding only the status |
| Store.NonEndingStatusKeepsEnd | backend/app/services/valkey_service.py:52-53 | initiated, ringing, in_progress and busy leave the end time as it was |
| Store.IncrementTurnValue | backend/app/services/valkey_service.py:55-63 | the increment returns the previous turn plus one (1 when absent), and the turn then reads as that value |
| Store.SetCurrentTurnValue | backend/app/routers/twilio_router.py:306 | after the direct write the turn reads back as written, the call's other fields keep their values, and events and transcripts are untouched |
| Store.LogEventAppends | backend/app/services/valkey_service.py:66-74 | one event is appended to that call's events, and sessions and transcripts are untouched |
| Store.EventsInLogOrder | backend/app/services/valkey_service.py:66-84 | the events read back are exactly those logged, in append order |
| Store.AddTranscriptAppends | backend/app/services/valkey_service.py:98-107 | one entry is appended to that call's transcript with its turn, speaker, text and time; sessions and events are untouched |
| Store.TranscriptInAddOrder | backend/app/services/valkey_service.py:98-112 | the transcript read back is exactly the added entries, in append order |
| Store.AudioCacheLaws | backend/app/services/valkey_service.py:87-95 | a cached URL reads back under its key, other keys keep their URLs, and an unknown key has none |
| Store.PendingLaws | backend/app/routers/twilio_router.py:44-48 | the pending key reads back what was set, and other phones keep theirs |
| Store.OtherCallsUntouched | backend/app/services/valkey_service.py:25-107 | no operation on one call changes another call's hash, events or transcript |
| Store.KeysSeparate | backend/app/services/valkey_service.py:36-106 | distinct calls get distinct keys, and the call, events, transcript and pending key families never meet |
| Router.MapProviderStatus | backend/app/routers/twilio_router.py:349-359 | a missing status maps to failed; a provider string listed in the mapping maps to its own status; any status other than failed comes from a listed string |
| Router.MapProviderStatusTable | backend/app/routers/twilio_router.py:349-359 | the seven provider strings map to their statuses |
| Router.MapProviderStatusOther | backend/app/routers/twilio_router.py:359 | every other string, and a missing field, maps to failed |
| Router.CompletedOnlyFromCompleted | backend/app/routers/twilio_router.py:349-362 | the mapped status is completed exactly when the provider sent "completed" |
| Router.StatusEffectEvents | backend/app/routers/twilio_router.py:359-369 | the mapped status is stored, and a call_ended event carrying the status and duration is appended exactly when the provider sent "completed" |
| Router.WebhookStatusUpdate | backend/app/routers/twilio_router.py:337-371 | the handler's new state is the status effect |
| Router.Vulnerabilities | backend/app/routers/twilio_router.py:399-402 | the kept events are logged sensitive_data_detected events |
| Router.VulnerabilitiesMembers | backend/app/routers/twilio_router.py:399-402 | an event is kept exactly when it is a logged sensitive_data_detected event |
| Router.VulnerabilitiesAppend | backend/app/routers/twilio_router.py:399-402 | filtering distributes over concatenation, so kept events keep their original order |
| Router.GetCallAudit | backend/app/routers/twilio_router.py:388-409 | not found exactly when the call has no session; otherwise the session, transcript and events as stored, and the vulnerabilities filtered from them |
| Router.FindLine | backend/app/routers/twilio_router.py:278-281 | the line found has the requested turn (and speaker) and is the first such line, as `next` gives; nothing is found exactly when no line qualifies |
| Router.FindLineInScript | backend/app/routers/twilio_router.py:278-281 | in a well-formed script, the line of turn t is the one at index t-1 when it exists with the right speaker; otherwise there is none |
| Router.HasMoreUserTurnsInScript | backend/app/routers/twilio_router.py:309-312 | in a well-formed script, a user line follows odd turn t exactly when the script has more than t lines |
| Router.AdithEndsAfterFirstReply | backend/app/routers/twilio_router.py:276-332 | adith_venkatesh has no scammer line at turn 3, so the first reply ends the call |
| Router.DeployedCatalogWellFormed | backend/app/scenarios.py:8-205 | every script the deployed lookup returns is well formed |
| Router.CatalogFirstLine | backend/app/routers/twilio_router.py:141 | in a well-formed catalog turn 1 exists and is a scammer line |
| Router.RecoverScenarioIdOrder | backend/app/routers/twilio_router.py:203-208 | the pending lookup tries `{To}`, then `+{To stripped}`, then `{To stripped}`, and returns the first non-empty one; it finds something exactly when one of them holds a non-empty id |
| Router.RecoverCases | backend/app/routers/twilio_router.py:202-215 | recovery leaves an existing session alone, creates a session from the pending id only on a hit, and otherwise changes nothing and leaves the call without a session |
| Router.PendingLookup | backend/app/routers/twilio_router.py:109-113 | the three reads, in order, give the pending lookup |
| Router.RecoverSession | backend/app/routers/twilio_router.py:200-215 | the store becomes the recovered store, and the session returned is the one it then holds |
| Router.CallStartRefused | backend/app/routers/twilio_router.py:123-128 | without a session and without a pending hit the reply is apology + hangup, and nothing changes |
| Router.CallStartAnswered | backend/app/routers/twilio_router.py:130-184 | a call whose scenario is in the catalog gets status in_progress, then the events call_answered and scammer_spoke for turn 1 and the turn-1 scammer transcript entry; the reply is the cached audio (else the text), then gather and redirect; the turn is unchanged |
| Router.WebhookCallStart | backend/app/routers/twilio_router.py:90-184 | the handler's new state and reply are the call-start effect |
| Router.EmptySpeechMutatesNothing | backend/app/routers/twilio_router.py:227-251 | empty speech on an existing session changes nothing in the store and replies with the reprompt |
| Router.RepromptReplays | backend/app/routers/twilio_router.py:227-251 | the reprompt plays the cached audio of the current turn, else says that turn's scammer line if it exists, else nothing, and always ends with gather and redirect |
| Router.Replay | backend/app/routers/twilio_router.py:228-251 | the no-speech branch reads only and replies with the reprompt |
| Router.ReplyRecorded | backend/app/routers/twilio_router.py:253-273 | non-empty speech appends user_spoke and a user transcript entry at turn + 1, then sensitive_data_detected exactly when the detector found something; sessions and caches are untouched |
| Router.DetectionOnlyLogs | backend/app/routers/twilio_router.py:265-273 | what the detector finds changes only the logged events, never the reply, sessions, transcripts or caches |
| Router.GatherEarly | backend/app/routers/twilio_router.py:217-251 | with no session the reply is apology + hangup; with no stored turn the request fails; with empty speech the reply is the reprompt |
| Router.GatherActive | backend/app/routers/twilio_router.py:253-334 | non-empty speech on a session with a turn is recorded with what the detector finds, then answered by the advance step |
| Router.GatherRefused | backend/app/routers/twilio_router.py:202-221 | without a session and without a pending hit the gather replies apology + hangup, and nothing changes |
| Router.AdvancePlays | backend/app/routers/twilio_router.py:276-328 | with a scammer line at turn + 2, it is played (cached audio, else text), logged and transcribed, and the turn becomes exactly turn + 2; the reply listens again exactly when a user line comes later, and otherwise pauses one second and hangs up |
| Router.AdvanceEnds | backend/app/routers/twilio_router.py:329-332 | without a scammer line at turn + 2 the reply is "Thank you. Goodbye." + hangup and nothing changes |
| Router.AnswerReply | backend/app/routers/twilio_router.py:253-334 | the reply branch records the reply with the detector's findings, then advances |
| Router.PlayNext | backend/app/routers/twilio_router.py:275-332 | the end of the reply branch is the advance step |
| Router.PlayLine | backend/app/routers/twilio_router.py:285-328 | playing a line logs, transcribes and advances the turn, then listens or hangs up |
| Router.WebhookGatherSpeech | backend/app/routers/twilio_router.py:187-334 | the handler's new state and reply are the gather effect, with `detect_sensitive_data` as the detector |
| Router.GatherKeepsTurnsOdd | backend/app/routers/twilio_router.py:277-306 | if every stored turn is odd before a gather, it is odd after it |
| Router.CallStartKeepsTurnsOdd | backend/app/routers/twilio_router.py:134 | call start keeps every stored turn odd |
| Router.RecoverKeepsTurnsOdd | backend/app/routers/twilio_router.py:116-120 | recovery keeps every stored turn odd, since new sessions start at turn 1 |
| Router.StatusKeepsTurnsOdd | backend/app/routers/twilio_router.py:360 | a status update keeps every stored turn odd |
| Router.InitiateKeepsTurnsOdd | backend/app/routers/twilio_router.py:38-80 | placing a call keeps every stored turn odd, since the session it creates starts at turn 1 |
| Router.InitiateUnknownScenario | backend/app/routers/twilio_router.py:38-83 | an unknown scenario is refused with 400 and the lookup's message, before any pending write, outbound call or session |
| Router.InitiateKnownScenario | backend/app/routers/twilio_router.py:40-80 | a known scenario seeds the pending key and places exactly one call to the phone; once the provider returns a sid, that call's session is fresh, one call_initiated event is appended, and the response has status initiated |
| Router.InitiateCall | backend/app/routers/twilio_router.py:31-87 | the handler's new state, reply and outbound requests are the initiate effect, including the 500 when the provider raises |

## Left out

- The Valkey network client is left out: I/O. It is replaced by in-memory maps. The JSON encoding of events and transcript entries is the identity, so `get_events` and `get_transcript` round-trip unchanged by construction.
- Expiry times are left out: wall-clock behaviour. This covers `expire` and `setex` with 300, 7200 and 86400 seconds, so no key ever expires in the model.
- `datetime.utcnow()` is not modelled: the clock. Every timestamp is a `now` parameter, and one request uses one value throughout.
- The provider transport is not modelled: it is a foreign SDK. This covers Twilio's `calls.create` and the serialisation of replies as TwiML XML. The outbound request is returned as an `OutboundCall` value, and its outcome is a parameter.
- `InitiateCall` treats every provider failure as the 500 path. A `ValueError` raised by the provider SDK would take the 400 path in the code.
- Floating point is not modelled. Confidence is an integer in hundredths. `0.7 + 0.15` and the capped sums give 0.85 and 0.95 in binary floating point too, so no case differs.
- Unicode character classes are not modelled. `\d`, `\w`, `\s` and `\b` are ASCII, and `str.lower()` lower-cases only A-Z, so text outside ASCII can behave differently in the code.
- Session-id and phone-number form fields are simply strings. An absent `CallSid` would be keyed as the string "None" in the code.
- `get_call_feedback` is left out: it calls an external language model.
- `list_calls_audit` is left out: the service methods it calls (`list_calls`, `list_calls_by_phone`) do not exist in `ValkeyService`.
- The routes for call status, events and transcript are left out: each one only wraps a single store call that is modelled.
- The module singletons, `ValkeyService.__init__` and the app settings are left out as configuration. Settings are a `Settings` value.
- Concurrency is not modelled: there is no locking in the code. Handlers are sequential methods, and overlapping webhooks for one call are not modelled.
- Request validation by the web framework is a function (`ParseCallInitiateRequest`); the HTTP 422 response itself is not modelled.
- `Store.KeysSeparate` covers only the call, events, transcript and pending key families. The injectivity of the audio key `audio:{scenario}:{turn}` is not proved, and the cache is keyed by the (scenario, turn) pair directly.
- `DetectionExamples.SsnExample` states the ssn block of the worked example and that its match is reported. The full output, which also has an otp match for "6789", is not spelled out.

## Findings

| source | as written | input that shows it | evidently intended | confidence | as-written member | corrected member |
|---|---|---|---|---|---|---|
| backend/app/services/detection_service.py:20 | the email TLD class lists a vertical bar between `A-Z` and `a-z`, so a literal bar is a TLD character | "x@y." + vertical bar + "z" is reported as an email | the TLD is letters only, `[A-Za-z]` | not executed | Patterns.AsWrittenEmailAcceptsBar | Patterns.CorrectedEmailRejectsBar |

The detector itself keeps the class as written, so that it reports what the code reports (`DetectionExamples.BarEmailReported`); `Patterns.CorrectedEmailHasNoBar` and `Patterns.CorrectedEmailRejectsBar` state what the letters-only class would give instead.
