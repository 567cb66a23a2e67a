# CallBridge — a verified model of the call session bridge

CallBridge connects an inbound SIP telephone call to the DialogBits text
chatbot. The caller's G.711 audio is decoded to 16-bit PCM and pushed into a
speech recogniser. Recognised speech and DTMF key presses are posted to the
DialogBits webhook. The bot's reply is spoken back into the call by a speech
synthesiser, and the reply can ask the bridge to hang up.

This project models the core of the bridge in Dafny and proves properties of
that model:

- `Wrappers` (`wrappers.dfy`): `Option`, `Result` and `Outcome`. A C# `null`
  becomes `None` and a thrown exception becomes an `Err`/`Fail` result.
- `Strings` (`strings.dfy`): `Char.IsWhiteSpace` and `String.Trim()`.
- `DialogBits` (`dialog_bits.dfy`), from `DialogBits.cs`: the request and
  response shapes of the webhook and its five calls. It also holds the
  `getText` and `hasHangup` loops, proved against the recursive definitions
  `Utterance` and `RequestsHangup`. HTTP is a `Response(success, body)` value,
  and the webhook is a function from the request sent to the reply received.
- `Config` (`config.dfy`), from `Config.cs`: the settings file as a map from
  (section, key) to string, `Read`/`ReadInt`/`ReadBool`, an `int.TryParse`
  model with the Int32 range check, and `Create`.
- `Codecs` (`codecs.dfy`): G.711 A-law and mu-law expansion, and the
  little-endian byte pair each sample is written as. These implement the
  `SelectMany` of `GotAudioRtp`.
- `StreamAudio` (`stream_audio.dfy`), from `StreamAudioEndpoint.cs`: the
  endpoint as a class with its `paused` and `stopped` flags. The recogniser's
  push stream is a class. The endpoint's starts, pauses, resumes, closes and
  PCM sends on its outbound `AudioExtrasSource` are appended to a log.
- `Dtmf` (`dtmf.dfy`), from the `OnRtpEvent` handler of `Program.cs`: the
  edge detector as a pure step function `Observe`, its run over a packet
  sequence, and the table from event code to touch tone.
- `CallBridge` (`call_bridge.dfy`), from `Program.cs`: the program's static
  fields as one `Bridge` object. Its SIP, DTMF and recognition handlers are
  methods. The SIP responses, the user-agent and RTP-session calls, the
  recognition starts and stops, the syntheses, the audio sends, the webhook
  requests and the waits are appended, in order, to the `effects` log. The
  calls listed under "Left out" are not logged.

Where the code does something a reader might not expect, the model follows
the code:

- The `Recognized` handler posts the caller's identity (`from`) as the `text`
  of the webhook turn, not the recognised text.
- An event code of 16 or more indexes past the touch-tone table and throws.
  This happens after the barge-in has already been sent.
- A language reply whose `language` is `null` is accepted. Only an empty string
  fails.
- An accepted INVITE hangs up the previous user agent only after it has built
  the new call's objects. Those objects replace the old recogniser, synthesiser
  and endpoint without disposing them.
- A BYE answers 200, hangs up the user agent and closes the RTP session. It does
  not run `Hangup()`, so the recogniser, the endpoint and the session id
  survive it.
- `Hangup()` keeps the DTMF tracker, the input stream reference and the RTP
  session reference.
- A media description that the session rejects drops the recogniser, the
  synthesiser and the endpoint. The RTP session reference stays.
- `ResumeAudio()` clears `paused` even on a stopped endpoint. The endpoint
  stays stopped, so no audio flows after a close.
- Bot actions are tagged `"text"` and `"hangup"`. A `"text"` action whose text
  is `null` still adds its separating space.
- There are no cancellable timers. A hangup delay or a deferred silence send
  is a `Wait` entry or a pending kick.

## Model

| member | source | states |
|---|---|---|
| Strings.Trim | SipTest/SipTest/DialogBits.cs:117 | the trimmed string is no longer than the input, is empty exactly when the input is all white space, and otherwise starts and ends with non-white characters |
| Strings.TrimIsInfix | SipTest/SipTest/DialogBits.cs:117 | `Trim` keeps a contiguous infix of its input and drops only white space on either side |
| Strings.TrimUnchanged | SipTest/SipTest/DialogBits.cs:117 | a string without white space at either end is left as it is |
| DialogBits.Utterance | SipTest/SipTest/DialogBits.cs:102-119 | a null action list has no utterance, and a present utterance is non-empty with non-white ends |
| DialogBits.GetText | SipTest/SipTest/DialogBits.cs:102-119 | the accumulate-then-trim loop of `getText` returns exactly `Utterance` |
| DialogBits.HasHangup | SipTest/SipTest/DialogBits.cs:121-136 | the early-return loop of `hasHangup` returns true exactly when the list is present and some entry has type "hangup" |
| DialogBits.JoinedAppend | SipTest/SipTest/DialogBits.cs:109-116 | the accumulated text of a concatenated list is the concatenation of the accumulated texts |
| DialogBits.UtteranceIgnoresNonText | SipTest/SipTest/DialogBits.cs:110-116 | a null entry or an entry of another type, wherever it stands, does not change the utterance |
| DialogBits.NullTextContributesSpace | SipTest/SipTest/DialogBits.cs:112-114 | a "text" action with null text adds exactly one space |
| DialogBits.JoinedBlankIff | SipTest/SipTest/DialogBits.cs:109-116 | the accumulated text is blank exactly when every text action's text is blank or null |
| DialogBits.UtteranceAbsentIff | SipTest/SipTest/DialogBits.cs:102-119 | `getText` returns null exactly when the list is null or every text action carries blank or null text |
| DialogBits.UtteranceHelloThere | SipTest/SipTest/DialogBits.cs:109-118 | two text actions "Hello" and "there" give the utterance "Hello there" |
| DialogBits.HangupAnywhere | SipTest/SipTest/DialogBits.cs:128-135 | a hangup action at any position requests a hangup |
| DialogBits.Reachable | SipTest/SipTest/DialogBits.cs:21-31 | true only for a successful reply, and then exactly when the body is `{success: true}` |
| DialogBits.GetLanguage | SipTest/SipTest/DialogBits.cs:33-47 | an unsuccessful reply fails; a successful one fails exactly when the body is null or the language is the empty string; otherwise the body's language is returned |
| DialogBits.NullLanguageAccepted | SipTest/SipTest/DialogBits.cs:42-46 | a successful reply with a null language yields a null language, not an error |
| DialogBits.FailedTurnIsSilent | SipTest/SipTest/DialogBits.cs:53-57 | the placeholder returned for a failed turn is present, speaks nothing and does not hang up |
| DialogBits.OnCallInitiated | SipTest/SipTest/DialogBits.cs:49-59 | posts `{sessionId, from}`; a successful reply yields its body, and a failed one a silent response with no hangup |
| DialogBits.OnText | SipTest/SipTest/DialogBits.cs:61-71 | posts `{sessionId, text}`; a successful reply yields its body, and a failed one a silent response with no hangup |
| DialogBits.OnDtmf | SipTest/SipTest/DialogBits.cs:73-83 | posts `{sessionId, touchTone}`; a successful reply yields its body, and a failed one a silent response with no hangup |
| Config.Read | SipTest/SipTest/Config.cs:43-53 | succeeds exactly when the stored value is non-empty (a missing key reads as empty) and returns it; otherwise fails naming the section and key |
| Config.ParseInt32 | SipTest/SipTest/Config.cs:59 | a parsed value lies in the Int32 range, and the empty string does not parse |
| Config.ReadInt | SipTest/SipTest/Config.cs:55-67 | a missing value fails as missing before any parsing; otherwise it succeeds exactly when the value parses, with the parsed Int32, and fails as not-an-integer |
| Config.ReadBool | SipTest/SipTest/Config.cs:69-73 | a missing value fails; otherwise it is true exactly for "true", "t", "1" and "on" |
| Config.Create | SipTest/SipTest/Config.cs:23-37 | a successful creation has both integers parsed and holds exactly the ten values read, each in its own field |
| Config.ParseDecimal | SipTest/SipTest/Config.cs:59 | every Int32 written in decimal parses back to itself |
| Config.DecimalOutOfRangeFails | SipTest/SipTest/Config.cs:59 | a decimal beyond the Int32 range, either side, does not parse |
| Config.StripNumberWhiteInfix | SipTest/SipTest/Config.cs:59 | the parse sees a contiguous infix of the value; only white space is dropped around it |
| Config.NonDigitFails | SipTest/SipTest/Config.cs:59 | a character that is neither a digit nor white space, unless it is a sign with only white space before it, makes the parse fail |
| Config.ReadIntOutOfRange | SipTest/SipTest/Config.cs:55-67 | a setting stored as a decimal outside the Int32 range fails as not an integer |
| Config.ReadIntOfDecimal | SipTest/SipTest/Config.cs:55-67 | a setting stored as a decimal Int32 reads back as that integer |
| Config.ReadBoolIsCaseSensitive | SipTest/SipTest/Config.cs:72 | "True", "yes", "0", "ON" and "T" all read as false |
| Config.CreateReportsFirstError | SipTest/SipTest/Config.cs:23-37 | creation fails exactly when some setting is unreadable, and then with the error of the first unreadable one in reading order |
| Config.CreateSucceedsIff | SipTest/SipTest/Config.cs:23-37 | creation succeeds exactly when all ten settings are present and both integer settings parse |
| Config.MissingKeyFailsCreate | SipTest/SipTest/Config.cs:23-37 | a missing key, any of the ten, makes creation fail |
| Codecs.ALawToLinear | SipTest/SipTest/StreamAudioEndpoint.cs:71-73 | the A-law expansion is a non-zero 16-bit sample |
| Codecs.MuLawToLinear | SipTest/SipTest/StreamAudioEndpoint.cs:74-76 | the mu-law expansion is a 16-bit sample |
| Codecs.Decode | SipTest/SipTest/StreamAudioEndpoint.cs:70-80 | only PCMA and PCMU have a decoder, and it yields a 16-bit sample |
| Codecs.ALawSignSymmetric | SipTest/SipTest/StreamAudioEndpoint.cs:71-73 | flipping the sign bit of an A-law byte negates its sample |
| Codecs.MuLawSignSymmetric | SipTest/SipTest/StreamAudioEndpoint.cs:74-76 | flipping the sign bit of a mu-law byte negates its sample |
| Codecs.MuLawZeroIff | SipTest/SipTest/StreamAudioEndpoint.cs:74-76 | exactly the mu-law bytes 0x7F and 0xFF decode to zero |
| Codecs.TableEntries | SipTest/SipTest/StreamAudioEndpoint.cs:70-80 | the expansions agree with published G.711 table entries |
| Codecs.SampleBytesRoundTrip | SipTest/SipTest/StreamAudioEndpoint.cs:85 | the `pcm & 0xFF`, `pcm >> 8` byte pair of a 16-bit sample reads back as that sample |
| Codecs.ExpandToPcm | SipTest/SipTest/StreamAudioEndpoint.cs:82-86 | the PCM expansion is twice as long as the payload |
| Codecs.ExpandToPcmAt | SipTest/SipTest/StreamAudioEndpoint.cs:82-86 | bytes 2i and 2i+1 of the expansion are the low and high byte of payload byte i's sample |
| Codecs.ExpandDecodesBack | SipTest/SipTest/StreamAudioEndpoint.cs:82-87 | reading the written stream back pair by pair recovers each decoded sample, in payload order |
| StreamAudio.Silence | SipTest/SipTest/StreamAudioEndpoint.cs:92 | the silence frame is 160 zero bytes |
| StreamAudio.Filter | SipTest/SipTest/StreamAudioEndpoint.cs:47-50 | a format is kept exactly when it was offered and the filter accepts it, and nothing is added |
| StreamAudio.PushStream.Write | SipTest/SipTest/StreamAudioEndpoint.cs:87 | the data is appended to what was written |
| StreamAudio.PushStream.Close | SipTest/SipTest/StreamAudioEndpoint.cs:174 | the close is counted and the written data is kept |
| StreamAudio.StreamAudioEndpoint.constructor | SipTest/SipTest/StreamAudioEndpoint.cs:23-36 | a new endpoint is paused, not stopped, offers PCMA then PCMU, and has sent nothing |
| StreamAudio.StreamAudioEndpoint.RestrictFormats | SipTest/SipTest/StreamAudioEndpoint.cs:47-50 | the sink formats become those the filter keeps; nothing else changes |
| StreamAudio.StreamAudioEndpoint.SetAudioSinkFormat | SipTest/SipTest/StreamAudioEndpoint.cs:55 | the selected sink format becomes the given one; nothing else changes |
| StreamAudio.StreamAudioEndpoint.GotAudioRtp | SipTest/SipTest/StreamAudioEndpoint.cs:61-88 | nothing is written unless running; a codec other than PCMA or PCMU fails; otherwise the payload's PCM expansion is appended to the stream |
| StreamAudio.StreamAudioEndpoint.SendRawPcm | SipTest/SipTest/StreamAudioEndpoint.cs:95-105 | the PCM is handed to the source exactly when running |
| StreamAudio.StreamAudioEndpoint.BargeIn | SipTest/SipTest/StreamAudioEndpoint.cs:90-93 | the silence frame is sent exactly when running |
| StreamAudio.StreamAudioEndpoint.StartAudio | SipTest/SipTest/StreamAudioEndpoint.cs:109-131 | fails once stopped and changes nothing; a paused endpoint starts the source and schedules one silence send; a running one is unchanged |
| StreamAudio.StreamAudioEndpoint.RunKick | SipTest/SipTest/StreamAudioEndpoint.cs:121-127 | the scheduled send sends silence only if the endpoint is still running |
| StreamAudio.StreamAudioEndpoint.PauseAudio | SipTest/SipTest/StreamAudioEndpoint.cs:134-139 | the endpoint is paused and the source pause is sent |
| StreamAudio.StreamAudioEndpoint.ResumeAudio | SipTest/SipTest/StreamAudioEndpoint.cs:141-146 | the pause flag clears, even when stopped, and the source resume is sent |
| StreamAudio.StreamAudioEndpoint.IsAudioSourcePaused | SipTest/SipTest/StreamAudioEndpoint.cs:147-150 | a paused source is not running, and a source that is not stopped runs exactly when it is not paused |
| StreamAudio.StreamAudioEndpoint.CloseAudio | SipTest/SipTest/StreamAudioEndpoint.cs:170-179 | the endpoint is stopped and its input stream has been closed exactly once, however often it is closed |
| StreamAudio.StreamAudioEndpoint.Dispose | SipTest/SipTest/StreamAudioEndpoint.cs:181-185 | the same as `CloseAudio` |
| Dtmf.Observe | SipTest/SipTest/Program.cs:151-182 | a packet is reported exactly when the tracker is 0 and the packet is not an end packet or carries the marker; an end packet leaves the tracker at 0, and a non-end packet records its SSRC only when the tracker was 0 |
| Dtmf.Run | SipTest/SipTest/Program.cs:149-183 | the reported packets are some of the packets fed, no more of them |
| Dtmf.RunAppend | SipTest/SipTest/Program.cs:149-183 | feeding two batches in turn equals feeding their concatenation |
| Dtmf.InterimPacketsQuiet | SipTest/SipTest/Program.cs:151-158 | while an event is tracked, further non-end packets report nothing and keep the tracker |
| Dtmf.EndPacketsQuiet | SipTest/SipTest/Program.cs:151-182 | end packets without the marker report nothing and leave the tracker at 0 |
| Dtmf.PressReportedOnce | SipTest/SipTest/Program.cs:33-37 | one press (interim packets, then repeated end packets) is reported once, on its first packet, with the tracker back at 0 |
| Dtmf.PressesReportedOnceEach | SipTest/SipTest/Program.cs:33-37 | presses sent back to back are each reported once, in order |
| Dtmf.ZeroSsrcReportsEveryPacket | SipTest/SipTest/Program.cs:151-157 | with SSRC 0 the tracker can never record the event, so every non-end packet is reported |
| Dtmf.TouchTone | SipTest/SipTest/Program.cs:38 | codes 0-9 map to the digits, 10 to "*", 11 to "#", 12-15 to A-D; there is a tone exactly for codes below 16 |
| CallBridge.AcceptsOffer | SipTest/SipTest/Program.cs:90 | the INVITE check passes exactly when some audio media line offers payload type 0 or 8 |
| CallBridge.SpeechDurationMs | SipTest/SipTest/Program.cs:352 | the whole milliseconds of the audio plus one: at least 1, and the audio lasts at least `ms - 1` and less than `ms` milliseconds |
| CallBridge.ReadTurn | SipTest/SipTest/Program.cs:335-356 | a possibly null response is read as its `Utterance` and its hangup request |
| CallBridge.Bridge.constructor | SipTest/SipTest/Program.cs:23-41 | the program starts with no call, no session, no tracked event, and the configured barge-in flags |
| CallBridge.Bridge.HangupDelayMs | SipTest/SipTest/Program.cs:352-358 | the wait before a requested hangup is 100 ms when nothing is spoken; otherwise it is at least 101 ms and outlasts the synthesised audio by more than 100 ms and at most 101 ms |
| CallBridge.Bridge.Hangup | SipTest/SipTest/Program.cs:367-399 | hangs up a user agent that has not hung up and waits 1000 ms, closes the RTP session, stops recognition, disposes the endpoint (stopped, its stream closed once and given no data, only the close added to its source), and clears recogniser, synthesiser, endpoint and session; with no endpoint the input stream is not closed, and no data is written to it either way; the tracker is kept |
| CallBridge.Bridge.ReleaseSpeechAndMedia | SipTest/SipTest/Program.cs:387-398 | stops recognition if there is a recogniser, then clears the speech objects, the endpoint (after disposing it: stopped, stream closed once, only the close added to its source) and the session id; without an endpoint the input stream is neither closed nor written |
| CallBridge.Bridge.SpeakUtterance | SipTest/SipTest/Program.cs:344-354 | an utterance is synthesised and its audio sent to the endpoint when there is one; the endpoint passes the audio to its source exactly when running and nothing else of it changes; the returned duration is the hangup delay less 100 ms |
| CallBridge.Bridge.HandleBotActions | SipTest/SipTest/Program.cs:333-361 | fails exactly when there is an utterance but no synthesiser, and then changes nothing; otherwise speaks, then, exactly when a hangup is requested, waits the hangup delay and hangs up (user agent hung up, RTP closed if it existed before, speech objects, endpoint and session cleared, the old endpoint disposed after passing on the audio), and otherwise keeps the whole call, the endpoint only passing on the audio; the tracker, the RTP session and the input stream reference are kept, no data is written to the stream, and without an endpoint it is not closed |
| CallBridge.Bridge.FinishTurn | SipTest/SipTest/Program.cs:356-360 | a requested hangup waits the given delay and runs `Hangup`, with the user agent hung up, the old endpoint disposed as in `Hangup`, and the RTP session, stream reference and tracker kept; the stream gets no data and without an endpoint is not closed; otherwise nothing changes |
| CallBridge.Bridge.OnRecognizing | SipTest/SipTest/Program.cs:107-114 | barges in exactly when configured to and an endpoint exists; the endpoint sends silence exactly when it is also running, and nothing else changes; the bridge invariant is kept |
| CallBridge.Bridge.OnRecognized | SipTest/SipTest/Program.cs:115-134 | only recognised speech with non-blank text, once a session exists, causes a webhook turn, and that turn carries the caller's identity; any other result changes nothing |
| CallBridge.Bridge.ReportPress | SipTest/SipTest/Program.cs:160-173 | barges in when configured; an unknown event code then fails, and without a session nothing is posted, both keeping the whole call; a known code is posted with the session id once a session exists |
| CallBridge.Bridge.OnRtpEvent | SipTest/SipTest/Program.cs:149-183 | the tracker moves as `Observe` says; an unreported packet changes nothing else; a reported one is handled as `ReportPress` |
| CallBridge.Bridge.OnInvite | SipTest/SipTest/Program.cs:81-256 | an offer without PCMU/PCMA gets 488 and a failed language lookup ends the handler, both keeping the whole call; a rejected description gets 488 after dropping the new objects, the new stream closed and the old endpoint left undisposed; an accepted call always passes, and its effects are the language request, the ringing, the session announcement and then the greeting's turn (speech, and a hangup when asked for); after a greeting that asks for a hangup the session, speech objects and endpoint are cleared, the user agent is hung up and the new stream is closed once; otherwise the call keeps its new session, recogniser and synthesiser, and a fresh endpoint runs in the negotiated format having started its source once, scheduled one silence send and passed on the greeting's audio; the RTP session is set and the tracker is kept |
| CallBridge.Bridge.BuildCallObjects | SipTest/SipTest/Program.cs:96-148 | a fresh input stream and a fresh paused endpoint over it, restricted to PCMA and PCMU, plus a recogniser for the language, a synthesiser and a media session |
| CallBridge.Bridge.DropCallObjects | SipTest/SipTest/Program.cs:198-211 | the recogniser and synthesiser are dropped, the endpoint is disposed and cleared, and 488 is sent |
| CallBridge.Bridge.StartCall | SipTest/SipTest/Program.cs:214-243 | hangs up a still-active previous user agent, sends 100 and 180 and answers, starts recognition and media; the endpoint runs in the negotiated format and, when it was paused, starts its source once and schedules one silence send, and otherwise hands its source nothing |
| CallBridge.Bridge.AnswerCall | SipTest/SipTest/Program.cs:214-248 | always passes; the effects are the ringing, the session announcement and the greeting's turn; a greeting asking for a hangup clears the call and leaves the endpoint disposed after its start and the greeting's audio; otherwise the new session runs with the same speech objects and the endpoint running in the negotiated format, its source started when it was paused, one silence send scheduled, and the greeting's audio passed on |
| CallBridge.Bridge.GreetCaller | SipTest/SipTest/Program.cs:244-247 | with a synthesiser and a running endpoint the greeting always passes; the session is announced and the greeting's turn follows; a hangup greeting clears the call and disposes the endpoint after its audio, otherwise the endpoint only passes on the greeting's audio and the session stays |
| CallBridge.Bridge.OnRequest | SipTest/SipTest/Program.cs:81-274 | INVITE with the outcomes of `OnInvite`, case by case: no G.711 offer gets 488, a failed language lookup fails, a rejected description gets 488 after dropping the new objects, and an accepted call passes with the same effects and final state as in `OnInvite`, both when the greeting asks for a hangup and when it does not; every request keeps the tracker and leaves the old endpoint undisposed; BYE answers 200, hangs up an existing user agent as hung up by the client and closes an existing RTP session, keeping everything else; SUBSCRIBE gets 405, OPTIONS and REGISTER get 200, other methods are ignored, all keeping the whole call |

## Left out

- HTTP and JSON: status codes are one `success` flag, and bodies are already
  decoded. Transport failures are not modelled: an `HttpRequestException` from
  `GetAsync` or `PostAsJsonAsync` ends the process when it escapes the async
  `Recognized` and `OnRtpEvent` handlers, as the event-code exception does.
  Neither is malformed JSON and the exception it raises.
- `GetPrivateProfileString` is not modelled: the 255-character truncation,
  comments, quoting, the file path and Windows file access. The settings file
  is a finished map.
- Config.ParseInt32: covers the default `NumberStyles.Integer` grammar (ASCII
  white space, sign, decimal digits). It leaves out culture-specific signs and
  trailing NUL characters.
- The NAudio decoder tables are not part of this model. The expansions
  implement the G.711 algorithm those tables were generated from.
- `AudioExtrasSource` is not part of this model: its encoding and sending of
  PCM, its format list and its events. What the endpoint asks of it is logged
  as `SourceCall` entries. `GetAudioSourceFormats`, `SetAudioSourceFormat` and
  `HasEncodedAudioSubscribers` only delegate or read an event and are left out.
- `ExternalAudioSourceRawSample` and the four `...AudioSink` methods only throw
  `NotImplementedException` and are left out.
- SIPSorcery is not part of this model. The parsed SDP offer is a list of media
  announcements. Whether the media session accepts the remote description is
  the `negotiated` input. The model assumes that the accepted format reaches the
  endpoint through `SetAudioSinkFormat` and that `rtpSession.Start()` calls
  `StartAudio()`.
- The speech SDK is not part of this model. The recogniser is only its
  language, the synthesiser is a function from text to audio and duration, and
  the push stream records what was written and how often it was closed.
- Time, threads and `async`: each handler runs as one atomic step, and
  `Task.Delay` is a `Wait` entry in the effect log. Interleavings of
  concurrent handlers are not modelled, and neither is the deferred silence
  send beyond `RunKick`.
- The `CallCancelled` and `OnRtpClosed` callbacks registered in the INVITE
  handler, and the recogniser's `Canceled` handler, only log or forward
  to calls the model already records, and are left out.
- `Main` is left out: the reachability probe at start-up, registration, the
  transport setup, the key-press loop and the shutdown. So are all logging and
  the `suppressNoAnswerWarning` flag of `HandleBotActions`, which only silences
  a log line. Inbound.cs, STT.cs and TTS.cs are not part of this model.
- Exceptions become `Fail` outcomes that end the handler, and the model stops
  there. The catch in the SIP request handler only logs. The `Recognized` and
  `OnRtpEvent` handlers are async lambdas on void-returning events, so an
  exception escaping them (an event code of 16 or more, or an utterance
  without a synthesiser) is rethrown on the thread pool and ends the process;
  the model does not capture what the runtime does after the `Fail`.
- Calls that are not logged: `Dispose()` of the speech recogniser and
  synthesiser, `SetRemoteDescription` and `CreateAnswer` on the media session
  (the first is the `negotiated` input, the second only feeds the logged
  `Answer`), and `RestrictFormats` on the `AudioExtrasSource`.
- CallBridge.SpeechDurationMs: uses whole 100-ns ticks. It does not model the
  floating-point `TotalMilliseconds` or the 32-bit cast.
- CallBridge.Bridge.OnRecognized: for a forwarded turn it states only that the
  webhook request is the next effect. What follows is `HandleBotActions`, whose
  own contract gives it.
- CallBridge.Bridge.ReportPress: for a posted touch tone it states only that
  the webhook request follows the barge-in. What follows is `HandleBotActions`.
- CallBridge.Bridge.OnRtpEvent: for a reported packet with a known touch tone
  and a session it states only the tracker and that the webhook request
  follows the barge-in, as `ReportPress` does; the rest is `HandleBotActions`.
- CallBridge.Bridge.OnInvite: after a greeting that asks for a hangup, the
  new call's endpoint is no longer referenced by the bridge, so of its disposal
  only the close of its input stream is stated.
- CallBridge.Bridge.OnRequest: for an INVITE it states what `OnInvite` states,
  with the same gap after a greeting that asks for a hangup.
- The recogniser is created even when the language is `null`; the model
  records the null language and does not say what the SDK would do with it.
- StreamAudio.StreamAudioEndpoint.constructor: the selected sink format
  starts as PCMA, taken as the default of SIPSorcery's `MediaFormatManager`,
  which is not part of this model. `StartCall` sets the negotiated format
  before any audio flows.
- The RTP session is only a flag. Closing it does not fire `OnRtpClosed`
  and does not clear the flag, as in the code.
