/**
 * The call session of the bridge (Program.cs): the program's static fields
 * as one object, and its SIP request, DTMF and speech-recognition handlers,
 * each taken as one atomic step.
 *
 * SIPSorcery, the Azure speech services and the DialogBits webhook are
 * outside the model. Their answers are inputs (the parsed SDP offer, whether
 * the media session accepted it, the new session id) or constant functions
 * of the bridge (the webhook, the synthesiser), and every call the program
 * makes on them is appended, in order, to the `effects` log.
 */
module CallBridge {
  import opened Wrappers
  import opened Codecs
  import opened DialogBits
  import opened StreamAudio
  import opened Dtmf
  import opened Config
  import opened Strings

  const OK := 200
  const TRYING := 100
  const RINGING := 180
  const METHOD_NOT_ALLOWED := 405
  const NOT_ACCEPTABLE_HERE := 488

  /** A call the program makes on a collaborator. */
  datatype Effect =
    | Respond(status: nat)                 // a stateless SIP response to the request being handled
    | Progress(status: nat)                // a provisional response on the server user agent
    | Answer                               // the 200 answer with the SDP answer
    | HangupUas(clientHungUp: bool)        // `uas.Hangup(clientHungUp)`
    | StartRtp                             // `rtpSession.Start()`
    | CloseRtp                             // `rtpSession.Close(null)`
    | StartRecognition                     // `StartContinuousRecognitionAsync()`
    | StopRecognition                      // `StopContinuousRecognitionAsync()`
    | BargeIn                              // `streamAudioEndpoint.BargeIn()`
    | Speak(text: string)                  // `SpeakSsmlAsync(text)`
    | SendAudio(pcm: seq<byte>)            // `streamAudioEndpoint.SendRawPCM(audio)`
    | Dialog(request: Request)             // a webhook call
    | Wait(ms: nat)                        // `Task.Delay(ms)`

  /** The SIP server user agent of the current call: only whether it has hung up. */
  datatype UserAgent = UserAgent(hungUp: bool)

  /** The speech recogniser of the current call, created for the language the webhook chose. */
  datatype Recognizer = Recognizer(language: Option<string>)

  /** A synthesis result: 8 kHz 16-bit PCM and its duration in 100-ns ticks. */
  datatype Synthesis = Synthesis(audio: seq<byte>, durationTicks: nat)

  /** The media kind of one `m=` line of an SDP offer, and its payload-type numbers. */
  datatype MediaKind = Audio | Video | OtherMedia
  datatype MediaAnnouncement = MediaAnnouncement(kind: MediaKind, formats: seq<int>)

  /** A SIP request as the transport hands it over, reduced to what the handler uses. */
  datatype SipRequest =
    | InviteRequest(from: string, offer: seq<MediaAnnouncement>, negotiated: Option<AudioCodec>, newSessionId: string)
    | ByeRequest
    | SubscribeRequest
    | OptionsRequest
    | RegisterRequest
    | OtherRequest

  /** The reason of a recognition result. */
  datatype ResultReason = RecognizedSpeech | NoMatch | OtherReason

  datatype BridgeError = LanguageUnavailable(error: DialogError) | NoSynthesizer | UnknownTouchTone(eventId: byte)

  /** Some audio media line offers PCMU (payload type 0) or PCMA (payload type 8). */
  predicate OffersG711(offer: seq<MediaAnnouncement>)
  {
    exists i :: 0 <= i < |offer| && offer[i].kind == Audio && G711Format(offer[i].formats)
  }

  predicate G711Format(formats: seq<int>)
  {
    PCMU_PAYLOAD_TYPE in formats || PCMA_PAYLOAD_TYPE in formats
  }

  /** The codec check of an INVITE, scanning the media lines in order as LINQ's `Any` does. */
  function AcceptsOffer(offer: seq<MediaAnnouncement>): (r: bool)
    ensures r <==> OffersG711(offer)
  {
    if offer == [] then false
    else if offer[0].kind == Audio && G711Format(offer[0].formats) then true
    else
      var rest := AcceptsOffer(offer[1..]);
      assert OffersG711(offer[1..]) ==> OffersG711(offer) by {
        if OffersG711(offer[1..]) {
          var i :| 0 <= i < |offer[1..]| && offer[1..][i].kind == Audio && G711Format(offer[1..][i].formats);
          assert offer[i + 1] == offer[1..][i];
        }
      }
      rest
  }

  /** `(int)AudioDuration.TotalMilliseconds + 1`: the whole milliseconds of the speech, plus one. */
  function SpeechDurationMs(durationTicks: nat): (ms: nat)
    ensures ms >= 1
    ensures (ms - 1) * 10000 <= durationTicks < ms * 10000
  {
    durationTicks / 10000 + 1
  }

  /** The calls `Hangup()` makes, given the user agent, whether an RTP session exists and whether a recogniser exists. */
  function HangupEffects(uas: Option<UserAgent>, hasRtpSession: bool, recognizing: bool): seq<Effect>
  {
    (if uas.Some? && !uas.value.hungUp then [HangupUas(false), Wait(1000)] else []) +
    (if hasRtpSession then [CloseRtp] else []) +
    (if recognizing then [StopRecognition] else [])
  }

  /**
   * An endpoint that was handed `sent` and then disposed: it is stopped, its
   * input stream is closed exactly once and got no data, `sent` and the close
   * are the only calls added to its source, and nothing else of it changed.
   */
  twostate predicate Disposed(e: StreamAudioEndpoint, sent: seq<SourceCall>)
    reads e, e.inStream
  {
    e.stopped && e.inStream.closeCount == 1 && e.inStream.written == old(e.inStream.written) &&
    e.outbound == old(e.outbound) + sent + [CloseSource] && e.paused == old(e.paused) &&
    e.sinkFormats == old(e.sinkFormats) && e.selectedSinkFormat == old(e.selectedSinkFormat) &&
    e.pendingKicks == old(e.pendingKicks)
  }

  /** What starting the media hands to the endpoint's source: the start, when the endpoint was paused. */
  function StartCalls(paused: bool): seq<SourceCall>
  {
    if paused then [StartSource] else []
  }

  lemma AppendAssoc(a: seq<Effect>, b: seq<Effect>, c: seq<Effect>)
    ensures a + b + c == a + (b + c)
  {
  }

  /** The utterance of a possibly null bot response: `actions?.getText()`. */
  function SpokenText(actions: Option<Actions>): Option<string>
  {
    if actions.None? then None else Utterance(actions.value)
  }

  /** `actions?.hasHangup() ?? false` */
  predicate HangupRequested(actions: Option<Actions>)
  {
    actions.Some? && RequestsHangup(actions.value)
  }

  /** What `HandleBotActions` reads from a bot response: `actions?.getText()` and `actions?.hasHangup() ?? false`. */
  method ReadTurn(actions: Option<Actions>) returns (text: Option<string>, hangup: bool)
    ensures text == SpokenText(actions) && hangup == HangupRequested(actions)
  {
    text, hangup := None, false;
    if actions.Some? {
      text := GetText(actions.value);
      hangup := HasHangup(actions.value);
    }
  }

  class Bridge {
    /** The configuration and the outside services, fixed for the program's lifetime. */
    const bargeInOnDtmf: bool
    const bargeInOnSpeech: bool
    const turns: Request -> Response<Actions>
    const languages: Request -> Response<LanguageBody>
    const synthesize: string -> Synthesis

    /** The static fields of the program. */
    var rtpEventSsrc: uint32
    var sessionId: Option<string>
    var recognizer: Option<Recognizer>
    var hasSynthesizer: bool
    var audioInputStream: PushStream?
    var endpoint: StreamAudioEndpoint?
    var uas: Option<UserAgent>
    var hasRtpSession: bool
    var effects: seq<Effect>

    /** The endpoint, when there is one, feeds the current input stream and keeps its own invariant. */
    ghost predicate Valid()
      reads this, endpoint, audioInputStream
    {
      endpoint != null ==> audioInputStream != null && endpoint.inStream == audioInputStream && endpoint.Valid()
    }

    /**
     * Nothing of the call changed: the session id, the speech objects, the
     * input stream (reference and contents), the endpoint reference, the user
     * agent and the RTP session.
     */
    twostate predicate CallKept()
      reads this, audioInputStream
    {
      sessionId == old(sessionId) && recognizer == old(recognizer) && hasSynthesizer == old(hasSynthesizer) &&
      audioInputStream == old(audioInputStream) && endpoint == old(endpoint) && uas == old(uas) &&
      hasRtpSession == old(hasRtpSession) &&
      (audioInputStream != null ==>
        audioInputStream.written == old(audioInputStream.written) &&
        audioInputStream.closeCount == old(audioInputStream.closeCount))
    }

    /** The endpoint, if any, is the same object, and the only change to it is that `sent` was handed to its source. */
    twostate predicate EndpointSent(sent: seq<SourceCall>)
      reads this, endpoint
    {
      endpoint == old(endpoint) &&
      (endpoint != null ==>
        endpoint.paused == old(endpoint.paused) && endpoint.stopped == old(endpoint.stopped) &&
        endpoint.sinkFormats == old(endpoint.sinkFormats) && endpoint.selectedSinkFormat == old(endpoint.selectedSinkFormat) &&
        endpoint.pendingKicks == old(endpoint.pendingKicks) && endpoint.outbound == old(endpoint.outbound) + sent)
    }

    /** What speaking `text` hands to an endpoint that is running. */
    function SentAudio(text: Option<string>, running: bool): seq<SourceCall>
    {
      if text.Some? && running then [SendPcm(synthesize(text.value).audio)] else []
    }

    /** What a barge-in hands to an endpoint that is running. */
    function SentSilence(barge: bool, running: bool): seq<SourceCall>
    {
      if barge && running then [SendPcm(Silence())] else []
    }

    /** The program at start-up: no call, no session, nothing tracked. */
    constructor (settings: Settings, turns: Request -> Response<Actions>, languages: Request -> Response<LanguageBody>,
                 synthesize: string -> Synthesis)
      ensures Valid()
      ensures bargeInOnDtmf == settings.bargeInOnDtmf && bargeInOnSpeech == settings.bargeInOnSpeech
      ensures this.turns == turns && this.languages == languages && this.synthesize == synthesize
      ensures rtpEventSsrc == 0 && sessionId == None && recognizer == None && !hasSynthesizer
      ensures audioInputStream == null && endpoint == null && uas == None && !hasRtpSession && effects == []
    {
      bargeInOnDtmf, bargeInOnSpeech := settings.bargeInOnDtmf, settings.bargeInOnSpeech;
      this.turns, this.languages, this.synthesize := turns, languages, synthesize;
      rtpEventSsrc, sessionId, recognizer, hasSynthesizer := 0, None, None, false;
      audioInputStream, endpoint, uas, hasRtpSession := null, null, None, false;
      effects := [];
    }

    /**
     * The wait before a requested hangup: 100 ms when nothing is spoken;
     * otherwise 100 ms more than the whole milliseconds of the synthesised
     * audio, plus one, so that the wait outlasts the audio by 100 ms at least.
     */
    function HangupDelayMs(text: Option<string>): (ms: nat)
      ensures text.None? ==> ms == 100
      ensures text.Some? ==>
        ms >= 101 && (ms - 101) * 10000 <= synthesize(text.value).durationTicks < (ms - 100) * 10000
    {
      (if text.None? then 0 else SpeechDurationMs(synthesize(text.value).durationTicks)) + 100
    }

    /**
     * `Hangup()`: hangs up a user agent that has not hung up and waits for the
     * BYE, closes the RTP session, stops recognition, and drops the
     * recogniser, the synthesiser, the endpoint (disposing it) and the session
     * id. The DTMF tracker, the input stream and the RTP session reference are
     * left as they are.
     */
    method Hangup()
      requires Valid()
      modifies this`effects, this`uas, this`recognizer, this`hasSynthesizer, this`endpoint, this`sessionId
      modifies endpoint, audioInputStream
      ensures Valid()
      ensures effects == old(effects) + HangupEffects(old(uas), old(hasRtpSession), old(recognizer).Some?)
      ensures uas == (if old(uas).Some? then Some(UserAgent(true)) else None)
      ensures sessionId == None && recognizer == None && !hasSynthesizer && endpoint == null
      ensures audioInputStream == old(audioInputStream) && hasRtpSession == old(hasRtpSession)
      ensures rtpEventSsrc == old(rtpEventSsrc)
      ensures old(endpoint) != null ==> Disposed(old(endpoint), [])
      ensures audioInputStream != null ==> audioInputStream.written == old(audioInputStream.written)
      ensures old(endpoint) == null && audioInputStream != null ==> audioInputStream.closeCount == old(audioInputStream.closeCount)
    {
      ghost var e0 := effects;
      if uas.Some? && !uas.value.hungUp {
        uas := Some(UserAgent(true));
        effects := effects + [HangupUas(false), Wait(1000)];
      }
      if hasRtpSession {
        effects := effects + [CloseRtp];
      }
      ghost var e1 := effects;
      ReleaseSpeechAndMedia();
      assert effects == e1 + (if old(recognizer).Some? then [StopRecognition] else []);
    }

    /** The second half of `Hangup()`: stops recognition and drops the per-call objects, disposing the endpoint. */
    method ReleaseSpeechAndMedia()
      requires Valid()
      modifies this`effects, this`recognizer, this`hasSynthesizer, this`endpoint, this`sessionId, endpoint, audioInputStream
      ensures Valid()
      ensures effects == old(effects) + (if old(recognizer).Some? then [StopRecognition] else [])
      ensures sessionId == None && recognizer == None && !hasSynthesizer && endpoint == null
      ensures old(endpoint) != null ==> Disposed(old(endpoint), [])
      ensures audioInputStream != null ==> audioInputStream.written == old(audioInputStream.written)
      ensures old(endpoint) == null && audioInputStream != null ==> audioInputStream.closeCount == old(audioInputStream.closeCount)
    {
      if recognizer.Some? {
        effects := effects + [StopRecognition];
      }
      recognizer := None;
      hasSynthesizer := false;
      if endpoint != null {
        endpoint.Dispose();
      }
      endpoint := null;
      sessionId := None;
    }

    /** What speaking an utterance calls: the synthesiser, then the endpoint when there is one. */
    function SpeakEffects(text: Option<string>, hasEndpoint: bool): seq<Effect>
    {
      if text.None? then []
      else [Speak(text.value)] + (if hasEndpoint then [SendAudio(synthesize(text.value).audio)] else [])
    }

    /** The calls `HandleBotActions` makes on a response it can act on: speaking, then a requested hangup. */
    function TurnEffects(actions: Option<Actions>, hasEndpoint: bool, uas: Option<UserAgent>, hasRtpSession: bool,
                         recognizing: bool): seq<Effect>
    {
      SpeakEffects(SpokenText(actions), hasEndpoint) +
      (if HangupRequested(actions)
       then [Wait(HangupDelayMs(SpokenText(actions)))] + HangupEffects(uas, hasRtpSession, recognizing)
       else [])
    }

    /**
     * The speaking half of `HandleBotActions`: the synthesised audio goes to
     * the endpoint, which passes it on only while running; returns the speech
     * duration it computes.
     */
    method SpeakUtterance(text: Option<string>) returns (speechDurationMs: nat)
      requires Valid()
      modifies this`effects, endpoint
      ensures Valid()
      ensures effects == old(effects) + SpeakEffects(text, endpoint != null)
      ensures EndpointSent(SentAudio(text, old(endpoint) != null && old(endpoint.Running())))
      ensures speechDurationMs + 100 == HangupDelayMs(text)
    {
      speechDurationMs := 0;
      if text.Some? {
        var result := synthesize(text.value);
        effects := effects + [Speak(text.value)];
        speechDurationMs := SpeechDurationMs(result.durationTicks);
        if endpoint != null {
          effects := effects + [SendAudio(result.audio)];
          endpoint.SendRawPcm(result.audio);
        }
      }
    }

    /**
     * `HandleBotActions(actions)`: speaks the response's utterance, if any,
     * sending the synthesised audio to the endpoint; then, if the response
     * asks for it, waits for the speech to finish and hangs up. An utterance
     * with no synthesiser is an error, raised before anything happens.
     */
    method HandleBotActions(actions: Option<Actions>) returns (outcome: Outcome<BridgeError>)
      requires Valid()
      modifies this`effects, this`uas, this`recognizer, this`hasSynthesizer, this`endpoint, this`sessionId
      modifies endpoint, audioInputStream
      ensures Valid() && rtpEventSsrc == old(rtpEventSsrc)
      ensures hasRtpSession == old(hasRtpSession) && audioInputStream == old(audioInputStream)
      ensures audioInputStream != null ==> audioInputStream.written == old(audioInputStream.written)
      ensures old(endpoint) == null && audioInputStream != null ==> audioInputStream.closeCount == old(audioInputStream.closeCount)
      ensures outcome.Fail? <==> SpokenText(actions).Some? && !old(hasSynthesizer)
      ensures outcome.Fail? ==>
        outcome.error == NoSynthesizer && effects == old(effects) && CallKept() && EndpointSent([])
      ensures outcome.Pass? ==>
        effects == old(effects) + SpeakEffects(SpokenText(actions), old(endpoint) != null)
          + (if HangupRequested(actions)
             then [Wait(HangupDelayMs(SpokenText(actions)))] + HangupEffects(old(uas), old(hasRtpSession), old(recognizer).Some?)
             else [])
      ensures outcome.Pass? && HangupRequested(actions) ==>
        sessionId == None && recognizer == None && !hasSynthesizer && endpoint == null &&
        uas == (if old(uas).Some? then Some(UserAgent(true)) else None) &&
        (old(endpoint) != null ==> Disposed(old(endpoint), SentAudio(SpokenText(actions), old(endpoint.Running()))))
      ensures outcome.Pass? && !HangupRequested(actions) ==>
        CallKept() && EndpointSent(SentAudio(SpokenText(actions), old(endpoint) != null && old(endpoint.Running())))
    {
      var text, hangup := ReadTurn(actions);
      if text.Some? && !hasSynthesizer {
        return Fail(NoSynthesizer);
      }
      var speechDurationMs := SpeakUtterance(text);
      ghost var spoken := effects;
      assert spoken == old(effects) + SpeakEffects(text, old(endpoint) != null);
      FinishTurn(hangup, speechDurationMs + 100);
      outcome := Pass;
    }

    /** The hangup half of `HandleBotActions`: when asked to, waits `delayMs` and hangs up. */
    method FinishTurn(hangup: bool, delayMs: nat)
      requires Valid()
      modifies this`effects, this`uas, this`recognizer, this`hasSynthesizer, this`endpoint, this`sessionId
      modifies endpoint, audioInputStream
      ensures Valid() && rtpEventSsrc == old(rtpEventSsrc)
      ensures hasRtpSession == old(hasRtpSession) && audioInputStream == old(audioInputStream)
      ensures audioInputStream != null ==> audioInputStream.written == old(audioInputStream.written)
      ensures old(endpoint) == null && audioInputStream != null ==> audioInputStream.closeCount == old(audioInputStream.closeCount)
      ensures effects == old(effects)
        + (if hangup then [Wait(delayMs)] + HangupEffects(old(uas), old(hasRtpSession), old(recognizer).Some?) else [])
      ensures hangup ==>
        sessionId == None && recognizer == None && !hasSynthesizer && endpoint == null &&
        uas == (if old(uas).Some? then Some(UserAgent(true)) else None) &&
        (old(endpoint) != null ==> Disposed(old(endpoint), []))
      ensures !hangup ==>
        unchanged(this) && (endpoint != null ==> unchanged(endpoint)) && (audioInputStream != null ==> unchanged(audioInputStream))
    {
      if hangup {
        var delay := [Wait(delayMs)];
        effects := effects + delay;
        Hangup();
        assert effects == old(effects) + (delay + HangupEffects(old(uas), old(hasRtpSession), old(recognizer).Some?));
      }
    }

    /** The recogniser's `Recognizing` event: barge in when configured and an endpoint exists. */
    method OnRecognizing()
      requires Valid()
      modifies this`effects, endpoint
      ensures Valid()
      ensures effects == old(effects) + (if bargeInOnSpeech && endpoint != null then [BargeIn] else [])
      ensures EndpointSent(SentSilence(bargeInOnSpeech, old(endpoint) != null && old(endpoint.Running())))
    {
      if bargeInOnSpeech && endpoint != null {
        effects := effects + [BargeIn];
        endpoint.BargeIn();
      }
    }

    /**
     * The recogniser's `Recognized` event for the call from `caller`: recognised,
     * non-blank speech is sent to the webhook, but only once a session exists,
     * and the request carries the caller rather than the recognised text.
     */
    method OnRecognized(reason: ResultReason, text: string, caller: string) returns (outcome: Outcome<BridgeError>)
      requires Valid()
      modifies this`effects, this`uas, this`recognizer, this`hasSynthesizer, this`endpoint, this`sessionId
      modifies endpoint, audioInputStream
      ensures Valid() && rtpEventSsrc == old(rtpEventSsrc) && hasRtpSession == old(hasRtpSession)
      ensures !(reason == RecognizedSpeech && |Trim(text)| > 0 && old(sessionId).Some?) ==>
        outcome == Pass && effects == old(effects) && CallKept() && EndpointSent([])
      ensures reason == RecognizedSpeech && |Trim(text)| > 0 && old(sessionId).Some? ==>
        old(effects) + [Dialog(TextRequest(old(sessionId).value, caller))] <= effects
    {
      if reason == RecognizedSpeech && |Trim(text)| > 0 {
        if sessionId.Some? {
          var request := TextRequest(sessionId.value, caller);
          effects := effects + [Dialog(request)];
          var actions := OnText(sessionId.value, caller, turns);
          var before := effects;
          outcome := HandleBotActions(actions);
          assert before <= effects;
          return;
        }
      }
      outcome := Pass;
    }

    /**
     * A reported press: barge in when configured and an endpoint exists, look
     * up the touch tone, and, once a session exists, send it to the webhook
     * and act on the reply. An event code outside the table fails after the
     * barge-in.
     */
    method ReportPress(eventId: byte) returns (outcome: Outcome<BridgeError>)
      requires Valid()
      modifies this`effects, this`uas, this`recognizer, this`hasSynthesizer, this`endpoint, this`sessionId
      modifies endpoint, audioInputStream
      ensures Valid() && rtpEventSsrc == old(rtpEventSsrc) && hasRtpSession == old(hasRtpSession)
      ensures var barge := if bargeInOnDtmf && old(endpoint) != null then [BargeIn] else [];
        (TouchTone(eventId).None? ==> outcome == Fail(UnknownTouchTone(eventId)) && effects == old(effects) + barge) &&
        (TouchTone(eventId).Some? && old(sessionId).None? ==> outcome == Pass && effects == old(effects) + barge) &&
        (TouchTone(eventId).Some? && old(sessionId).Some? ==>
          old(effects) + barge + [Dialog(DtmfRequest(old(sessionId).value, TouchTone(eventId).value))] <= effects)
      ensures TouchTone(eventId).None? || old(sessionId).None? ==>
        CallKept() && EndpointSent(SentSilence(bargeInOnDtmf, old(endpoint) != null && old(endpoint.Running())))
    {
      if bargeInOnDtmf && endpoint != null {
        effects := effects + [BargeIn];
        endpoint.BargeIn();
      }
      var touchTone := TouchTone(eventId);
      if touchTone.None? {
        return Fail(UnknownTouchTone(eventId));
      }
      if sessionId.Some? {
        effects := effects + [Dialog(DtmfRequest(sessionId.value, touchTone.value))];
        var actions := OnDtmf(sessionId.value, touchTone.value, turns);
        ghost var before := effects;
        outcome := HandleBotActions(actions);
        assert before <= effects;
      } else {
        outcome := Pass;
      }
    }

    /**
     * `OnRtpEvent` for one telephone-event packet: the tracker moves as
     * `Observe` says, a packet `Observe` reports goes through `ReportPress`,
     * and any other packet changes nothing else. A failing report skips the
     * final reset of the tracker, which never matters: a reported packet
     * arrived with the tracker at 0, so the reset could only apply to it if
     * it had recorded a non-zero SSRC, and end packets record none.
     */
    method OnRtpEvent(p: EventPacket) returns (outcome: Outcome<BridgeError>)
      requires Valid()
      modifies this`rtpEventSsrc, this`effects, this`uas, this`recognizer, this`hasSynthesizer, this`endpoint
      modifies this`sessionId, endpoint, audioInputStream
      ensures Valid() && hasRtpSession == old(hasRtpSession)
      ensures rtpEventSsrc == Observe(old(rtpEventSsrc), p).tracker
      ensures !Observe(old(rtpEventSsrc), p).notify ==>
        outcome == Pass && effects == old(effects) && CallKept() && EndpointSent([])
      ensures Observe(old(rtpEventSsrc), p).notify ==>
        var barge := if bargeInOnDtmf && old(endpoint) != null then [BargeIn] else [];
        (TouchTone(p.eventId).None? ==> outcome == Fail(UnknownTouchTone(p.eventId)) && effects == old(effects) + barge) &&
        (TouchTone(p.eventId).Some? && old(sessionId).None? ==> outcome == Pass && effects == old(effects) + barge) &&
        (TouchTone(p.eventId).Some? && old(sessionId).Some? ==>
          old(effects) + barge + [Dialog(DtmfRequest(old(sessionId).value, TouchTone(p.eventId).value))] <= effects)
      ensures Observe(old(rtpEventSsrc), p).notify && (TouchTone(p.eventId).None? || old(sessionId).None?) ==>
        CallKept() && EndpointSent(SentSilence(bargeInOnDtmf, old(endpoint) != null && old(endpoint.Running())))
    {
      outcome := Pass;
      if rtpEventSsrc == 0 {
        if (p.endOfEvent && p.marker) || !p.endOfEvent {
          if !p.endOfEvent {
            rtpEventSsrc := p.ssrc;
          }
          outcome := ReportPress(p.eventId);
          if outcome.Fail? {
            return;
          }
        }
      }
      if rtpEventSsrc != 0 && p.endOfEvent {
        rtpEventSsrc := 0;
      }
    }

    /**
     * The INVITE branch: an offer without PCMU or PCMA is refused with 488;
     * otherwise the language is fetched (an error ends the handler), the
     * speech services, input stream, endpoint and media session are built,
     * and a description the media session rejects is refused with 488 after
     * dropping them. An accepted call hangs up the previous user agent if
     * still active, rings, answers, starts the media and the recognition,
     * opens a new session and acts on the webhook's greeting.
     */
    method OnInvite(from: string, offer: seq<MediaAnnouncement>, negotiated: Option<AudioCodec>, newSessionId: string)
      returns (outcome: Outcome<BridgeError>)
      requires Valid()
      modifies this
      ensures Valid() && rtpEventSsrc == old(rtpEventSsrc)
      ensures old(endpoint) != null ==> unchanged(old(endpoint))
      ensures !OffersG711(offer) ==>
        outcome == Pass && effects == old(effects) + [Respond(NOT_ACCEPTABLE_HERE)] && CallKept()
      ensures OffersG711(offer) && GetLanguage(from, languages).Err? ==>
        outcome == Fail(LanguageUnavailable(GetLanguage(from, languages).error)) &&
        effects == old(effects) + [Dialog(GetLanguageRequest(from))] && CallKept()
      ensures OffersG711(offer) && GetLanguage(from, languages).Ok? && negotiated.None? ==>
        outcome == Pass && effects == old(effects) + [Dialog(GetLanguageRequest(from)), Respond(NOT_ACCEPTABLE_HERE)] &&
        recognizer == None && !hasSynthesizer && endpoint == null && hasRtpSession &&
        audioInputStream != null && fresh(audioInputStream) && audioInputStream.closeCount == 1 &&
        sessionId == old(sessionId) && uas == old(uas)
      ensures OffersG711(offer) && GetLanguage(from, languages).Ok? && negotiated.Some? ==>
        outcome == Pass &&
        effects == old(effects) + [Dialog(GetLanguageRequest(from))] + RingEffects(old(uas))
          + [Dialog(CallInitiatedRequest(newSessionId, from))]
          + TurnEffects(OnCallInitiated(newSessionId, from, turns), true, Some(UserAgent(false)), true, true) &&
        hasRtpSession && audioInputStream != null && fresh(audioInputStream) && audioInputStream.written == []
      ensures (OffersG711(offer) && GetLanguage(from, languages).Ok? && negotiated.Some? &&
               HangupRequested(OnCallInitiated(newSessionId, from, turns))) ==>
        sessionId == None && recognizer == None && !hasSynthesizer && endpoint == null && uas == Some(UserAgent(true)) &&
        audioInputStream != null && audioInputStream.closeCount == 1
      ensures (OffersG711(offer) && GetLanguage(from, languages).Ok? && negotiated.Some? &&
               !HangupRequested(OnCallInitiated(newSessionId, from, turns))) ==>
        sessionId == Some(newSessionId) && uas == Some(UserAgent(false)) &&
        recognizer == Some(Recognizer(GetLanguage(from, languages).value)) && hasSynthesizer &&
        endpoint != null && fresh(endpoint) && endpoint.Running() &&
        endpoint.sinkFormats == [PCMA, PCMU] && endpoint.selectedSinkFormat == negotiated.value &&
        endpoint.outbound == [StartSource] + SentAudio(SpokenText(OnCallInitiated(newSessionId, from, turns)), true) &&
        endpoint.pendingKicks == 1
    {
      if !AcceptsOffer(offer) {
        effects := effects + [Respond(NOT_ACCEPTABLE_HERE)];
        return Pass;
      }
      effects := effects + [Dialog(GetLanguageRequest(from))];
      var language := GetLanguage(from, languages);
      if language.Err? {
        return Fail(LanguageUnavailable(language.error));
      }
      BuildCallObjects(language.value);
      if negotiated.None? {
        DropCallObjects();
        return Pass;
      }
      outcome := AnswerCall(from, negotiated.value, newSessionId);
    }

    /**
     * The objects an INVITE with a usable offer builds before the media
     * session sees the description: synthesiser, input stream, recogniser,
     * endpoint restricted to PCMU and PCMA, and media session. They replace
     * the previous call's objects without disposing them.
     */
    method BuildCallObjects(language: Option<string>)
      modifies this`hasSynthesizer, this`audioInputStream, this`recognizer, this`endpoint, this`hasRtpSession
      ensures Valid() && hasSynthesizer && hasRtpSession && recognizer == Some(Recognizer(language))
      ensures endpoint != null && fresh(endpoint) && fresh(audioInputStream) && audioInputStream.written == []
      ensures endpoint.paused && !endpoint.stopped && endpoint.outbound == [] && endpoint.pendingKicks == 0
      ensures endpoint.sinkFormats == [PCMA, PCMU] && endpoint.selectedSinkFormat == PCMA
    {
      hasSynthesizer := true;
      var stream := new PushStream();
      audioInputStream := stream;
      recognizer := Some(Recognizer(language));
      var newEndpoint := new StreamAudioEndpoint(stream);
      newEndpoint.RestrictFormats(c => c == PCMU || c == PCMA);
      endpoint := newEndpoint;
      hasRtpSession := true;
    }

    /** A description the media session rejects: the new objects are dropped and the INVITE gets 488. */
    method DropCallObjects()
      requires Valid() && endpoint != null
      modifies this`recognizer, this`hasSynthesizer, this`endpoint, this`effects, endpoint, audioInputStream
      ensures Valid() && recognizer == None && !hasSynthesizer && endpoint == null
      ensures effects == old(effects) + [Respond(NOT_ACCEPTABLE_HERE)]
      ensures old(endpoint).stopped && audioInputStream != null && audioInputStream.closeCount == 1
    {
      recognizer := None;
      hasSynthesizer := false;
      endpoint.Dispose();
      endpoint := null;
      effects := effects + [Respond(NOT_ACCEPTABLE_HERE)];
    }

    /** The calls an accepted INVITE makes before it opens the session, given the previous user agent. */
    function RingEffects(previous: Option<UserAgent>): seq<Effect>
    {
      (if previous.Some? && !previous.value.hungUp then [HangupUas(false)] else [])
        + [Progress(TRYING), StartRecognition, Wait(50), Progress(RINGING), Wait(50), Answer, StartRtp, Wait(100)]
    }

    /**
     * An accepted description: the endpoint takes the negotiated format; the
     * previous user agent is hung up if still active; the new one sends 100
     * and 180 and answers; the recognition and the media start.
     */
    method StartCall(format: AudioCodec)
      requires Valid() && endpoint != null && !endpoint.stopped
      modifies this`effects, this`uas, endpoint
      ensures Valid()
      ensures effects == old(effects) + RingEffects(old(uas)) && uas == Some(UserAgent(false))
      ensures endpoint.Running() && endpoint.sinkFormats == old(endpoint.sinkFormats) && endpoint.selectedSinkFormat == format
      ensures endpoint.outbound == old(endpoint.outbound) + StartCalls(old(endpoint.paused))
      ensures endpoint.pendingKicks == old(endpoint.pendingKicks) + (if old(endpoint.paused) then 1 else 0)
    {
      endpoint.SetAudioSinkFormat(format);
      if uas.Some? && !uas.value.hungUp {
        effects := effects + [HangupUas(false)];
      }
      uas := Some(UserAgent(false));
      effects := effects + [Progress(TRYING), StartRecognition, Wait(50), Progress(RINGING), Wait(50), Answer, StartRtp];
      var started := endpoint.StartAudio();
      effects := effects + [Wait(100)];
    }

    /** After `StartCall`: the new session is announced to the webhook and its greeting acted on. */
    method AnswerCall(from: string, format: AudioCodec, newSessionId: string) returns (outcome: Outcome<BridgeError>)
      requires Valid() && endpoint != null && !endpoint.stopped && hasSynthesizer
      modifies this`effects, this`uas, this`recognizer, this`hasSynthesizer, this`endpoint, this`sessionId
      modifies endpoint, audioInputStream
      ensures rtpEventSsrc == old(rtpEventSsrc) && hasRtpSession == old(hasRtpSession)
      ensures Valid() && outcome == Pass
      ensures audioInputStream == old(audioInputStream) && audioInputStream.written == old(audioInputStream.written)
      ensures effects == old(effects) + RingEffects(old(uas)) + [Dialog(CallInitiatedRequest(newSessionId, from))]
        + TurnEffects(OnCallInitiated(newSessionId, from, turns), true, Some(UserAgent(false)), old(hasRtpSession),
                      old(recognizer).Some?)
      ensures HangupRequested(OnCallInitiated(newSessionId, from, turns)) ==>
        sessionId == None && recognizer == None && !hasSynthesizer && endpoint == null && uas == Some(UserAgent(true)) &&
        old(endpoint).stopped && audioInputStream.closeCount == 1 &&
        old(endpoint).outbound == old(endpoint.outbound) + StartCalls(old(endpoint.paused))
          + SentAudio(SpokenText(OnCallInitiated(newSessionId, from, turns)), true) + [CloseSource]
      ensures !HangupRequested(OnCallInitiated(newSessionId, from, turns)) ==>
        sessionId == Some(newSessionId) && uas == Some(UserAgent(false)) &&
        recognizer == old(recognizer) && hasSynthesizer && endpoint == old(endpoint) && endpoint.Running() &&
        endpoint.sinkFormats == old(endpoint.sinkFormats) && endpoint.selectedSinkFormat == format &&
        endpoint.outbound == old(endpoint.outbound) + StartCalls(old(endpoint.paused))
          + SentAudio(SpokenText(OnCallInitiated(newSessionId, from, turns)), true) &&
        endpoint.pendingKicks == old(endpoint.pendingKicks) + (if old(endpoint.paused) then 1 else 0)
    {
      StartCall(format);
      outcome := GreetCaller(from, newSessionId);
    }

    /**
     * The new session id is issued and announced to the webhook, and the
     * greeting is acted on. With a synthesiser and a running endpoint the
     * greeting always passes.
     */
    method GreetCaller(from: string, newSessionId: string) returns (outcome: Outcome<BridgeError>)
      requires Valid() && endpoint != null && endpoint.Running() && hasSynthesizer && uas == Some(UserAgent(false))
      modifies this`effects, this`uas, this`recognizer, this`hasSynthesizer, this`endpoint, this`sessionId
      modifies endpoint, audioInputStream
      ensures rtpEventSsrc == old(rtpEventSsrc) && hasRtpSession == old(hasRtpSession)
      ensures Valid() && outcome == Pass
      ensures audioInputStream == old(audioInputStream) && audioInputStream.written == old(audioInputStream.written)
      ensures effects == old(effects) + [Dialog(CallInitiatedRequest(newSessionId, from))]
        + TurnEffects(OnCallInitiated(newSessionId, from, turns), true, Some(UserAgent(false)), old(hasRtpSession),
                      old(recognizer).Some?)
      ensures HangupRequested(OnCallInitiated(newSessionId, from, turns)) ==>
        sessionId == None && recognizer == None && !hasSynthesizer && endpoint == null && uas == Some(UserAgent(true)) &&
        Disposed(old(endpoint), SentAudio(SpokenText(OnCallInitiated(newSessionId, from, turns)), true))
      ensures !HangupRequested(OnCallInitiated(newSessionId, from, turns)) ==>
        sessionId == Some(newSessionId) && uas == Some(UserAgent(false)) &&
        recognizer == old(recognizer) && hasSynthesizer && endpoint == old(endpoint) &&
        EndpointSent(SentAudio(SpokenText(OnCallInitiated(newSessionId, from, turns)), true))
    {
      sessionId := Some(newSessionId);
      effects := effects + [Dialog(CallInitiatedRequest(newSessionId, from))];
      var actions := OnCallInitiated(newSessionId, from, turns);
      ghost var before := effects;
      outcome := HandleBotActions(actions);
      TurnEffectsAfter(before, actions, true, Some(UserAgent(false)), old(hasRtpSession), old(recognizer).Some?);
    }

    /** The effects `HandleBotActions` states for a passing turn, after `prefix`, are `TurnEffects`. */
    lemma TurnEffectsAfter(prefix: seq<Effect>, actions: Option<Actions>, hasEndpoint: bool, uas: Option<UserAgent>,
                           hasRtpSession: bool, recognizing: bool)
      ensures prefix + SpeakEffects(SpokenText(actions), hasEndpoint)
          + (if HangupRequested(actions)
             then [Wait(HangupDelayMs(SpokenText(actions)))] + HangupEffects(uas, hasRtpSession, recognizing)
             else [])
        == prefix + TurnEffects(actions, hasEndpoint, uas, hasRtpSession, recognizing)
    {
      var speak := SpeakEffects(SpokenText(actions), hasEndpoint);
      var tail := if HangupRequested(actions)
        then [Wait(HangupDelayMs(SpokenText(actions)))] + HangupEffects(uas, hasRtpSession, recognizing)
        else [];
      assert TurnEffects(actions, hasEndpoint, uas, hasRtpSession, recognizing) == speak + tail;
      AppendAssoc(prefix, speak, tail);
    }

    /**
     * The SIP request handler: INVITE as above; BYE answers 200, hangs up the
     * user agent as hung up by the client and closes the RTP session, without
     * running `Hangup()`; SUBSCRIBE gets 405; OPTIONS and REGISTER get 200;
     * any other method is ignored.
     */
    method OnRequest(r: SipRequest) returns (outcome: Outcome<BridgeError>)
      requires Valid()
      modifies this
      ensures Valid()
      ensures rtpEventSsrc == old(rtpEventSsrc) && (old(endpoint) != null ==> unchanged(old(endpoint)))
      ensures r.ByeRequest? ==>
        outcome == Pass &&
        effects == old(effects) + [Respond(OK)] + (if old(uas).Some? then [HangupUas(true)] else [])
          + (if old(hasRtpSession) then [CloseRtp] else []) &&
        uas == (if old(uas).Some? then Some(UserAgent(true)) else None) &&
        sessionId == old(sessionId) && recognizer == old(recognizer) && hasSynthesizer == old(hasSynthesizer) &&
        audioInputStream == old(audioInputStream) && endpoint == old(endpoint) && hasRtpSession == old(hasRtpSession)
      ensures r.SubscribeRequest? ==> outcome == Pass && effects == old(effects) + [Respond(METHOD_NOT_ALLOWED)] && CallKept()
      ensures r.OptionsRequest? || r.RegisterRequest? ==> outcome == Pass && effects == old(effects) + [Respond(OK)] && CallKept()
      ensures r.OtherRequest? ==> outcome == Pass && effects == old(effects) && CallKept()
      ensures r.InviteRequest? && !OffersG711(r.offer) ==>
        outcome == Pass && effects == old(effects) + [Respond(NOT_ACCEPTABLE_HERE)] && CallKept()
      ensures r.InviteRequest? && OffersG711(r.offer) && GetLanguage(r.from, languages).Err? ==>
        outcome == Fail(LanguageUnavailable(GetLanguage(r.from, languages).error)) &&
        effects == old(effects) + [Dialog(GetLanguageRequest(r.from))] && CallKept()
      ensures r.InviteRequest? && OffersG711(r.offer) && GetLanguage(r.from, languages).Ok? && r.negotiated.None? ==>
        outcome == Pass && effects == old(effects) + [Dialog(GetLanguageRequest(r.from)), Respond(NOT_ACCEPTABLE_HERE)] &&
        recognizer == None && !hasSynthesizer && endpoint == null && hasRtpSession &&
        audioInputStream != null && fresh(audioInputStream) && audioInputStream.closeCount == 1 &&
        sessionId == old(sessionId) && uas == old(uas)
      ensures r.InviteRequest? && OffersG711(r.offer) && GetLanguage(r.from, languages).Ok? && r.negotiated.Some? ==>
        outcome == Pass &&
        effects == old(effects) + [Dialog(GetLanguageRequest(r.from))] + RingEffects(old(uas))
          + [Dialog(CallInitiatedRequest(r.newSessionId, r.from))]
          + TurnEffects(OnCallInitiated(r.newSessionId, r.from, turns), true, Some(UserAgent(false)), true, true) &&
        hasRtpSession && audioInputStream != null && fresh(audioInputStream) && audioInputStream.written == []
      ensures (r.InviteRequest? && OffersG711(r.offer) && GetLanguage(r.from, languages).Ok? && r.negotiated.Some? &&
               HangupRequested(OnCallInitiated(r.newSessionId, r.from, turns))) ==>
        sessionId == None && recognizer == None && !hasSynthesizer && endpoint == null && uas == Some(UserAgent(true)) &&
        audioInputStream != null && audioInputStream.closeCount == 1
      ensures (r.InviteRequest? && OffersG711(r.offer) && GetLanguage(r.from, languages).Ok? && r.negotiated.Some? &&
               !HangupRequested(OnCallInitiated(r.newSessionId, r.from, turns))) ==>
        sessionId == Some(r.newSessionId) && uas == Some(UserAgent(false)) &&
        recognizer == Some(Recognizer(GetLanguage(r.from, languages).value)) && hasSynthesizer &&
        endpoint != null && fresh(endpoint) && endpoint.Running() &&
        endpoint.sinkFormats == [PCMA, PCMU] && endpoint.selectedSinkFormat == r.negotiated.value &&
        endpoint.outbound == [StartSource] + SentAudio(SpokenText(OnCallInitiated(r.newSessionId, r.from, turns)), true) &&
        endpoint.pendingKicks == 1
    {
      match r
      case InviteRequest(from, offer, negotiated, newSessionId) =>
        outcome := OnInvite(from, offer, negotiated, newSessionId);
      case ByeRequest =>
        effects := effects + [Respond(OK)];
        if uas.Some? {
          effects := effects + [HangupUas(true)];
          uas := Some(UserAgent(true));
        }
        if hasRtpSession {
          effects := effects + [CloseRtp];
        }
        outcome := Pass;
      case SubscribeRequest =>
        effects := effects + [Respond(METHOD_NOT_ALLOWED)];
        outcome := Pass;
      case OptionsRequest =>
        effects := effects + [Respond(OK)];
        outcome := Pass;
      case RegisterRequest =>
        effects := effects + [Respond(OK)];
        outcome := Pass;
      case OtherRequest =>
        outcome := Pass;
    }
  }
}
