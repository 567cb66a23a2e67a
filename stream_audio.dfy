/**
 * The duplex audio endpoint of a call (StreamAudioEndpoint.cs): inbound RTP
 * payloads are decoded and pushed into the speech recogniser's input stream;
 * outbound linear PCM is handed to SIPSorcery's `AudioExtrasSource`, which
 * encodes and sends it. Two flags, `paused` and `stopped`, gate both paths.
 */
module StreamAudio {
  import opened Wrappers
  import opened Codecs

  /** The speech SDK's push-style input stream: what has been written to it and how often it was closed. */
  class PushStream {
    var written: seq<byte>
    var closeCount: nat

    constructor ()
      ensures written == [] && closeCount == 0
    {
      written := [];
      closeCount := 0;
    }

    method Write(data: seq<byte>)
      modifies this
      ensures written == old(written) + data && closeCount == old(closeCount)
    {
      written := written + data;
    }

    method Close()
      modifies this
      ensures closeCount == old(closeCount) + 1 && written == old(written)
    {
      closeCount := closeCount + 1;
    }
  }

  /** A call the endpoint makes on its `AudioExtrasSource`, the outbound encoder and sender. */
  datatype SourceCall = StartSource | PauseSource | ResumeSource | CloseSource | SendPcm(pcm: seq<byte>)

  datatype AudioError = UnknownCodec(codec: AudioCodec) | AlreadyStopped

  /** `new byte[160]`: the silence frame sent to open the return path and to barge in. */
  function Silence(): (r: seq<byte>)
    ensures |r| == 160 && forall i :: 0 <= i < |r| ==> r[i] == 0
  {
    seq(160, _ => 0)
  }

  class StreamAudioEndpoint {
    const inStream: PushStream
    var paused: bool
    var stopped: bool
    /** The sink formats of the endpoint's `MediaFormatManager`, and the one the media session selected. */
    var sinkFormats: seq<AudioCodec>
    var selectedSinkFormat: AudioCodec
    /** Every call made on the `AudioExtrasSource`, in order. */
    var outbound: seq<SourceCall>
    /** Deferred silence sends scheduled by `StartAudio` that have not run yet. */
    var pendingKicks: nat

    /** The input stream has been closed exactly once if the endpoint is stopped, and never otherwise. */
    ghost predicate Valid()
      reads this, inStream
    {
      inStream.closeCount == (if stopped then 1 else 0)
    }

    /** Whether audio flows in both directions. */
    predicate Running()
      reads this
    {
      !paused && !stopped
    }

    /** A new endpoint starts paused and not stopped, offering PCMA and PCMU. */
    constructor (inStream: PushStream)
      requires inStream.closeCount == 0
      ensures Valid() && this.inStream == inStream
      ensures paused && !stopped
      ensures sinkFormats == [PCMA, PCMU] && selectedSinkFormat == PCMA
      ensures outbound == [] && pendingKicks == 0
    {
      this.inStream := inStream;
      paused, stopped := true, false;
      sinkFormats, selectedSinkFormat := [PCMA, PCMU], PCMA;
      outbound, pendingKicks := [], 0;
    }

    /** `RestrictFormats(filter)`: keeps the sink formats the filter accepts, in order. */
    method RestrictFormats(keep: AudioCodec -> bool)
      modifies this
      ensures sinkFormats == Filter(keep, old(sinkFormats))
      ensures paused == old(paused) && stopped == old(stopped) && outbound == old(outbound)
      ensures selectedSinkFormat == old(selectedSinkFormat) && pendingKicks == old(pendingKicks)
    {
      sinkFormats := Filter(keep, sinkFormats);
    }

    /** `SetAudioSinkFormat(format)`: the media session's choice of inbound codec. */
    method SetAudioSinkFormat(format: AudioCodec)
      modifies this
      ensures selectedSinkFormat == format
      ensures paused == old(paused) && stopped == old(stopped) && outbound == old(outbound)
      ensures sinkFormats == old(sinkFormats) && pendingKicks == old(pendingKicks)
    {
      selectedSinkFormat := format;
    }

    /**
     * `GotAudioRtp`: nothing while paused or stopped; otherwise each payload
     * byte is decoded with the selected law and written as a little-endian
     * 16-bit sample, and a codec other than PCMA or PCMU throws.
     */
    method GotAudioRtp(payload: seq<bv8>) returns (outcome: Outcome<AudioError>)
      requires Valid()
      modifies inStream
      ensures Valid() && inStream.closeCount == old(inStream.closeCount)
      ensures !Running() ==> outcome == Pass && inStream.written == old(inStream.written)
      ensures Running() && selectedSinkFormat.OtherCodec? ==>
        outcome == Fail(UnknownCodec(selectedSinkFormat)) && inStream.written == old(inStream.written)
      ensures Running() && !selectedSinkFormat.OtherCodec? ==>
        outcome == Pass && inStream.written == old(inStream.written) + ExpandToPcm(selectedSinkFormat, payload)
    {
      if paused || stopped {
        return Pass;
      }
      if selectedSinkFormat.OtherCodec? {
        return Fail(UnknownCodec(selectedSinkFormat));
      }
      var samples := ExpandToPcm(selectedSinkFormat, payload);
      inStream.Write(samples);
      outcome := Pass;
    }

    /** `SendRawPCM(pcm)`: hands the PCM to the outbound source only while running. */
    method SendRawPcm(pcm: seq<byte>)
      modifies this`outbound
      ensures outbound == old(outbound) + (if Running() then [SendPcm(pcm)] else [])
    {
      if paused || stopped {
        return;
      }
      outbound := outbound + [SendPcm(pcm)];
    }

    /** `BargeIn()`: exactly `SendRawPCM` of the 160-byte silence frame. */
    method BargeIn()
      modifies this`outbound
      ensures outbound == old(outbound) + (if Running() then [SendPcm(Silence())] else [])
    {
      SendRawPcm(Silence());
    }

    /**
     * `StartAudio()`: throws once stopped; when paused, starts the source and
     * schedules one deferred silence send; when already running, does nothing.
     */
    method StartAudio() returns (outcome: Outcome<AudioError>)
      modifies this
      ensures stopped == old(stopped) && sinkFormats == old(sinkFormats) && selectedSinkFormat == old(selectedSinkFormat)
      ensures old(stopped) ==>
        outcome == Fail(AlreadyStopped) && paused == old(paused) && outbound == old(outbound) && pendingKicks == old(pendingKicks)
      ensures !old(stopped) ==> outcome == Pass && !paused
      ensures !old(stopped) && old(paused) ==>
        outbound == old(outbound) + [StartSource] && pendingKicks == old(pendingKicks) + 1
      ensures !old(stopped) && !old(paused) ==>
        outbound == old(outbound) && pendingKicks == old(pendingKicks)
    {
      if stopped {
        return Fail(AlreadyStopped);
      }
      if paused {
        paused := false;
        outbound := outbound + [StartSource];
        pendingKicks := pendingKicks + 1;
      }
      outcome := Pass;
    }

    /** The deferred task `StartAudio` scheduled: 50 ms later, `SendRawPCM` of the silence frame. */
    method RunKick()
      requires pendingKicks > 0
      modifies this`outbound, this`pendingKicks
      ensures pendingKicks == old(pendingKicks) - 1
      ensures outbound == old(outbound) + (if Running() then [SendPcm(Silence())] else [])
    {
      pendingKicks := pendingKicks - 1;
      SendRawPcm(Silence());
    }

    /** `PauseAudio()`: sets `paused` and pauses the source. */
    method PauseAudio()
      modifies this`paused, this`outbound
      ensures paused && outbound == old(outbound) + [PauseSource]
    {
      paused := true;
      outbound := outbound + [PauseSource];
    }

    /** `ResumeAudio()`: clears `paused` without looking at `stopped`, and resumes the source. */
    method ResumeAudio()
      modifies this`paused, this`outbound
      ensures !paused && outbound == old(outbound) + [ResumeSource]
    {
      paused := false;
      outbound := outbound + [ResumeSource];
    }

    /** `IsAudioSourcePaused()`: a paused source is not running, and a source that is not stopped runs exactly when not paused. */
    function IsAudioSourcePaused(): (r: bool)
      reads this
      ensures r ==> !Running()
      ensures !stopped ==> (r <==> !Running())
    {
      paused
    }

    /** `CloseAudio()`: closes the input stream on the first call only; the endpoint stays stopped. */
    method CloseAudio()
      requires Valid()
      modifies this`stopped, this`outbound, inStream
      ensures Valid() && stopped
      ensures inStream.closeCount == 1 && inStream.written == old(inStream.written)
      ensures outbound == old(outbound) + [CloseSource]
    {
      if !stopped {
        inStream.Close();
      }
      stopped := true;
      outbound := outbound + [CloseSource];
    }

    /** `Dispose()`: `CloseAudio()`. */
    method Dispose()
      requires Valid()
      modifies this`stopped, this`outbound, inStream
      ensures Valid() && stopped
      ensures inStream.closeCount == 1 && inStream.written == old(inStream.written)
      ensures outbound == old(outbound) + [CloseSource]
    {
      CloseAudio();
    }
  }

  /** The formats a filter keeps, in their original order. */
  function Filter(keep: AudioCodec -> bool, formats: seq<AudioCodec>): (r: seq<AudioCodec>)
    ensures |r| <= |formats|
    ensures forall c :: c in r <==> c in formats && keep(c)
  {
    if formats == [] then []
    else (if keep(formats[0]) then [formats[0]] else []) + Filter(keep, formats[1..])
  }

  /**
   * An illustration, not a member of the endpoint: one lifecycle walked
   * through. Nothing is ingested before the start, audio flows while running,
   * and after a close neither `ResumeAudio` nor a second close lets audio
   * through or closes the stream again.
   */
  method LifecycleExample(payload: seq<bv8>)
    requires |payload| > 0
  {
    var stream := new PushStream();
    var endpoint := new StreamAudioEndpoint(stream);
    var outcome := endpoint.GotAudioRtp(payload);
    assert stream.written == [];
    outcome := endpoint.StartAudio();
    assert outcome == Pass && endpoint.pendingKicks == 1;
    outcome := endpoint.GotAudioRtp(payload);
    assert stream.written == ExpandToPcm(PCMA, payload) && |stream.written| == 2 * |payload|;
    endpoint.CloseAudio();
    endpoint.Dispose();
    assert stream.closeCount == 1;
    endpoint.ResumeAudio();
    var before := stream.written;
    outcome := endpoint.GotAudioRtp(payload);
    assert stream.written == before;
    var sent := endpoint.outbound;
    endpoint.RunKick();
    assert endpoint.outbound == sent;
    outcome := endpoint.StartAudio();
    assert outcome == Fail(AlreadyStopped);
  }
}
