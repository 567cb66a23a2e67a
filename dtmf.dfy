/**
 * The DTMF edge detector of the call bridge (the `OnRtpEvent` handler in
 * Program.cs). A key press arrives as several RFC 4733 telephone-event
 * packets; the handler remembers the synchronisation source of the event in
 * progress in one 32-bit field, with 0 meaning "no event in progress", and
 * reports a press only when that field is 0.
 */
module Dtmf {
  import opened Wrappers
  import opened Codecs

  newtype uint32 = x: int | 0 <= x < 0x1_0000_0000

  /** The fields of a telephone-event packet the handler reads: event code, E bit, RTP marker bit and SSRC. */
  datatype EventPacket = EventPacket(eventId: byte, endOfEvent: bool, marker: bool, ssrc: uint32)

  /** The effect of one packet: the new tracker value and whether the press is reported. */
  datatype Step = Step(tracker: uint32, notify: bool)

  /**
   * One packet, in the order the handler tests it: with the tracker at 0, a
   * packet that is not the end of its event, or is the end and carries the
   * marker bit, is reported, and a non-end packet records its SSRC; then any
   * end-of-event packet clears a non-zero tracker.
   */
  function Observe(tracker: uint32, p: EventPacket): (r: Step)
    ensures r.notify <==> tracker == 0 && (!p.endOfEvent || p.marker)
    ensures p.endOfEvent ==> r.tracker == 0
    ensures !p.endOfEvent ==> r.tracker == (if tracker == 0 then p.ssrc else tracker)
  {
    var notify := tracker == 0 && ((p.endOfEvent && p.marker) || !p.endOfEvent);
    var recorded := if notify && !p.endOfEvent then p.ssrc else tracker;
    var cleared := if recorded != 0 && p.endOfEvent then 0 else recorded;
    Step(cleared, notify)
  }

  /** Feeds packets to the handler in order: the final tracker and the packets that were reported, in order. */
  function Run(tracker: uint32, ps: seq<EventPacket>): (r: (uint32, seq<EventPacket>))
    ensures |r.1| <= |ps|
    ensures forall p :: p in r.1 ==> p in ps
    decreases |ps|
  {
    if ps == [] then (tracker, [])
    else
      var s := Observe(tracker, ps[0]);
      var rest := Run(s.tracker, ps[1..]);
      (rest.0, (if s.notify then [ps[0]] else []) + rest.1)
  }

  /** Running two batches of packets one after the other is running their concatenation. */
  lemma {:induction false} RunAppend(tracker: uint32, a: seq<EventPacket>, b: seq<EventPacket>)
    ensures Run(tracker, a + b) == (Run(Run(tracker, a).0, b).0, Run(tracker, a).1 + Run(Run(tracker, a).0, b).1)
    decreases |a|
  {
    if a != [] {
      var s := Observe(tracker, a[0]);
      var reported := if s.notify then [a[0]] else [];
      assert (a + b)[0] == a[0] && (a + b)[1..] == a[1..] + b;
      RunAppend(s.tracker, a[1..], b);
      var mid := Run(s.tracker, a[1..]);
      assert Run(tracker, a) == (mid.0, reported + mid.1);
      assert Run(tracker, a + b) == (Run(mid.0, b).0, reported + (mid.1 + Run(mid.0, b).1));
      assert reported + (mid.1 + Run(mid.0, b).1) == (reported + mid.1) + Run(mid.0, b).1;
    } else {
      assert a + b == b;
      assert Run(tracker, a) == (tracker, []);
      assert [] + Run(tracker, b).1 == Run(tracker, b).1;
    }
  }

  /** While an event is being tracked, further non-end packets are ignored and leave the tracker alone. */
  lemma {:induction false} InterimPacketsQuiet(tracker: uint32, ps: seq<EventPacket>)
    requires tracker != 0
    requires forall i :: 0 <= i < |ps| ==> !ps[i].endOfEvent
    ensures Run(tracker, ps) == (tracker, [])
    decreases |ps|
  {
    if ps != [] {
      InterimPacketsQuiet(tracker, ps[1..]);
    }
  }

  /** End packets without the marker bit report nothing and leave the tracker at 0. */
  lemma {:induction false} EndPacketsQuiet(tracker: uint32, ps: seq<EventPacket>)
    requires |ps| > 0
    requires forall i :: 0 <= i < |ps| ==> ps[i].endOfEvent && !ps[i].marker
    ensures Run(tracker, ps) == (0, [])
    decreases |ps|
  {
    if |ps| > 1 {
      EndPacketsQuiet(0, ps[1..]);
    }
  }

  /**
   * One key press as a sender transmits it: `k >= 1` packets of the event in
   * progress, the first with a non-zero SSRC, followed by one or more copies of
   * its final packet (end bit set, marker bit clear).
   */
  predicate IsPress(ps: seq<EventPacket>, k: nat)
  {
    1 <= k < |ps| && ps[0].ssrc != 0 &&
    (forall i :: 0 <= i < k ==> !ps[i].endOfEvent) &&
    (forall i :: k <= i < |ps| ==> ps[i].endOfEvent && !ps[i].marker)
  }

  /** A press reported exactly once, on its first packet, with the tracker back at 0 afterwards. */
  lemma PressReportedOnce(ps: seq<EventPacket>, k: nat)
    requires IsPress(ps, k)
    ensures Run(0, ps) == (0, [ps[0]])
  {
    assert ps == [ps[0]] + ps[1..k] + ps[k..];
    var first := Observe(0, ps[0]);
    assert first == Step(ps[0].ssrc, true);
    InterimPacketsQuiet(ps[0].ssrc, ps[1..k]);
    EndPacketsQuiet(ps[0].ssrc, ps[k..]);
    RunAppend(ps[0].ssrc, ps[1..k], ps[k..]);
    assert ps[1..] == ps[1..k] + ps[k..];
    assert Run(ps[0].ssrc, ps[1..]) == (0, []);
    assert Run(0, ps) == (0, [ps[0]] + []);
    assert [ps[0]] + [] == [ps[0]];
  }

  /** The packets of several presses sent back to back. */
  function Concat(presses: seq<seq<EventPacket>>): (r: seq<EventPacket>)
    ensures |presses| > 0 ==> r == presses[0] + Concat(presses[1..])
  {
    if presses == [] then [] else presses[0] + Concat(presses[1..])
  }

  /** The first packet of each press. */
  function Firsts(presses: seq<seq<EventPacket>>): (r: seq<EventPacket>)
    requires forall j :: 0 <= j < |presses| ==> |presses[j]| > 0
    ensures |r| == |presses| && forall j :: 0 <= j < |r| ==> r[j] == presses[j][0]
  {
    if presses == [] then [] else [presses[0][0]] + Firsts(presses[1..])
  }

  /** `n` presses sent back to back are reported `n` times, once per press and in order. */
  lemma {:induction false} PressesReportedOnceEach(presses: seq<seq<EventPacket>>, ks: seq<nat>)
    requires |ks| == |presses|
    requires forall j :: 0 <= j < |presses| ==> IsPress(presses[j], ks[j])
    requires forall j :: 0 <= j < |presses| ==> |presses[j]| > 0
    ensures Run(0, Concat(presses)) == (0, Firsts(presses))
    decreases |presses|
  {
    if presses != [] {
      PressReportedOnce(presses[0], ks[0]);
      PressesReportedOnceEach(presses[1..], ks[1..]);
      RunAppend(0, presses[0], Concat(presses[1..]));
    }
  }

  /**
   * Because 0 doubles as "no event in progress", a sender whose SSRC is 0
   * has every non-end packet reported.
   */
  lemma {:induction false} ZeroSsrcReportsEveryPacket(ps: seq<EventPacket>)
    requires forall i :: 0 <= i < |ps| ==> !ps[i].endOfEvent && ps[i].ssrc == 0
    ensures Run(0, ps) == (0, ps)
    decreases |ps|
  {
    if ps != [] {
      ZeroSsrcReportsEveryPacket(ps[1..]);
      assert ps == [ps[0]] + ps[1..];
    }
  }

  /** Touch tones by event code: 0-9, `*`, `#`, A-D. */
  const DtmfByteToString: seq<string> :=
    ["0", "1", "2", "3", "4", "5", "6", "7", "8", "9", "*", "#", "A", "B", "C", "D"]

  /** The touch tone of an event code; codes from 16 on fall outside the table. */
  function TouchTone(id: byte): (r: Option<string>)
    ensures r.Some? <==> id < 16
    ensures id < 10 ==> r == Some([('0' as int + id as int) as char])
    ensures id == 10 ==> r == Some("*")
    ensures id == 11 ==> r == Some("#")
    ensures 12 <= id < 16 ==> r == Some([('A' as int + id as int - 12) as char])
  {
    if id < |DtmfByteToString| as byte then Some(DtmfByteToString[id]) else None
  }
}
