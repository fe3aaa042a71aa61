/** From a record's bytes to the edges it draws: what the packed reading of records costs the graph. */
module Intake {
  import opened Decimal
  import opened EdgeLists
  import opened Lineage
  import opened NodeIds
  import opened Wire
  import opened Wrappers

  function Text(b: seq<Byte>): string {
    seq(|b|, i requires 0 <= i < |b| => b[i] as char)
  }

  function Dotted(ip: seq<Byte>): string {
    if ip == [] then "" else if |ip| == 1 then Digits(ip[0]) else Digits(ip[0]) + "." + Dotted(ip[1..])
  }

  function KindOf(eventType: nat): EventKind {
    if eventType == 1 then Execve else if eventType == OPENAT then Openat else if eventType == CONNECT then ConnectTo else OtherKind
  }

  /** The event the pipeline receives. */
  function EventOf(e: ParsedEvent): Event {
    Event(KindOf(e.eventType), e.pid, e.ppid, Text(e.comm), Text(e.payload), if e.dstIP == None then "" else Dotted(e.dstIP.value),
          e.dstPort, e.isWrite, e.retVal)
  }

  ghost function Received(sample: seq<Byte>): Event
    requires |sample| >= RECORD_SIZE
  {
    EventOf(Parsed(DecodePacked(sample)))
  }

  /** What a reader that knows the layout would hand on. */
  ghost function Meant(sample: seq<Byte>): Event
    requires |sample| >= RECORD_SIZE
  {
    EventOf(Parsed(DecodeAligned(sample)))
  }

  /** The memory of an open as its tracepoint leaves it: no address family. */
  ghost predicate IsOpen(sample: seq<Byte>, raw: RawEvent) {
    InRange(raw) && ImageOf(sample, raw) && raw.eventType == OPENAT && raw.saFamily == 0
  }

  /** An open is received as meant but for the write flag, which is lost: received, it is a read, and on a
      noisy path, where only writes are drawn, it draws nothing. */
  lemma WritesAreLost(sample: seq<Byte>, raw: RawEvent)
    requires IsOpen(sample, raw)
    ensures Received(sample) == Meant(sample).(isWrite := false) && Meant(sample).isWrite == OpensForWriting(raw.flags)
    ensures DrawnEdges(Received(sample)) == DrawnEdges(Meant(sample)) <==>
            !OpensForWriting(raw.flags) || Meant(sample).payload == ""
    ensures OpensForWriting(raw.flags) && IsNoisyFile(Meant(sample).payload, false) && Meant(sample).payload != "" ==>
              DrawnEdges(Received(sample)) == [] &&
              DrawnEdges(Meant(sample)) == [(ProcId(raw.pid), FileId(Meant(sample).payload), OpenWrite)]
  {
    OpenatNeverWrites(sample, raw);
    PackedReads(sample, raw);
    AlignedRoundTrip(sample, raw);
  }

  ghost predicate IsReceivedOpen(evt: Event) {
    exists sample, raw :: IsOpen(sample, raw) && evt == Received(sample)
  }

  lemma DrawsNoWrite(evt: Event)
    requires evt.kind == Openat ==> IsReceivedOpen(evt)
    ensures forall d :: d in DrawnEdges(evt) ==> d.2 != OpenWrite
  {
    if evt.kind == Openat {
      var sample, raw :| IsOpen(sample, raw) && evt == Received(sample);
      WritesAreLost(sample, raw);
    }
  }

  lemma KindsComeFrom(a: seq<Edge>, b: seq<Edge>, drawn: seq<(string, string, EdgeType)>)
    requires Drawn(a, b, drawn) && (forall e :: e in a ==> e.kind != OpenWrite) && forall d :: d in drawn ==> d.2 != OpenWrite
    ensures forall e :: e in b ==> e.kind != OpenWrite
  {
    forall i | 0 <= i < |b|
      ensures b[i].kind != OpenWrite
    {
      if i < |a| {
        assert b[i] == a[i];
      } else {
        assert b[|a| + (i - |a|)].kind == drawn[i - |a|].2;
      }
    }
  }

  /** So in no run whose opens come from records is there ever a write edge. */
  lemma {:induction false} NoWriteEdges(shapes: seq<Shape>, events: seq<Event>, n: nat)
    requires IsRun(shapes, events) && shapes[0] == EMPTY && n <= |events|
    requires forall i :: 0 <= i < |events| && events[i].kind == Openat ==> IsReceivedOpen(events[i])
    ensures forall e :: e in shapes[n].edges ==> e.kind != OpenWrite
    decreases n
  {
    if n > 0 {
      var a, b, evt := shapes[n - 1].edges, shapes[n].edges, events[n - 1];
      NoWriteEdges(shapes, events, n - 1);
      DrawsNoWrite(evt);
      KindsComeFrom(a, b, DrawnEdges(evt));
    }
  }
}
