/** The ring-buffer record: a naturally aligned C struct written by the tracepoints, read back field
    by field as if it were packed. Integers are little-endian; padding bytes are arbitrary. */
module Wire {
  import opened Wrappers

  type Byte = b: int | 0 <= b < 256

  const RECORD_SIZE := 320

  // ---- little-endian integers ----

  function Pow256(n: nat): (p: nat)
    ensures p > 0
  {
    if n == 0 then 1 else 256 * Pow256(n - 1)
  }

  function ToLE(v: nat, n: nat): (s: seq<Byte>)
    ensures |s| == n
  {
    if n == 0 then [] else [v % 256] + ToLE(v / 256, n - 1)
  }

  function FromLE(s: seq<Byte>): nat {
    if s == [] then 0 else s[0] + 256 * FromLE(s[1..])
  }

  lemma {:induction false} LERoundTrip(v: nat, n: nat)
    requires v < Pow256(n)
    ensures FromLE(ToLE(v, n)) == v
    decreases n
  {
    if n > 0 {
      LERoundTrip(v / 256, n - 1);
      assert ToLE(v, n)[1..] == ToLE(v / 256, n - 1);
    }
  }

  lemma {:induction false} FromLESplit(s: seq<Byte>, t: seq<Byte>)
    ensures FromLE(s + t) == FromLE(s) + Pow256(|s|) * FromLE(t)
    decreases |s|
  {
    if s == [] {
      assert s + t == t;
    } else {
      FromLESplit(s[1..], t);
      assert (s + t)[1..] == s[1..] + t;
      ScaleSum(s[0], FromLE(s[1..]), Pow256(|s| - 1), FromLE(t));
    }
  }

  lemma ScaleSum(a: int, b: int, p: int, c: int)
    ensures a + 256 * (b + p * c) == (a + 256 * b) + (256 * p) * c
  {
  }

  lemma {:induction false} FromLEBound(s: seq<Byte>)
    ensures FromLE(s) < Pow256(|s|)
    decreases |s|
  {
    if s != [] {
      FromLEBound(s[1..]);
    }
  }

  /** A 32-bit pattern as a signed integer. */
  function Signed32(v: nat): int {
    if v < 0x8000_0000 then v else v - 0x1_0000_0000
  }

  function Unsigned32(v: int): nat
    requires -0x8000_0000 <= v < 0x8000_0000
  {
    if v < 0 then v + 0x1_0000_0000 else v
  }

  // ---- the struct ----

  /** The fields in declaration order; strings are raw bytes. */
  datatype RawEvent = RawEvent(
    eventType: nat, pid: nat, ppid: nat, uid: nat, timestampNs: nat, comm: seq<Byte>, payload: seq<Byte>, retVal: int,
    payloadLen: nat, dstPort: nat, dstIP4: nat, saFamily: nat, flags: int)

  predicate InRange(e: RawEvent) {
    && e.eventType < 0x1_0000_0000 && e.pid < 0x1_0000_0000 && e.ppid < 0x1_0000_0000 && e.uid < 0x1_0000_0000
    && e.timestampNs < 0x1_0000_0000_0000_0000 && |e.comm| == 16 && |e.payload| == 256
    && -0x8000_0000 <= e.retVal < 0x8000_0000 && e.payloadLen < 0x1_0000_0000
    && e.dstPort < 0x1_0000 && e.dstIP4 < 0x1_0000_0000 && e.saFamily < 0x1_0000
    && -0x8000_0000 <= e.flags < 0x8000_0000
  }

  /** Size of field k, in declaration order: five integers, two strings, six integers. */
  function SizeOf(k: nat): nat {
    if k == 4 then 8 else if k == 5 then 16 else if k == 6 then 256 else if k == 9 || k == 11 then 2 else 4
  }

  /** Integers are aligned to their size, character arrays not at all. */
  function AlignmentOf(k: nat): (a: nat)
    ensures a > 0
  {
    if k == 5 || k == 6 then 1 else SizeOf(k)
  }

  function AlignUp(n: nat, a: nat): nat
    requires a > 0
  {
    if n % a == 0 then n else n + (a - n % a)
  }

  /** Where the C compiler puts field k: the next multiple of its alignment. */
  function AlignedOffset(k: nat): nat {
    if k == 0 then 0 else AlignUp(AlignedOffset(k - 1) + SizeOf(k - 1), AlignmentOf(k))
  }

  /** Where binary.Read looks for it: right after the field before. */
  function PackedOffset(k: nat): nat {
    if k == 0 then 0 else PackedOffset(k - 1) + SizeOf(k - 1)
  }

  function AlignedTable(k: nat): nat {
    if k < 4 then 4 * k else if k == 4 then 16 else if k == 5 then 24 else if k == 6 then 40 else if k == 7 then 296
    else if k == 8 then 300 else if k == 9 then 304 else if k == 10 then 308 else if k == 11 then 312 else 316
  }

  function PackedTable(k: nat): nat {
    if k < 10 then AlignedTable(k) else if k == 10 then 306 else if k == 11 then 310 else 312
  }

  lemma AlignStep(n: nat, a: nat, k: nat)
    requires 0 < k < 13 && a == AlignmentOf(k) && n == AlignedTable(k - 1) + SizeOf(k - 1)
    ensures AlignUp(n, a) == AlignedTable(k)
  {
    if a == 1 {
    } else if a == 2 {
    } else if a == 4 {
    } else {
      assert a == 8;
    }
  }

  /** The two layouts part after dst_port: 4-byte alignment pads dst_ip4 and flags by two bytes each. */
  lemma {:induction false} Offsets(k: nat)
    requires k < 13
    ensures AlignedOffset(k) == AlignedTable(k) && PackedOffset(k) == PackedTable(k)
  {
    if k > 0 {
      Offsets(k - 1);
      AlignStep(AlignedOffset(k - 1) + SizeOf(k - 1), AlignmentOf(k), k);
    }
  }

  /** b is the memory of the struct: every field at its aligned offset, anything in the padding. */
  ghost predicate ImageOf(b: seq<Byte>, e: RawEvent)
    requires InRange(e)
  {
    && |b| == RECORD_SIZE
    && b[0..4] == ToLE(e.eventType, 4) && b[4..8] == ToLE(e.pid, 4) && b[8..12] == ToLE(e.ppid, 4)
    && b[12..16] == ToLE(e.uid, 4) && b[16..24] == ToLE(e.timestampNs, 8)
    && b[24..40] == e.comm && b[40..296] == e.payload
    && b[296..300] == ToLE(Unsigned32(e.retVal), 4) && b[300..304] == ToLE(e.payloadLen, 4)
    && b[304..306] == ToLE(e.dstPort, 2)
    && b[308..312] == ToLE(e.dstIP4, 4) && b[312..314] == ToLE(e.saFamily, 2)
    && b[316..320] == ToLE(Unsigned32(e.flags), 4)
  }

  /** The fields on which both layouts agree. */
  function DecodeHead(b: seq<Byte>): (e: RawEvent)
    requires |b| >= RECORD_SIZE
  {
    RawEvent(FromLE(b[0..4]), FromLE(b[4..8]), FromLE(b[8..12]), FromLE(b[12..16]), FromLE(b[16..24]),
             b[24..40], b[40..296], Signed32(FromLE(b[296..300])), FromLE(b[300..304]), FromLE(b[304..306]), 0, 0, 0)
  }

  /** The reader the layout calls for. */
  function DecodeAligned(b: seq<Byte>): RawEvent
    requires |b| >= RECORD_SIZE
  {
    DecodeHead(b).(dstIP4 := FromLE(b[308..312]), saFamily := FromLE(b[312..314]), flags := Signed32(FromLE(b[316..320])))
  }

  /** The reader the code has: binary.Read skips no padding. */
  function DecodePacked(b: seq<Byte>): RawEvent
    requires |b| >= RECORD_SIZE
  {
    DecodeHead(b).(dstIP4 := FromLE(b[306..310]), saFamily := FromLE(b[310..312]), flags := Signed32(FromLE(b[312..316])))
  }

  lemma HeadRoundTrip(b: seq<Byte>, e: RawEvent)
    requires InRange(e) && ImageOf(b, e)
    ensures DecodeHead(b) == e.(dstIP4 := 0, saFamily := 0, flags := 0)
  {
    Powers();
    LERoundTrip(e.eventType, 4);
    LERoundTrip(e.pid, 4);
    LERoundTrip(e.ppid, 4);
    LERoundTrip(e.uid, 4);
    LERoundTrip(e.timestampNs, 8);
    LERoundTrip(Unsigned32(e.retVal), 4);
    LERoundTrip(e.payloadLen, 4);
    LERoundTrip(e.dstPort, 2);
  }

  lemma Powers()
    ensures Pow256(1) == 256 && Pow256(2) == 0x1_0000 && Pow256(4) == 0x1_0000_0000 && Pow256(8) == 0x1_0000_0000_0000_0000
  {
    assert Pow256(3) == 256 * Pow256(2);
    assert Pow256(5) == 256 * Pow256(4);
    assert Pow256(6) == 256 * Pow256(5);
    assert Pow256(7) == 256 * Pow256(6);
  }

  /** The aligned reader returns every field. */
  lemma AlignedRoundTrip(b: seq<Byte>, e: RawEvent)
    requires InRange(e) && ImageOf(b, e)
    ensures DecodeAligned(b) == e
  {
    HeadRoundTrip(b, e);
    Powers();
    LERoundTrip(e.dstIP4, 4);
    LERoundTrip(e.saFamily, 2);
    LERoundTrip(Unsigned32(e.flags), 4);
  }

  /** What stands in the two gaps. */
  function Padding1(b: seq<Byte>): nat
    requires |b| >= RECORD_SIZE
  {
    FromLE(b[306..308])
  }

  function Padding2(b: seq<Byte>): nat
    requires |b| >= RECORD_SIZE
  {
    FromLE(b[314..316])
  }

  lemma Halves(b: seq<Byte>, i: nat)
    requires i + 4 <= |b|
    ensures FromLE(b[i..i + 4]) == FromLE(b[i..i + 2]) + 0x1_0000 * FromLE(b[i + 2..i + 4])
    ensures FromLE(b[i..i + 2]) < 0x1_0000 && FromLE(b[i + 2..i + 4]) < 0x1_0000
  {
    Powers();
    assert b[i..i + 4] == b[i..i + 2] + b[i + 2..i + 4];
    FromLESplit(b[i..i + 2], b[i + 2..i + 4]);
    FromLEBound(b[i..i + 2]);
    FromLEBound(b[i + 2..i + 4]);
  }

  /** The packed reader returns the same fields up to dst_port; its last three are pieces of the
      fields before them and of the padding. */
  lemma PackedReads(b: seq<Byte>, e: RawEvent)
    requires InRange(e) && ImageOf(b, e)
    ensures DecodePacked(b) ==
            e.(dstIP4 := Padding1(b) + 0x1_0000 * (e.dstIP4 % 0x1_0000),
               saFamily := e.dstIP4 / 0x1_0000,
               flags := Signed32(e.saFamily + 0x1_0000 * Padding2(b)))
    ensures Padding1(b) < 0x1_0000 && Padding2(b) < 0x1_0000
  {
    HeadRoundTrip(b, e);
    AlignedRoundTrip(b, e);
    Halves(b, 306);
    Halves(b, 308);
    Halves(b, 312);
    assert FromLE(b[308..312]) == e.dstIP4 && FromLE(b[312..314]) == e.saFamily;
  }

  /** The packed reader is right exactly when the misread pieces happen to coincide. */
  lemma PackedAgreesIff(b: seq<Byte>, e: RawEvent)
    requires InRange(e) && ImageOf(b, e)
    ensures DecodePacked(b) == e <==>
              && Padding1(b) == e.dstIP4 % 0x1_0000 == e.dstIP4 / 0x1_0000 == e.saFamily
              && Unsigned32(e.flags) == e.saFamily + 0x1_0000 * Padding2(b)
  {
    PackedReads(b, e);
    var ip := Padding1(b) + 0x1_0000 * (e.dstIP4 % 0x1_0000);
    assert ip % 0x1_0000 == Padding1(b) && ip / 0x1_0000 == e.dstIP4 % 0x1_0000;
  }

  // ---- what becomes of an event ----

  const OPENAT := 2
  const CONNECT := 3

  datatype ParsedEvent = ParsedEvent(
    eventType: nat, pid: nat, ppid: nat, uid: nat, timestampNs: nat, comm: seq<Byte>, payload: seq<Byte>, retVal: int,
    dstPort: nat, dstIP: Option<seq<Byte>>, saFamily: nat, flags: int, isWrite: bool)

  ghost function UntilNul(b: seq<Byte>): seq<Byte> {
    if b == [] || b[0] == 0 then [] else [b[0]] + UntilNul(b[1..])
  }

  /** The bytes before the first NUL, or all of them. */
  method NullTermStr(b: seq<Byte>) returns (s: seq<Byte>)
    ensures s == UntilNul(b)
  {
    for i := 0 to |b|
      invariant UntilNul(b) == b[..i] + UntilNul(b[i..])
    {
      if b[i] == 0 {
        return b[..i];
      }
      assert b[..i + 1] == b[..i] + [b[i]];
      assert b[i..][1..] == b[i + 1..];
    }
    return b;
  }

  /** A string written into a zeroed field comes back, if it holds no NUL itself. */
  lemma {:induction false} UntilNulRoundTrip(s: seq<Byte>, rest: seq<Byte>)
    requires (forall i :: 0 <= i < |s| ==> s[i] != 0) && (rest == [] || rest[0] == 0)
    ensures UntilNul(s + rest) == s
    decreases |s|
  {
    if s == [] {
      assert s + rest == rest;
    } else {
      UntilNulRoundTrip(s[1..], rest);
      assert (s + rest)[1..] == s[1..] + rest;
    }
  }

  function Bit(v: int, p: nat): bool
    requires p > 0
  {
    v / p % 2 == 1
  }

  /** O_WRONLY, O_RDWR or O_CREAT. */
  predicate OpensForWriting(flags: int) {
    Bit(flags, 0x1) || Bit(flags, 0x2) || Bit(flags, 0x40)
  }

  /** The flags in binary: bits 0 and 1, bit 6, and the others. Access modes 1 to 3 write, and so does creating. */
  lemma WritesIff(access: nat, other: nat, create: nat, high: int)
    requires access < 4 && other < 16 && create < 2
    ensures OpensForWriting(access + 4 * other + 64 * create + 128 * high) <==> access > 0 || create == 1
  {
    var flags := access + 4 * other + 64 * create + 128 * high;
    assert flags / 64 == create + 2 * high && flags / 2 == access / 2 + 2 * (other + 16 * create + 32 * high);
    assert flags % 2 == access % 2;
  }

  ghost function Parsed(raw: RawEvent): ParsedEvent {
    ParsedEvent(
      raw.eventType, raw.pid, raw.ppid, raw.uid, raw.timestampNs, UntilNul(raw.comm), UntilNul(raw.payload), raw.retVal,
      raw.dstPort, if raw.eventType == CONNECT && raw.dstIP4 != 0 then Some(ToLE(raw.dstIP4, 4)) else None, raw.saFamily,
      raw.flags, raw.eventType == OPENAT && OpensForWriting(raw.flags))
  }

  method ParseEvent(raw: RawEvent) returns (e: ParsedEvent)
    ensures e == Parsed(raw)
  {
    var comm := NullTermStr(raw.comm);
    var payload := NullTermStr(raw.payload);
    e := ParsedEvent(raw.eventType, raw.pid, raw.ppid, raw.uid, raw.timestampNs, comm, payload, raw.retVal, raw.dstPort, None,
                     raw.saFamily, raw.flags, false);
    if e.eventType == CONNECT && raw.dstIP4 != 0 {
      e := e.(dstIP := Some(ToLE(raw.dstIP4, 4)));
    }
    if e.eventType == OPENAT {
      e := e.(isWrite := OpensForWriting(raw.flags));
    }
  }

  /** One turn of the reader loop: short records are skipped. */
  method DecodeRecord(sample: seq<Byte>) returns (e: Option<ParsedEvent>)
    ensures e == if |sample| < RECORD_SIZE then None else Some(Parsed(DecodePacked(sample)))
  {
    if |sample| < RECORD_SIZE {
      return None;
    }
    var parsed := ParseEvent(DecodePacked(sample));
    return Some(parsed);
  }

  /** With the aligned reader a connect event shows the address bytes in the order they stand in
      memory, which is network order. */
  lemma AlignedAddress(b: seq<Byte>, e: RawEvent)
    requires InRange(e) && ImageOf(b, e) && e.eventType == CONNECT && e.dstIP4 != 0
    ensures Parsed(DecodeAligned(b)).dstIP == Some(b[308..312])
  {
    AlignedRoundTrip(b, e);
  }

  /** The openat tracepoint leaves sa_family zero, so the packed reader never sees the open flags:
      an openat event is a write for the reader in no case. */
  lemma OpenatNeverWrites(b: seq<Byte>, e: RawEvent)
    requires InRange(e) && ImageOf(b, e) && e.eventType == OPENAT && e.saFamily == 0
    ensures !Parsed(DecodePacked(b)).isWrite
    ensures Parsed(DecodePacked(b)).isWrite == Parsed(DecodeAligned(b)).isWrite <==> !OpensForWriting(e.flags)
  {
    PackedReads(b, e);
    AlignedRoundTrip(b, e);
    LowBitsClear(Padding2(b));
  }

  lemma LowBitsClear(p: nat)
    requires p < 0x1_0000
    ensures !OpensForWriting(Signed32(0x1_0000 * p))
  {
    var f := Signed32(0x1_0000 * p);
    var h := if 0x1_0000 * p < 0x8000_0000 then p else p - 0x1_0000;
    assert f == 0x1_0000 * h;
    assert f / 0x1 == 2 * (0x8000 * h) && f / 0x2 == 2 * (0x4000 * h) && f / 0x40 == 2 * (0x200 * h);
  }

  /** The packed reader gets the address of a connect event right exactly when both its halves equal what
      the first gap holds; with zeros there only for 0.0.0.0. */
  lemma ConnectAddressIff(b: seq<Byte>, e: RawEvent)
    requires InRange(e) && ImageOf(b, e)
    ensures DecodePacked(b).dstIP4 == e.dstIP4 <==> Padding1(b) == e.dstIP4 % 0x1_0000 == e.dstIP4 / 0x1_0000
    ensures Padding1(b) == 0 ==> (DecodePacked(b).dstIP4 == e.dstIP4 <==> e.dstIP4 == 0)
  {
    PackedReads(b, e);
    HalvesDecide(e.dstIP4, Padding1(b), e.dstIP4 % 0x1_0000);
  }

  lemma HalvesDecide(ip: nat, low: nat, high: nat)
    requires low < 0x1_0000 && high < 0x1_0000
    ensures low + 0x1_0000 * high == ip <==> low == ip % 0x1_0000 && high == ip / 0x1_0000
  {
    if low + 0x1_0000 * high == ip {
      assert ip % 0x1_0000 == low;
    }
  }

  // ---- the images exist ----

  function Place(e: RawEvent, pad1: seq<Byte>, pad2: seq<Byte>, i: nat): Byte
    requires InRange(e) && |pad1| == 2 && |pad2| == 2 && i < RECORD_SIZE
  {
    if i < 4 then ToLE(e.eventType, 4)[i] else if i < 8 then ToLE(e.pid, 4)[i - 4]
    else if i < 12 then ToLE(e.ppid, 4)[i - 8] else if i < 16 then ToLE(e.uid, 4)[i - 12]
    else if i < 24 then ToLE(e.timestampNs, 8)[i - 16] else if i < 40 then e.comm[i - 24]
    else if i < 296 then e.payload[i - 40] else if i < 300 then ToLE(Unsigned32(e.retVal), 4)[i - 296]
    else if i < 304 then ToLE(e.payloadLen, 4)[i - 300] else if i < 306 then ToLE(e.dstPort, 2)[i - 304]
    else if i < 308 then pad1[i - 306] else if i < 312 then ToLE(e.dstIP4, 4)[i - 308]
    else if i < 314 then ToLE(e.saFamily, 2)[i - 312] else if i < 316 then pad2[i - 314]
    else ToLE(Unsigned32(e.flags), 4)[i - 316]
  }

  /** The record the kernel submits for e, with the given bytes left in the padding. */
  function Encode(e: RawEvent, pad1: seq<Byte>, pad2: seq<Byte>): (b: seq<Byte>)
    requires InRange(e) && |pad1| == 2 && |pad2| == 2
  {
    seq(RECORD_SIZE, i requires 0 <= i < RECORD_SIZE => Place(e, pad1, pad2, i))
  }

  lemma EncodeIsImage(e: RawEvent, pad1: seq<Byte>, pad2: seq<Byte>)
    requires InRange(e) && |pad1| == 2 && |pad2| == 2
    ensures ImageOf(Encode(e, pad1, pad2), e)
    ensures Encode(e, pad1, pad2)[306..308] == pad1 && Encode(e, pad1, pad2)[314..316] == pad2
  {
    PlacedAt(e, pad1, pad2, 0, ToLE(e.eventType, 4));
    PlacedAt(e, pad1, pad2, 4, ToLE(e.pid, 4));
    PlacedAt(e, pad1, pad2, 8, ToLE(e.ppid, 4));
    PlacedAt(e, pad1, pad2, 12, ToLE(e.uid, 4));
    PlacedAt(e, pad1, pad2, 16, ToLE(e.timestampNs, 8));
    PlacedAt(e, pad1, pad2, 24, e.comm);
    PlacedAt(e, pad1, pad2, 40, e.payload);
    PlacedAt(e, pad1, pad2, 296, ToLE(Unsigned32(e.retVal), 4));
    PlacedAt(e, pad1, pad2, 300, ToLE(e.payloadLen, 4));
    PlacedAt(e, pad1, pad2, 304, ToLE(e.dstPort, 2));
    PlacedAt(e, pad1, pad2, 306, pad1);
    PlacedAt(e, pad1, pad2, 308, ToLE(e.dstIP4, 4));
    PlacedAt(e, pad1, pad2, 312, ToLE(e.saFamily, 2));
    PlacedAt(e, pad1, pad2, 314, pad2);
    PlacedAt(e, pad1, pad2, 316, ToLE(Unsigned32(e.flags), 4));
  }

  lemma PlacedAt(e: RawEvent, pad1: seq<Byte>, pad2: seq<Byte>, from: nat, s: seq<Byte>)
    requires InRange(e) && |pad1| == 2 && |pad2| == 2 && from + |s| <= RECORD_SIZE
    requires forall i :: 0 <= i < |s| ==> Place(e, pad1, pad2, from + i) == s[i]
    ensures Encode(e, pad1, pad2)[from..from + |s|] == s
  {
  }
}
