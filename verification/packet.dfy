/** common/packet.h: the 29-byte packet header, its byte layout, and the additive checksum. */
module Packets {
  import opened Basics

  const HANDSHAKE_REQUEST: Byte := 1
  const HANDSHAKE_ACK: Byte := 2
  const HANDSHAKE_FAIL: Byte := 3
  const TELEMETRY: Byte := 4
  const LARGE_FILE: Byte := 5
  const DISCONNECT: Byte := 6

  const FIELD_SIZE := 16
  const HEADER_SIZE := 29

  /** `char aircraft_id[16]`. */
  type Field = f: seq<Byte> | |f| == FIELD_SIZE witness seq(FIELD_SIZE, _ => 0)

  /** The type byte comes off the wire unchecked, so any value is possible. */
  datatype Header = Header(kind: Byte, aircraft: Field, sequence: Word, size: Word, checksum: Word)

  datatype Packet = Packet(header: Header, payload: seq<Byte>) {
    /** The header announces exactly the payload that follows it. */
    ghost predicate WellFormed() {
      |payload| == header.size
    }
  }

  // ---------------------------------------------------------------- byte layout

  function LittleEndian(n: Word): (b: seq<Byte>)
    ensures |b| == 4
  {
    [n % 0x100, n / 0x100 % 0x100, n / 0x1_0000 % 0x100, n / 0x100_0000]
  }

  function FromLittleEndian(b: seq<Byte>): (n: Word)
    requires |b| == 4
  {
    (b[0] as int) + (b[1] as int) * 0x100 + (b[2] as int) * 0x1_0000 + (b[3] as int) * 0x100_0000
  }

  lemma LittleEndianRoundTrip(n: Word, b: seq<Byte>)
    requires |b| == 4
    ensures FromLittleEndian(LittleEndian(n)) == n
    ensures LittleEndian(FromLittleEndian(b)) == b
  {
    WordRoundTrip(n);
    BytesRoundTrip(b[0], b[1], b[2], b[3]);
    assert b == [b[0], b[1], b[2], b[3]];
    hide *;
  }

  lemma WordRoundTrip(n: Word)
    ensures FromLittleEndian(LittleEndian(n)) == n
  {
    Quotients(n);
    var n1 := n / 0x100;
    var n2 := n1 / 0x100;
    assert n == n % 0x100 + n1 * 0x100 && n1 == n1 % 0x100 + n2 * 0x100 && n2 == n2 % 0x100 + n2 / 0x100 * 0x100;
  }

  lemma Quotients(n: nat)
    ensures n / 0x1_0000 == n / 0x100 / 0x100 && n / 0x100_0000 == n / 0x100 / 0x100 / 0x100
  {
  }

  lemma BytesRoundTrip(b0: Byte, b1: Byte, b2: Byte, b3: Byte)
    ensures LittleEndian(FromLittleEndian([b0, b1, b2, b3])) == [b0, b1, b2, b3]
  {
    var n3 := b3 as nat;
    var n2 := Digit(b2, n3);
    var n1 := Digit(b1, n2);
    var n := Digit(b0, n1);
    Quotients(n);
  }

  /** A digit put in front of a number can be read off again. */
  lemma Digit(low: Byte, high: nat) returns (n: nat)
    ensures n == low + high * 0x100 && n % 0x100 == low && n / 0x100 == high
  {
    n := low + high * 0x100;
  }

  /** `#pragma pack(1)`: the fields follow one another with no padding. */
  function EncodeHeader(h: Header): (b: seq<Byte>)
    ensures |b| == HEADER_SIZE
  {
    [h.kind] + h.aircraft + LittleEndian(h.sequence) + LittleEndian(h.size) + LittleEndian(h.checksum)
  }

  function DecodeHeader(b: seq<Byte>): (h: Header)
    requires |b| == HEADER_SIZE
  {
    Header(b[0], b[1..17], FromLittleEndian(b[17..21]), FromLittleEndian(b[21..25]), FromLittleEndian(b[25..29]))
  }

  /** Where each field lies in the 29 bytes, and that the low byte of a number comes first. */
  lemma HeaderLayout(h: Header)
    ensures
      var b := EncodeHeader(h);
      && |b| == 29 && b[0] == h.kind && b[1..17] == h.aircraft
      && b[17] == h.sequence % 256 && b[18] == h.sequence / 256 % 256
      && b[19] == h.sequence / 65536 % 256 && b[20] == h.sequence / 16777216
      && b[21] == h.size % 256 && b[22] == h.size / 256 % 256
      && b[23] == h.size / 65536 % 256 && b[24] == h.size / 16777216
      && b[25] == h.checksum % 256 && b[26] == h.checksum / 256 % 256
      && b[27] == h.checksum / 65536 % 256 && b[28] == h.checksum / 16777216
  {
    var b := EncodeHeader(h);
    var q, z, c := LittleEndian(h.sequence), LittleEndian(h.size), LittleEndian(h.checksum);
    assert b[1..17] == h.aircraft;
    assert b[17..21] == q && b[21..25] == z && b[25..29] == c;
    assert forall i :: 0 <= i < 4 ==>
      b[17..21][i] == b[17 + i] && b[21..25][i] == b[21 + i] && b[25..29][i] == b[25 + i];
    hide EncodeHeader;
  }

  lemma HeaderRoundTrip(h: Header)
    ensures DecodeHeader(EncodeHeader(h)) == h
  {
    var b := EncodeHeader(h);
    var q, z, c := LittleEndian(h.sequence), LittleEndian(h.size), LittleEndian(h.checksum);
    assert b[1..17] == h.aircraft;
    assert b[17..21] == q && b[21..25] == z && b[25..29] == c;
    LittleEndianRoundTrip(h.sequence, q);
    LittleEndianRoundTrip(h.size, z);
    LittleEndianRoundTrip(h.checksum, c);
  }

  /** Every 29 bytes are the encoding of exactly one header. */
  lemma HeaderBytesRoundTrip(b: seq<Byte>)
    requires |b| == HEADER_SIZE
    ensures EncodeHeader(DecodeHeader(b)) == b
  {
    LittleEndianRoundTrip(0, b[17..21]);
    LittleEndianRoundTrip(0, b[21..25]);
    LittleEndianRoundTrip(0, b[25..29]);
    assert b == [b[0]] + b[1..17] + b[17..21] + b[21..25] + b[25..29];
  }

  function EncodePacket(p: Packet): seq<Byte> {
    EncodeHeader(p.header) + p.payload
  }

  function EncodeAll(ps: seq<Packet>): seq<Byte> {
    if ps == [] then [] else EncodeAll(ps[..|ps| - 1]) + EncodePacket(ps[|ps| - 1])
  }

  lemma EncodeAllPush(ps: seq<Packet>, p: Packet)
    ensures EncodeAll(ps + [p]) == EncodeAll(ps) + EncodePacket(p)
  {
    assert (ps + [p])[..|ps|] == ps;
  }

  lemma {:induction false} EncodeAllFront(ps: seq<Packet>)
    requires ps != []
    ensures EncodeAll(ps) == EncodePacket(ps[0]) + EncodeAll(ps[1..])
  {
    if |ps| > 1 {
      var init := ps[..|ps| - 1];
      EncodeAllFront(init);
      assert ps[1..][..|ps[1..]| - 1] == init[1..];
    } else {
      assert ps[..0] == [] && EncodeAll([]) == [];
    }
  }

  ghost predicate AllWellFormed(ps: seq<Packet>) {
    forall i :: 0 <= i < |ps| ==> ps[i].WellFormed()
  }

  /** Two readers of one stream that start on a packet boundary agree on every boundary after it. */
  lemma {:induction false} BoundariesAgree(read: seq<Packet>, rest: seq<Byte>, written: seq<Packet>)
    requires AllWellFormed(read) && AllWellFormed(written)
    requires EncodeAll(read) + rest == EncodeAll(written)
    ensures |read| <= |written| && read == written[..|read|] && rest == EncodeAll(written[|read|..])
  {
    if read == [] {
      assert written[0..] == written && EncodeAll(read) == [];
    } else {
      FirstPacketAgrees(read, rest, written);
      TailsWellFormed(read, written);
      BoundariesAgree(read[1..], rest, written[1..]);
      PutBack(read, written, rest);
    }
    hide *;
  }

  lemma TailsWellFormed(a: seq<Packet>, b: seq<Packet>)
    requires AllWellFormed(a) && AllWellFormed(b) && a != [] && b != []
    ensures AllWellFormed(a[1..]) && AllWellFormed(b[1..]) && a[0].WellFormed() && b[0].WellFormed()
  {
  }

  lemma PutBack(a: seq<Packet>, b: seq<Packet>, rest: seq<Byte>)
    requires a != [] && b != [] && a[0] == b[0] && |a| <= |b| && a[1..] == b[1..][..|a| - 1]
    requires rest == EncodeAll(b[1..][|a| - 1..])
    ensures a == b[..|a|] && rest == EncodeAll(b[|a|..])
  {
    hide EncodeAll;
    assert a == [a[0]] + a[1..] && b == [b[0]] + b[1..];
    assert b[|a|..] == b[1..][|a| - 1..];
  }

  lemma FirstPacketAgrees(read: seq<Packet>, rest: seq<Byte>, written: seq<Packet>)
    requires AllWellFormed(read) && AllWellFormed(written) && read != []
    requires EncodeAll(read) + rest == EncodeAll(written)
    ensures written != [] && read[0] == written[0]
    ensures EncodeAll(read[1..]) + rest == EncodeAll(written[1..])
  {
    var p, q := EncodePacket(read[0]), EncodeAll(read[1..]);
    PacketHasHeader(read[0]);
    hide *;
    EncodeAllFront(read);
    StreamHasPackets(written);
    EncodeAllFront(written);
    TailsWellFormed(read, written);
    Reassociate(p, q, rest);
    SameFirstPacket(read[0], q + rest, written[0], EncodeAll(written[1..]));
  }

  lemma PacketHasHeader(p: Packet)
    ensures |EncodePacket(p)| >= HEADER_SIZE
  {
    hide EncodeHeader;
  }

  lemma Reassociate(a: seq<Byte>, b: seq<Byte>, c: seq<Byte>)
    ensures a + b + c == a + (b + c)
  {
  }

  lemma StreamHasPackets(ps: seq<Packet>)
    requires |EncodeAll(ps)| > 0
    ensures ps != []
  {
  }

  /** Whichever order concurrent senders took the lock in, the bytes tell exactly which packets went out and how. */
  lemma StreamDeterminesPackets(a: seq<Packet>, b: seq<Packet>)
    requires AllWellFormed(a) && AllWellFormed(b)
    ensures EncodeAll(a) == EncodeAll(b) <==> a == b
  {
    if EncodeAll(a) == EncodeAll(b) {
      assert EncodeAll(a) + [] == EncodeAll(b) && EncodeAll(b) + [] == EncodeAll(a);
      BoundariesAgree(a, [], b);
      BoundariesAgree(b, [], a);
    }
  }

  /** A packet's length can be read off its first 29 bytes, so no packet is a proper prefix of another. */
  lemma SameFirstPacket(p: Packet, after: seq<Byte>, q: Packet, afterQ: seq<Byte>)
    requires p.WellFormed() && q.WellFormed()
    requires EncodePacket(p) + after == EncodePacket(q) + afterQ
    ensures p == q && after == afterQ
  {
    var s := EncodePacket(p) + after;
    assert s[..HEADER_SIZE] == EncodeHeader(p.header);
    assert s[..HEADER_SIZE] == EncodeHeader(q.header);
    HeaderRoundTrip(p.header);
    HeaderRoundTrip(q.header);
    var n := HEADER_SIZE + p.header.size;
    assert s[HEADER_SIZE..n] == p.payload && s[HEADER_SIZE..n] == q.payload;
    assert s[n..] == after && s[n..] == afterQ;
  }

  // ---------------------------------------------------------------- aircraft field

  /** Index of the first NUL, or the length if there is none: `strlen`, and the loop of `extractAircraftId`. */
  function TextLength(s: Text): (n: nat)
    ensures n <= |s|
    ensures forall i :: 0 <= i < n ==> s[i] != 0
    ensures n < |s| ==> s[n] == 0
  {
    if s == [] || s[0] == 0 then 0 else 1 + TextLength(s[1..])
  }

  /** The characters before the first NUL. */
  function ExtractId(field: Field): (id: Text)
    ensures |id| <= FIELD_SIZE && 0 !in id
  {
    field[..TextLength(field)]
  }

  /** `memset` to zero, then `strncpy` of at most 15 characters of the C string. */
  function IdField(id: Text): (f: Field) {
    var n := TextLength(id);
    var kept := if n < FIELD_SIZE then n else FIELD_SIZE - 1;
    id[..kept] + seq(FIELD_SIZE - kept, _ => 0)
  }

  function MakeHeader(kind: Byte, id: Text, sequence: Word, size: Word, checksum: Word): Header {
    Header(kind, IdField(id), sequence, size, checksum)
  }

  /** A packet that is all header. */
  function CommandPacket(kind: Byte, id: Text, sequence: Word): Packet {
    Packet(MakeHeader(kind, id, sequence, 0, 0), [])
  }

  /** An identifier survives the field exactly when it has no NUL and fits in 15 characters. */
  lemma IdRoundTrip(id: Text)
    ensures ExtractId(IdField(id)) == id <==> |id| < FIELD_SIZE && 0 !in id
  {
    var f := IdField(id);
    var n := TextLength(id);
    var kept := if n < FIELD_SIZE then n else FIELD_SIZE - 1;
    assert f[kept] == 0;
    assert forall i :: 0 <= i < kept ==> f[i] == id[i] != 0;
    assert TextLength(f) == kept;
    assert f[..kept] == id[..kept];
    if |id| < FIELD_SIZE && 0 !in id {
      assert id[..kept] == id;
    } else if 0 in id {
      var z :| 0 <= z < |id| && id[z] == 0;
    }
  }

  /** The field holds the C string's first 15 characters at most, and is zero from there on. */
  lemma IdFieldBytes(id: Text, j: nat)
    requires j < 16
    ensures
      var n := TextLength(id);
      IdField(id)[j] == if j < n && j < 15 then id[j] else 0
  {
  }

  method ExtractAircraftId(field: array<Byte>) returns (id: Text)
    requires field.Length == FIELD_SIZE
    ensures id == ExtractId(field[..])
  {
    var length := 0;
    while length < FIELD_SIZE && field[length] != 0
      invariant 0 <= length <= FIELD_SIZE
      invariant forall i :: 0 <= i < length ==> field[i] != 0
    {
      length := length + 1;
    }
    id := field[..length];
  }

  method BuildHeader(kind: Byte, id: Text, sequence: Word, size: Word, checksum: Word) returns (h: Header)
    ensures h == MakeHeader(kind, id, sequence, size, checksum)
  {
    var field := new Byte[FIELD_SIZE];
    for i := 0 to FIELD_SIZE
      invariant forall j :: 0 <= j < i ==> field[j] == 0
    {
      field[i] := 0;
    }
    var n := 0;
    while n < FIELD_SIZE - 1 && n < |id| && id[n] != 0
      invariant 0 <= n <= FIELD_SIZE - 1 && n <= |id|
      invariant forall j :: 0 <= j < n ==> id[j] != 0 && field[j] == id[j]
      invariant forall j :: n <= j < FIELD_SIZE ==> field[j] == 0
    {
      field[n] := id[n];
      n := n + 1;
    }
    assert field[..] == IdField(id);
    h := Header(kind, field[..], sequence, size, checksum);
  }

  // ---------------------------------------------------------------- checksum

  function Sum(data: seq<Byte>): (s: nat) {
    if data == [] then 0 else Sum(data[..|data| - 1]) + data[|data| - 1]
  }

  function Checksum(data: seq<Byte>): Word {
    Wrap(Sum(data))
  }

  method ComputeChecksum(data: array<Byte>, size: Word) returns (sum: Word)
    requires size <= data.Length
    ensures sum == Checksum(data[..size])
  {
    sum := 0;
    var i := 0;
    while i < size
      invariant 0 <= i <= size
      invariant sum == Checksum(data[..i])
    {
      sum := Wrap(sum + data[i]);
      i := i + 1;
      assert data[..i][..i - 1] == data[..i - 1];
    }
  }

  lemma {:induction false} SumAppend(a: seq<Byte>, b: seq<Byte>)
    ensures Sum(a + b) == Sum(a) + Sum(b)
  {
    if b == [] {
      assert a + b == a;
    } else {
      assert (a + b)[..|a + b| - 1] == a + b[..|b| - 1];
      SumAppend(a, b[..|b| - 1]);
    }
  }

  /** Summing a message in pieces gives the checksum of the whole. */
  lemma ChecksumAppend(a: seq<Byte>, b: seq<Byte>)
    ensures Checksum(a + b) == Wrap(Checksum(a) + Checksum(b))
  {
    SumAppend(a, b);
    WrapAdds(Sum(a), Sum(b));
  }

  lemma WrapAdds(a: nat, b: nat)
    ensures Wrap(a + b) == Wrap(Wrap(a) + Wrap(b))
  {
    var turns := a / WORD + b / WORD;
    assert a + b == Wrap(a) + Wrap(b) + turns * WORD;
    WholeTurns(Wrap(a) + Wrap(b), turns);
  }

  lemma {:induction false} SumBound(data: seq<Byte>)
    ensures Sum(data) <= 255 * |data|
  {
    if data != [] {
      SumBound(data[..|data| - 1]);
    }
  }

  /** The bytes of a message by value: each value as often as it occurs, up to `top`. */
  function Tally(data: seq<Byte>, top: Byte): nat {
    top * multiset(data)[top] + if top == 0 then 0 else Tally(data, top - 1)
  }

  lemma {:induction false} TallyPush(data: seq<Byte>, b: Byte, top: Byte)
    ensures Tally(data + [b], top) == Tally(data, top) + if b <= top then b as nat else 0
  {
    assert multiset(data + [b]) == multiset(data) + multiset{b};
    if top > 0 {
      TallyPush(data, b, top - 1);
    }
  }

  lemma {:induction false} TallyEmpty(top: Byte)
    ensures Tally([], top) == 0
  {
    if top > 0 {
      TallyEmpty(top - 1);
    }
  }

  lemma {:induction false} SumIsTally(data: seq<Byte>)
    ensures Sum(data) == Tally(data, 255)
  {
    if data == [] {
      TallyEmpty(255);
    } else {
      var init := data[..|data| - 1];
      SumIsTally(init);
      assert data == init + [data[|data| - 1]];
      TallyPush(init, data[|data| - 1], 255);
    }
  }

  /** The checksum of any message: each byte counts as its value, wherever it stands, modulo 2^32. */
  lemma ChecksumCounts(data: seq<Byte>, b: Byte)
    ensures Checksum(data) == Tally(data, 255) % 0x1_0000_0000
    ensures Checksum([]) == 0 && Checksum([b]) == b
  {
    SumIsTally(data);
    assert [b][..0] == [];
    hide Tally;
  }

  /** No wrap happens below 2^32 / 255 bytes, which covers the 3 MiB weather map. */
  lemma ChecksumExact(data: seq<Byte>)
    requires 255 * |data| < WORD
    ensures Checksum(data) == Tally(data, 255) == Sum(data)
  {
    SumBound(data);
    SumIsTally(data);
    hide Tally;
  }

  /** A single changed byte is always detected, whatever the length. */
  lemma ChecksumDetectsByte(data: seq<Byte>, i: nat, b: Byte)
    requires i < |data| && b != data[i]
    ensures Checksum(data[i := b]) != Checksum(data)
  {
    var front, back := data[..i], data[i + 1..];
    assert data == front + [data[i]] + back;
    assert data[i := b] == front + [b] + back;
    SumAppend(front + [data[i]], back);
    SumAppend(front + [b], back);
    SumAppend(front, [data[i]]);
    SumAppend(front, [b]);
    assert Sum([b]) == b && Sum([data[i]]) == data[i] by {
      assert [b][..0] == [] && [data[i]][..0] == [];
    }
    assert Sum(data[i := b]) == Sum(data) + (b - data[i]);
  }
}
