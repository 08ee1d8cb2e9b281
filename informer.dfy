/** The informer: renders each forwarded CSI sample as an ASCII line or a
    packed binary record and writes it to the console, the SD card file
    and/or the serial port, according to the informer mode. */
module Informer {
  import opened CsiTypes

  // ---------------------------------------------------------------------
  // ASCII rendering (sprintf with %d and MACSTR)

  /** Every ASCII and binary record starts with this marker. */
  const MARKER := "CSI_DATA,"

  /** The output buffer is `char[1024]`: a rendered string must leave room for its NUL. */
  const BUFFER_CAPACITY := 1023

  const DIGITS := "0123456789"
  const HEX_DIGITS := "0123456789abcdef"

  function NatDigits(n: nat): (s: string)
    ensures |s| >= 1
    decreases n
  {
    if n < 10 then [DIGITS[n]] else NatDigits(n / 10) + [DIGITS[n % 10]]
  }

  /** `%d` of an int. */
  function Decimal(n: int): string
  {
    if n < 0 then "-" + NatDigits(-n) else NatDigits(n)
  }

  /** `%02x`: two lower-case hex digits. */
  function Hex2(b: Byte): (s: string)
    ensures |s| == 2
  {
    [HEX_DIGITS[b / 16], HEX_DIGITS[b % 16]]
  }

  /** The groups of MACSTR from byte i on: `%02x` each, joined by ':'. */
  function MacGroups(m: Mac, i: nat): (s: string)
    requires i < 6
    ensures |s| == 3 * (6 - i) - 1
    decreases 6 - i
  {
    if i == 5 then Hex2(m[5]) else Hex2(m[i]) + ":" + MacGroups(m, i + 1)
  }

  /** MACSTR applied to MAC2STR: six `%02x` groups joined by ':'. */
  function MacText(m: Mac): (s: string)
    ensures |s| == 17
  {
    MacGroups(m, 0)
  }

  /** The timestamp is an unsigned 32-bit field printed with `%d`: its bits
      read as a signed 32-bit int. */
  function AsSigned32(u: Uint32): (v: Int32)
    ensures (v - u) % 0x1_0000_0000 == 0
  {
    if u < 0x8000_0000 then u else u - 0x1_0000_0000
  }

  /** The loop part of the CSI buffer text: ",b1,b2,...,b(n-1)". */
  function Tail(buf: seq<Int8>, n: nat): string
    requires n <= |buf|
    decreases n
  {
    if n <= 1 then "" else Tail(buf, n - 1) + ("," + Decimal(buf[n - 1]))
  }

  /** "[b0" + ",bi" for 1 <= i < len + "]\n". `buf[0]` is printed even when len is 0. */
  function BufferText(buf: seq<Int8>, len: nat): string
    requires 1 <= |buf| && len <= |buf|
  {
    "[" + Decimal(buf[0]) + Tail(buf, len) + "]\n"
  }

  /** The sample carries what the ASCII renderer reads. */
  predicate AsciiReady(cfg: Config, info: CsiInfo)
  {
    cfg.informCsiData ==> AsciiPayload(info)
  }

  predicate AsciiPayload(info: CsiInfo)
  {
    info.buf.Some? && 1 <= |info.buf.value| && info.len <= |info.buf.value|
  }

  /** The sample carries what the binary writer reads. */
  predicate BinaryReady(cfg: Config, info: CsiInfo)
  {
    cfg.informCsiData ==> HasPayload(info)
  }

  /** The fields a record can carry, in the order both renderers emit them. */
  datatype FieldKind = MacKind | RssiKind | BandwidthKind | NoiseFloorKind | TimestampKind | AntennaKind | LengthKind | BufferKind

  const KINDS: seq<FieldKind> := [MacKind, RssiKind, BandwidthKind, NoiseFloorKind, TimestampKind, AntennaKind, LengthKind, BufferKind]

  /** The configuration flag that switches a field on. */
  function Enabled(cfg: Config, k: FieldKind): bool
  {
    match k
    case MacKind => cfg.informMacSubscribed
    case RssiKind => cfg.informRssi
    case BandwidthKind => cfg.informChannelBw
    case NoiseFloorKind => cfg.informNoiseFloor
    case TimestampKind => cfg.informTimestamp
    case AntennaKind => cfg.informAntNum
    case LengthKind => cfg.informCsiLen
    case BufferKind => cfg.informCsiData
  }

  /** One field in ASCII: a `%d` (or MACSTR) value and ',', or the buffer text. */
  function AsciiText(k: FieldKind, info: CsiInfo): string
    requires k == BufferKind ==> AsciiPayload(info)
  {
    match k
    case MacKind => MacText(info.mac) + ","
    case RssiKind => Decimal(info.rxCtrl.rssi) + ","
    case BandwidthKind => Decimal(info.rxCtrl.cwb) + ","
    case NoiseFloorKind => Decimal(info.rxCtrl.noiseFloor) + ","
    case TimestampKind => Decimal(AsSigned32(info.rxCtrl.timestamp)) + ","
    case AntennaKind => Decimal(info.rxCtrl.ant) + ","
    case LengthKind => Decimal(info.len) + ","
    case BufferKind => BufferText(info.buf.value, info.len)
  }

  /** A field's contribution to the line: its text when enabled, else nothing. */
  function Piece(cfg: Config, info: CsiInfo, k: FieldKind): string
    requires k == BufferKind ==> AsciiReady(cfg, info)
  {
    if Enabled(cfg, k) then AsciiText(k, info) else ""
  }

  /** The marker followed by the enabled fields among the first n kinds. */
  function AsciiPrefix(cfg: Config, info: CsiInfo, n: nat): string
    requires n <= |KINDS| && AsciiReady(cfg, info)
  {
    if n == 0 then MARKER
    else AsciiPrefix(cfg, info, n - 1) + Piece(cfg, info, KINDS[n - 1])
  }

  /** `get_csi_string_message`'s output: the marker, then each enabled field. */
  function AsciiRecord(cfg: Config, info: CsiInfo): string
    requires AsciiReady(cfg, info)
  {
    AsciiPrefix(cfg, info, |KINDS|)
  }

  /** The characters the renderers use besides the final newline. */
  const FIELD_CHARS: set<char> := {
    '0', '1', '2', '3', '4', '5', '6', '7', '8', '9', 'a', 'b', 'c', 'd', 'e', 'f',
    '-', ',', ':', '[', ']', 'C', 'S', 'I', '_', 'D', 'A', 'T' }

  predicate Clean(s: string)
  {
    forall i :: 0 <= i < |s| ==> s[i] in FIELD_CHARS
  }

  lemma CleanConcat(a: string, b: string)
    requires Clean(a) && Clean(b)
    ensures Clean(a + b)
  {
    forall i | 0 <= i < |a + b|
      ensures (a + b)[i] in FIELD_CHARS
    {
      if i < |a| { assert (a + b)[i] == a[i]; } else { assert (a + b)[i] == b[i - |a|]; }
    }
  }

  lemma {:induction false} NatDigitsClean(n: nat)
    ensures Clean(NatDigits(n))
    decreases n
  {
    if n >= 10 {
      NatDigitsClean(n / 10);
      CleanConcat(NatDigits(n / 10), [DIGITS[n % 10]]);
    }
  }

  lemma DecimalClean(n: int)
    ensures Clean(Decimal(n)) && Clean(Decimal(n) + ",")
  {
    if n < 0 {
      NatDigitsClean(-n);
      CleanConcat("-", NatDigits(-n));
    } else {
      NatDigitsClean(n);
    }
    CleanConcat(Decimal(n), ",");
  }

  lemma {:induction false} TailClean(buf: seq<Int8>, n: nat)
    requires n <= |buf|
    ensures Clean(Tail(buf, n))
    decreases n
  {
    if n > 1 {
      TailClean(buf, n - 1);
      DecimalClean(buf[n - 1]);
      CleanConcat(",", Decimal(buf[n - 1]));
      CleanConcat(Tail(buf, n - 1), "," + Decimal(buf[n - 1]));
    }
  }

  lemma Hex2Clean(b: Byte)
    ensures Clean(Hex2(b))
  {
    assert HEX_DIGITS[b / 16] in FIELD_CHARS && HEX_DIGITS[b % 16] in FIELD_CHARS;
  }

  lemma {:induction false} MacGroupsClean(m: Mac, i: nat)
    requires i < 6
    ensures Clean(MacGroups(m, i))
    decreases 6 - i
  {
    Hex2Clean(m[i]);
    if i < 5 {
      MacGroupsClean(m, i + 1);
      CleanConcat(Hex2(m[i]), ":");
      CleanConcat(Hex2(m[i]) + ":", MacGroups(m, i + 1));
    }
  }

  lemma MacTextClean(m: Mac)
    ensures Clean(MacText(m) + ",")
  {
    MacGroupsClean(m, 0);
    CleanConcat(MacText(m), ",");
  }

  lemma ScalarTextClean(k: FieldKind, info: CsiInfo)
    requires k != BufferKind
    ensures Clean(AsciiText(k, info))
  {
    match k
    case MacKind => MacTextClean(info.mac);
    case RssiKind => DecimalClean(info.rxCtrl.rssi);
    case BandwidthKind => DecimalClean(info.rxCtrl.cwb);
    case NoiseFloorKind => DecimalClean(info.rxCtrl.noiseFloor);
    case TimestampKind => DecimalClean(AsSigned32(info.rxCtrl.timestamp));
    case AntennaKind => DecimalClean(info.rxCtrl.ant);
    case LengthKind => DecimalClean(info.len);
  }

  lemma PieceClean(cfg: Config, info: CsiInfo, k: FieldKind)
    requires k != BufferKind
    ensures Clean(Piece(cfg, info, k))
  {
    if Enabled(cfg, k) {
      ScalarTextClean(k, info);
    }
  }

  lemma {:induction false} AsciiPrefixClean(cfg: Config, info: CsiInfo, n: nat)
    requires n < |KINDS| && AsciiReady(cfg, info)
    ensures Clean(AsciiPrefix(cfg, info, n))
    ensures |AsciiPrefix(cfg, info, n)| >= |MARKER| && AsciiPrefix(cfg, info, n)[..|MARKER|] == MARKER
  {
    if n > 0 {
      AsciiPrefixClean(cfg, info, n - 1);
      var p := AsciiPrefix(cfg, info, n - 1);
      var k := KINDS[n - 1];
      assert k != BufferKind;
      PieceClean(cfg, info, k);
      CleanConcat(p, Piece(cfg, info, k));
      assert (p + Piece(cfg, info, k))[..|MARKER|] == p[..|MARKER|];
    }
  }

  /** The ASCII record is one line: the newline occurs only as its final
      character and only when the CSI buffer is reported. It never contains
      '%', so `fprintf(fd, record)` writes it verbatim. It always starts with
      the marker. */
  /** The buffer text without its final newline. */
  function BufferBody(buf: seq<Int8>, len: nat): string
    requires 1 <= |buf| && len <= |buf|
  {
    "[" + Decimal(buf[0]) + Tail(buf, len) + "]"
  }

  lemma BufferBodyClean(buf: seq<Int8>, len: nat)
    requires 1 <= |buf| && len <= |buf|
    ensures Clean(BufferBody(buf, len)) && BufferText(buf, len) == BufferBody(buf, len) + "\n"
  {
    DecimalClean(buf[0]);
    TailClean(buf, len);
    CleanConcat("[", Decimal(buf[0]));
    CleanConcat("[" + Decimal(buf[0]), Tail(buf, len));
    CleanConcat("[" + Decimal(buf[0]) + Tail(buf, len), "]");
  }

  lemma AsciiRecordIsOneLine(cfg: Config, info: CsiInfo)
    requires AsciiReady(cfg, info)
    ensures var r := AsciiRecord(cfg, info);
            && |r| >= |MARKER| && r[..|MARKER|] == MARKER
            && ('\n' in r <==> cfg.informCsiData)
            && (cfg.informCsiData ==> r[|r| - 1] == '\n' && Clean(r[..|r| - 1]))
            && (!cfg.informCsiData ==> Clean(r))
            && '%' !in r
  {
    var r := AsciiRecord(cfg, info);
    var head := AsciiPrefix(cfg, info, |KINDS| - 1);
    AsciiPrefixClean(cfg, info, |KINDS| - 1);
    if cfg.informCsiData {
      var buf := info.buf.value;
      var body := BufferBody(buf, info.len);
      BufferBodyClean(buf, info.len);
      CleanConcat(head, body);
      var line := head + body;
      assert r == line + "\n";
      Terminated(line);
      assert r[..|MARKER|] == head[..|MARKER|];
    } else {
      assert r == head;
      CleanHasNoControl(head);
    }
  }

  lemma CleanHasNoControl(s: string)
    requires Clean(s)
    ensures '\n' !in s && '%' !in s
  {
  }

  /** A clean line followed by '\n': that newline is its only one. */
  lemma Terminated(line: string)
    requires Clean(line)
    ensures var r := line + "\n";
            r[|r| - 1] == '\n' && r[..|r| - 1] == line && '\n' in r && '%' !in r
  {
    var r := line + "\n";
    assert r[|r| - 1] == '\n';
    assert r[..|r| - 1] == line;
    forall i | 0 <= i < |r|
      ensures r[i] != '%'
    {
      if i < |line| { assert r[i] == line[i]; }
    }
  }

  /** With every flag off the record is the marker alone. */
  lemma AsciiRecordAllOff(cfg: Config, info: CsiInfo)
    requires !cfg.informMacSubscribed && !cfg.informRssi && !cfg.informChannelBw && !cfg.informNoiseFloor
    requires !cfg.informTimestamp && !cfg.informAntNum && !cfg.informCsiLen && !cfg.informCsiData
    ensures AsciiRecord(cfg, info) == MARKER
  {
    assert forall k :: !Enabled(cfg, k);
    AllOffPrefix(cfg, info, |KINDS|);
  }

  lemma {:induction false} AllOffPrefix(cfg: Config, info: CsiInfo, n: nat)
    requires n <= |KINDS| && !cfg.informCsiData && forall k :: !Enabled(cfg, k)
    ensures AsciiPrefix(cfg, info, n) == MARKER
  {
    if n > 0 {
      AllOffPrefix(cfg, info, n - 1);
      assert !Enabled(cfg, KINDS[n - 1]);
    }
  }

  // ---------------------------------------------------------------------
  // Binary record (raw writes of the fields' in-memory bytes)

  /** A C string's bytes. */
  function Text(s: string): (r: seq<Byte>)
    ensures |r| == |s|
  {
    seq(|s|, i requires 0 <= i < |s| => (s[i] as int) % 0x100)
  }

  lemma TextConcat(a: string, b: string)
    ensures Text(a + b) == Text(a) + Text(b)
  {
    assert forall i :: 0 <= i < |a + b| ==> Text(a + b)[i] == (Text(a) + Text(b))[i];
  }

  /** An int8 stored in a byte: two's complement. */
  function U8(x: Int8): (b: Byte)
    ensures (b - x) % 0x100 == 0
  {
    if x < 0 then x + 0x100 else x
  }

  function S8(b: Byte): Int8
  {
    if b < 0x80 then b else b - 0x100
  }

  function Pow256(w: nat): (p: nat)
    ensures p >= 1
  {
    if w == 0 then 1 else 0x100 * Pow256(w - 1)
  }

  /** The w low-order bytes of n, least significant first (the ESP32 is little-endian). */
  function LittleEndian(n: nat, w: nat): (bs: seq<Byte>)
    ensures |bs| == w
  {
    if w == 0 then [] else [n % 0x100] + LittleEndian(n / 0x100, w - 1)
  }

  function LittleEndianValue(bs: seq<Byte>): nat
  {
    if bs == [] then 0 else bs[0] + 0x100 * LittleEndianValue(bs[1..])
  }

  lemma {:induction false} LittleEndianRoundTrip(n: nat, w: nat)
    requires n < Pow256(w)
    ensures LittleEndianValue(LittleEndian(n, w)) == n
  {
    if w > 0 {
      assert n / 0x100 < Pow256(w - 1);
      LittleEndianRoundTrip(n / 0x100, w - 1);
      assert LittleEndian(n, w)[1..] == LittleEndian(n / 0x100, w - 1);
    }
  }

  function Bytes(xs: seq<Int8>): (bs: seq<Byte>)
    ensures |bs| == |xs|
  {
    seq(|xs|, i requires 0 <= i < |xs| => U8(xs[i]))
  }

  function Signed(bs: seq<Byte>): (xs: seq<Int8>)
    ensures |xs| == |bs|
  {
    seq(|bs|, i requires 0 <= i < |bs| => S8(bs[i]))
  }

  /** One field of a binary record, as its value. */
  datatype BinaryField =
    | MacField(mac: Mac)
    | RssiField(rssi: Int8)
    | BandwidthField(cwb: Bit)
    | NoiseFloorField(noiseFloor: Int8)
    | TimestampField(timestamp: Uint32)
    | AntennaField(ant: AntIndex)
    | LengthField(len: Uint16)
    | BufferField(data: seq<Int8>)

  /** The value a sample contributes for a field; the buffer is its first `len` entries. */
  function FieldOf(k: FieldKind, info: CsiInfo): BinaryField
    requires k == BufferKind ==> HasPayload(info)
  {
    match k
    case MacKind => MacField(info.mac)
    case RssiKind => RssiField(info.rxCtrl.rssi)
    case BandwidthKind => BandwidthField(info.rxCtrl.cwb)
    case NoiseFloorKind => NoiseFloorField(info.rxCtrl.noiseFloor)
    case TimestampKind => TimestampField(info.rxCtrl.timestamp)
    case AntennaKind => AntennaField(info.rxCtrl.ant)
    case LengthKind => LengthField(info.len)
    case BufferKind => BufferField(info.buf.value[..info.len])
  }

  /** A field's in-memory bytes: int8 fields two's complement, wider ones little-endian. */
  function Encode(f: BinaryField): seq<Byte>
  {
    match f
    case MacField(mac) => mac
    case RssiField(rssi) => [U8(rssi)]
    case BandwidthField(cwb) => [cwb]
    case NoiseFloorField(nf) => [U8(nf)]
    case TimestampField(ts) => LittleEndian(ts, 4)
    case AntennaField(ant) => [ant]
    case LengthField(len) => LittleEndian(len, 2)
    case BufferField(data) => Bytes(data)
  }

  /** A field's contribution to the record: its bytes when enabled, else nothing. */
  function Chunk(cfg: Config, info: CsiInfo, k: FieldKind): seq<Byte>
    requires k == BufferKind ==> BinaryReady(cfg, info)
  {
    if Enabled(cfg, k) then Encode(FieldOf(k, info)) else []
  }

  /** The marker followed by the bytes of the enabled fields among the first n kinds. */
  function BinaryPrefix(cfg: Config, info: CsiInfo, n: nat): seq<Byte>
    requires n <= |KINDS| && BinaryReady(cfg, info)
  {
    if n == 0 then Text(MARKER)
    else BinaryPrefix(cfg, info, n - 1) + Chunk(cfg, info, KINDS[n - 1])
  }

  /** The binary branch of `send_information`: the marker, then the raw bytes
      of each enabled field, the buffer last. No separators or terminator. */
  function BinaryRecord(cfg: Config, info: CsiInfo): seq<Byte>
    requires BinaryReady(cfg, info)
  {
    BinaryPrefix(cfg, info, |KINDS|)
  }

  function Count(on: bool, w: nat): nat
  {
    if on then w else 0
  }

  /** The byte count of a binary record. */
  lemma BinaryRecordLength(cfg: Config, info: CsiInfo)
    requires BinaryReady(cfg, info)
    ensures |BinaryRecord(cfg, info)| ==
              9 + Count(cfg.informMacSubscribed, 6) + Count(cfg.informRssi, 1) + Count(cfg.informChannelBw, 1)
              + Count(cfg.informNoiseFloor, 1) + Count(cfg.informTimestamp, 4) + Count(cfg.informAntNum, 1)
              + Count(cfg.informCsiLen, 2) + Count(cfg.informCsiData, info.len)
  {
    PrefixLengths(cfg, info, |KINDS|);
    LayoutSizeSum(cfg, info);
  }

  lemma LayoutSizeSum(cfg: Config, info: CsiInfo)
    ensures LayoutSize(cfg, info, |KINDS|) ==
              Count(cfg.informMacSubscribed, 6) + Count(cfg.informRssi, 1) + Count(cfg.informChannelBw, 1)
              + Count(cfg.informNoiseFloor, 1) + Count(cfg.informTimestamp, 4) + Count(cfg.informAntNum, 1)
              + Count(cfg.informCsiLen, 2) + Count(cfg.informCsiData, info.len)
  {
    LayoutSizeHead(cfg, info);
    LayoutSizeRest(cfg, info);
  }

  lemma LayoutSizeRest(cfg: Config, info: CsiInfo)
    ensures LayoutSize(cfg, info, |KINDS|) == LayoutSize(cfg, info, 4)
              + Count(cfg.informTimestamp, 4) + Count(cfg.informAntNum, 1)
              + Count(cfg.informCsiLen, 2) + Count(cfg.informCsiData, info.len)
  {
    assert LayoutSize(cfg, info, 5) == LayoutSize(cfg, info, 4) + Count(cfg.informTimestamp, 4);
    assert LayoutSize(cfg, info, 6) == LayoutSize(cfg, info, 5) + Count(cfg.informAntNum, 1);
    assert LayoutSize(cfg, info, 7) == LayoutSize(cfg, info, 6) + Count(cfg.informCsiLen, 2);
  }

  lemma LayoutSizeHead(cfg: Config, info: CsiInfo)
    ensures LayoutSize(cfg, info, 4) ==
              Count(cfg.informMacSubscribed, 6) + Count(cfg.informRssi, 1) + Count(cfg.informChannelBw, 1)
              + Count(cfg.informNoiseFloor, 1)
  {
    assert LayoutSize(cfg, info, 1) == Count(cfg.informMacSubscribed, 6);
    assert LayoutSize(cfg, info, 2) == LayoutSize(cfg, info, 1) + Count(cfg.informRssi, 1);
    assert LayoutSize(cfg, info, 3) == LayoutSize(cfg, info, 2) + Count(cfg.informChannelBw, 1);
  }

  /** The bytes the enabled fields among the first n kinds occupy. */
  function LayoutSize(cfg: Config, info: CsiInfo, n: nat): nat
    requires n <= |KINDS|
  {
    if n == 0 then 0 else LayoutSize(cfg, info, n - 1) + Count(Enabled(cfg, KINDS[n - 1]), Size(KINDS[n - 1], info))
  }

  lemma {:induction false} PrefixLengths(cfg: Config, info: CsiInfo, n: nat)
    requires n <= |KINDS| && BinaryReady(cfg, info)
    ensures |BinaryPrefix(cfg, info, n)| == |MARKER| + LayoutSize(cfg, info, n)
  {
    if n > 0 {
      PrefixLengths(cfg, info, n - 1);
      PrefixLength(cfg, info, n, KINDS[n - 1]);
    }
  }

  /** The bytes one enabled field occupies. */
  function Size(k: FieldKind, info: CsiInfo): nat
  {
    if k == BufferKind then info.len else Width(k)
  }

  lemma PrefixLength(cfg: Config, info: CsiInfo, n: nat, k: FieldKind)
    requires 0 < n <= |KINDS| && KINDS[n - 1] == k && BinaryReady(cfg, info)
    ensures |BinaryPrefix(cfg, info, n)| == |BinaryPrefix(cfg, info, n - 1)| + Count(Enabled(cfg, k), Size(k, info))
  {
  }

  function OptKind(on: bool, k: FieldKind): seq<FieldKind>
  {
    if on then [k] else []
  }

  /** The enabled kinds among the first n, in record order. */
  function LayoutPrefix(cfg: Config, n: nat): seq<FieldKind>
    requires n <= |KINDS|
  {
    if n == 0 then [] else LayoutPrefix(cfg, n - 1) + OptKind(Enabled(cfg, KINDS[n - 1]), KINDS[n - 1])
  }

  /** Which fields a configuration writes, in record order. */
  function Layout(cfg: Config): seq<FieldKind>
  {
    LayoutPrefix(cfg, |KINDS|)
  }

  function FieldsOf(ks: seq<FieldKind>, info: CsiInfo): seq<BinaryField>
    requires BufferKind in ks ==> HasPayload(info)
    decreases |ks|
  {
    if ks == [] then [] else [FieldOf(ks[0], info)] + FieldsOf(ks[1..], info)
  }

  function EncodeAll(fs: seq<BinaryField>): seq<Byte>
    decreases |fs|
  {
    if fs == [] then [] else Encode(fs[0]) + EncodeAll(fs[1..])
  }

  /** Byte width of a field; the buffer has no fixed width. */
  function Width(k: FieldKind): nat
  {
    match k
    case MacKind => 6
    case TimestampKind => 4
    case LengthKind => 2
    case BufferKind => 0
    case _ => 1
  }

  function DecodeField(k: FieldKind, chunk: seq<Byte>): Option<BinaryField>
    requires |chunk| == Width(k)
  {
    match k
    case MacKind => Some(MacField(chunk))
    case RssiKind => Some(RssiField(S8(chunk[0])))
    case BandwidthKind => if chunk[0] < 2 then Some(BandwidthField(chunk[0])) else None
    case NoiseFloorKind => Some(NoiseFloorField(S8(chunk[0])))
    case TimestampKind =>
      var v := LittleEndianValue(chunk);
      if v < 0x1_0000_0000 then Some(TimestampField(v)) else None
    case AntennaKind => if chunk[0] < 4 then Some(AntennaField(chunk[0])) else None
    case LengthKind =>
      var v := LittleEndianValue(chunk);
      if v < 0x1_0000 then Some(LengthField(v)) else None
    case BufferKind => None
  }

  /** Splits bytes into the given fields; the buffer (last) takes the rest. */
  function DecodeAll(ks: seq<FieldKind>, bs: seq<Byte>): Option<seq<BinaryField>>
    decreases |ks|
  {
    if ks == [] then (if bs == [] then Some([]) else None)
    else if ks[0] == BufferKind then (if |ks| == 1 then Some([BufferField(Signed(bs))]) else None)
    else if |bs| < Width(ks[0]) then None
    else
      match DecodeField(ks[0], bs[..Width(ks[0])])
      case None => None
      case Some(f) =>
        match DecodeAll(ks[1..], bs[Width(ks[0])..])
        case None => None
        case Some(rest) => Some([f] + rest)
  }

  /** A reader of the binary stream that knows the configuration. */
  function DecodeBinary(cfg: Config, bs: seq<Byte>): Option<seq<BinaryField>>
  {
    if |bs| < |MARKER| || bs[..|MARKER|] != Text(MARKER) then None
    else DecodeAll(Layout(cfg), bs[|MARKER|..])
  }

  lemma {:induction false} LayoutPrefixFacts(cfg: Config, n: nat)
    requires n <= |KINDS|
    ensures BufferKind in LayoutPrefix(cfg, n) <==> n == |KINDS| && cfg.informCsiData
    ensures forall i :: 0 <= i < |LayoutPrefix(cfg, n)| - 1 ==> LayoutPrefix(cfg, n)[i] != BufferKind
  {
    if n > 0 {
      LayoutPrefixFacts(cfg, n - 1);
    }
  }

  lemma DecodeEncodeField(k: FieldKind, info: CsiInfo)
    requires k != BufferKind
    ensures |Encode(FieldOf(k, info))| == Width(k)
    ensures DecodeField(k, Encode(FieldOf(k, info))) == Some(FieldOf(k, info))
  {
    match k
    case TimestampKind => LittleEndianRoundTrip(info.rxCtrl.timestamp, 4);
    case LengthKind => LittleEndianRoundTrip(info.len, 2);
    case _ =>
  }

  lemma SignedBytes(xs: seq<Int8>)
    ensures Signed(Bytes(xs)) == xs
  {
    assert forall i :: 0 <= i < |xs| ==> Signed(Bytes(xs))[i] == S8(U8(xs[i])) == xs[i];
  }

  lemma {:induction false} DecodeEncodeAll(ks: seq<FieldKind>, info: CsiInfo)
    requires BufferKind in ks ==> HasPayload(info)
    requires forall i :: 0 <= i < |ks| - 1 ==> ks[i] != BufferKind
    ensures DecodeAll(ks, EncodeAll(FieldsOf(ks, info))) == Some(FieldsOf(ks, info))
    decreases |ks|
  {
    if ks != [] {
      var fs := FieldsOf(ks, info);
      assert fs[0] == FieldOf(ks[0], info);
      assert fs[1..] == FieldsOf(ks[1..], info);
      if ks[0] == BufferKind {
        assert ks[1..] == [];
        var data := info.buf.value[..info.len];
        assert ks == [BufferKind];
        assert fs == [BufferField(data)];
        SignedBytes(data);
        assert EncodeAll(fs) == Bytes(data) + EncodeAll([]);
        assert EncodeAll(fs) == Bytes(data);
      } else {
        var head := Encode(FieldOf(ks[0], info));
        var rest := EncodeAll(FieldsOf(ks[1..], info));
        DecodeEncodeField(ks[0], info);
        assert EncodeAll(fs) == head + rest;
        assert (head + rest)[..Width(ks[0])] == head;
        assert (head + rest)[Width(ks[0])..] == rest;
        DecodeEncodeAll(ks[1..], info);
      }
    }
  }

  lemma {:induction false} EncodeAllConcat(a: seq<BinaryField>, b: seq<BinaryField>)
    ensures EncodeAll(a + b) == EncodeAll(a) + EncodeAll(b)
    decreases |a|
  {
    if a == [] {
      assert a + b == b;
    } else {
      assert (a + b)[0] == a[0];
      assert (a + b)[1..] == a[1..] + b;
      EncodeAllConcat(a[1..], b);
    }
  }

  lemma {:induction false} FieldsOfConcat(a: seq<FieldKind>, b: seq<FieldKind>, info: CsiInfo)
    requires BufferKind in a + b ==> HasPayload(info)
    ensures BufferKind in a ==> HasPayload(info)
    ensures BufferKind in b ==> HasPayload(info)
    ensures FieldsOf(a + b, info) == FieldsOf(a, info) + FieldsOf(b, info)
    decreases |a|
  {
    if a == [] {
      assert a + b == b;
    } else {
      assert (a + b)[0] == a[0];
      assert (a + b)[1..] == a[1..] + b;
      assert BufferKind in a[1..] ==> BufferKind in a;
      FieldsOfConcat(a[1..], b, info);
    }
  }

  /** The record is the marker followed by the encodings of the layout's fields. */
  lemma {:induction false} BinaryPrefixFields(cfg: Config, info: CsiInfo, n: nat)
    requires n <= |KINDS| && BinaryReady(cfg, info)
    ensures BufferKind in LayoutPrefix(cfg, n) ==> HasPayload(info)
    ensures BinaryPrefix(cfg, info, n) == Text(MARKER) + EncodeAll(FieldsOf(LayoutPrefix(cfg, n), info))
  {
    LayoutPrefixFacts(cfg, n);
    if n > 0 {
      BinaryPrefixFields(cfg, info, n - 1);
      var k := KINDS[n - 1];
      var a := LayoutPrefix(cfg, n - 1);
      var b := OptKind(Enabled(cfg, k), k);
      FieldsOfConcat(a, b, info);
      EncodeAllConcat(FieldsOf(a, info), FieldsOf(b, info));
      ChunkFields(cfg, info, k);
      Assoc(Text(MARKER), EncodeAll(FieldsOf(a, info)), EncodeAll(FieldsOf(b, info)));
    }
  }

  /** A field's chunk is the encoding of the one-field (or empty) layout it adds. */
  lemma ChunkFields(cfg: Config, info: CsiInfo, k: FieldKind)
    requires (k == BufferKind ==> BinaryReady(cfg, info)) && (k == BufferKind && Enabled(cfg, k) ==> HasPayload(info))
    ensures Chunk(cfg, info, k) == EncodeAll(FieldsOf(OptKind(Enabled(cfg, k), k), info))
  {
    if Enabled(cfg, k) {
      assert FieldsOf([k], info) == [FieldOf(k, info)];
      assert EncodeAll([FieldOf(k, info)]) == Encode(FieldOf(k, info)) + EncodeAll([]);
    }
  }

  /** A reader that knows the configuration recovers every written field
      exactly from a binary record: the format is unambiguous although it
      has no separators. */
  lemma BinaryRoundTrip(cfg: Config, info: CsiInfo)
    requires BinaryReady(cfg, info)
    ensures BufferKind in Layout(cfg) ==> HasPayload(info)
    ensures DecodeBinary(cfg, BinaryRecord(cfg, info)) == Some(FieldsOf(Layout(cfg), info))
  {
    BinaryPrefixFields(cfg, info, |KINDS|);
    LayoutPrefixFacts(cfg, |KINDS|);
    var body := EncodeAll(FieldsOf(Layout(cfg), info));
    assert (Text(MARKER) + body)[..|MARKER|] == Text(MARKER);
    assert (Text(MARKER) + body)[|MARKER|..] == body;
    DecodeEncodeAll(Layout(cfg), info);
  }

  /** The layout lists exactly the enabled fields, in the fixed order. */
  lemma LayoutIsEnabledKinds(cfg: Config, k: FieldKind)
    ensures k in Layout(cfg) <==> Enabled(cfg, k)
  {
    LayoutMembers(cfg, k, |KINDS|);
    if Enabled(cfg, k) {
      var j := match k
        case MacKind => 0 case RssiKind => 1 case BandwidthKind => 2 case NoiseFloorKind => 3
        case TimestampKind => 4 case AntennaKind => 5 case LengthKind => 6 case BufferKind => 7;
      assert KINDS[j] == k;
    }
  }

  lemma {:induction false} LayoutMembers(cfg: Config, k: FieldKind, n: nat)
    requires n <= |KINDS|
    ensures k in LayoutPrefix(cfg, n) <==> exists j :: 0 <= j < n && KINDS[j] == k && Enabled(cfg, k)
  {
    if n > 0 {
      LayoutMembers(cfg, k, n - 1);
      if KINDS[n - 1] == k && Enabled(cfg, k) {
        assert k in LayoutPrefix(cfg, n);
      }
    }
  }

  // ---------------------------------------------------------------------
  // Sinks and the informer task

  datatype InformerMsg = CsiReceived(info: CsiInfo) | InformerInitialized | StopInformer

  datatype StorageAction = CloseFile | UnmountSd

  /** The informer's statics and what it has written: `console` is stdout,
      `sdFile` the CSI file's contents, `serial` the bytes handed to the UART
      driver. `fdSet` is `csi_fd != NULL`. */
  datatype InformerState = InformerState(
    config: Option<Config>,
    sdInitialized: bool,
    uartInitialized: bool,
    filename: string,
    fdSet: bool,
    console: seq<Byte>,
    sdFile: seq<Byte>,
    serial: seq<Byte>,
    storage: seq<StorageAction>)

  const POWER_ON := InformerState(None, false, true, "", false, [], [], [], [])

  /** `start_informer_app`; `sdOk`, `uartOk` are the driver initialisation
      results and `name` the file name the SD component picks. */
  function StartInformer(st: InformerState, cfg: Config, sdOk: bool, uartOk: bool, name: string): (r: InformerState)
    // only mode 2 touches the SD flag, only mode 3 the UART flag
    ensures r.sdInitialized == (if cfg.informerMode == INFORMER_SEND_SD then sdOk else st.sdInitialized)
    ensures r.uartInitialized == (if cfg.informerMode == INFORMER_SEND_SERIAL_COMM then uartOk else st.uartInitialized)
    ensures r.filename == (if cfg.informerMode == INFORMER_SEND_SD && sdOk then name else st.filename)
    ensures r.config == Some(cfg)
    ensures r.console == st.console && r.sdFile == st.sdFile && r.serial == st.serial
  {
    var st1 := st.(config := Some(cfg));
    if cfg.informerMode == INFORMER_SEND_SD then
      st1.(sdInitialized := sdOk, filename := if sdOk then name else st.filename)
    else if cfg.informerMode == INFORMER_SEND_SERIAL_COMM then
      st1.(uartInitialized := uartOk)
    else st1
  }

  /** The sample, rendered as the configuration's data mode asks. */
  function Rendered(cfg: Config, info: CsiInfo): seq<Byte>
    requires cfg.dataMode == DATA_ASCII ==> AsciiReady(cfg, info)
    requires cfg.dataMode != DATA_ASCII ==> BinaryReady(cfg, info)
  {
    if cfg.dataMode == DATA_ASCII then Text(AsciiRecord(cfg, info)) else BinaryRecord(cfg, info)
  }

  /** The data mode's renderer can run on the sample. */
  predicate Renderable(cfg: Config, info: CsiInfo)
  {
    if cfg.dataMode == DATA_ASCII then Fits(cfg, info, 1) else BinaryReady(cfg, info)
  }

  predicate Fits(cfg: Config, info: CsiInfo, copies: nat)
  {
    AsciiReady(cfg, info) && copies * |AsciiRecord(cfg, info)| <= BUFFER_CAPACITY
  }

  /** What `send_information` reads is there, and every string it builds fits
      the 1024-byte buffer (mode 4 appends the record twice before an SD write). */
  predicate Deliverable(st: InformerState, info: CsiInfo, openOk: bool)
  {
    st.config.Some? &&
    var cfg := st.config.value;
    var ascii := cfg.dataMode == DATA_ASCII;
    if cfg.informerMode == INFORMER_CONSOLE_MODE then
      Renderable(cfg, info)
    else if cfg.informerMode == INFORMER_SEND_SD then
      st.sdInitialized && openOk ==> Renderable(cfg, info)
    else if cfg.informerMode == INFORMER_SEND_SERIAL_COMM then
      st.uartInitialized ==> Renderable(cfg, info)
    else if cfg.informerMode == INFORMER_SEND_SD_SC then
      Fits(cfg, info, if st.sdInitialized && openOk then 2 else 1)
    else true
  }

  /** `send_information`: one sample to the mode's sinks. `openOk` is whether
      the SD file opens, if it is opened at all. */
  function Deliver(st: InformerState, info: CsiInfo, openOk: bool): (r: InformerState)
    requires Deliverable(st, info, openOk)
    // the sinks a mode does not name are never written
    ensures st.config.value.informerMode != INFORMER_CONSOLE_MODE ==> r.console == st.console
    ensures st.config.value.informerMode !in {INFORMER_SEND_SD, INFORMER_SEND_SD_SC} ==> r.sdFile == st.sdFile && r.fdSet == st.fdSet
    ensures st.config.value.informerMode !in {INFORMER_SEND_SERIAL_COMM, INFORMER_SEND_SD_SC} ==> r.serial == st.serial
    // an uninitialised SD card is never opened
    ensures !st.sdInitialized ==> r.sdFile == st.sdFile && r.fdSet == st.fdSet
    // the statics and the configuration are only read
    ensures r.(console := st.console, sdFile := st.sdFile, serial := st.serial, fdSet := st.fdSet) == st
    // sinks only grow
    ensures st.console <= r.console && st.sdFile <= r.sdFile && st.serial <= r.serial
  {
    var mode := st.config.value.informerMode;
    if mode == INFORMER_CONSOLE_MODE then ToConsole(st, info)
    else if mode == INFORMER_SEND_SD then ToSd(st, info, openOk)
    else if mode == INFORMER_SEND_SERIAL_COMM then ToSerial(st, info)
    else if mode == INFORMER_SEND_SD_SC then ToSdAndSerial(st, info, openOk)
    else st
  }

  /** Mode 1: the record on the console. */
  function ToConsole(st: InformerState, info: CsiInfo): InformerState
    requires st.config.Some? && Renderable(st.config.value, info)
  {
    st.(console := st.console + Rendered(st.config.value, info))
  }

  /** Mode 2: the file is opened only on an initialised card, and the record
      is written only when it opens. */
  function ToSd(st: InformerState, info: CsiInfo, openOk: bool): InformerState
    requires st.config.Some? && (st.sdInitialized && openOk ==> Renderable(st.config.value, info))
  {
    if !st.sdInitialized then st
    else if openOk then st.(fdSet := true, sdFile := st.sdFile + Rendered(st.config.value, info))
    else st.(fdSet := false)
  }

  /** Mode 3: the record on an initialised serial port. */
  function ToSerial(st: InformerState, info: CsiInfo): InformerState
    requires st.config.Some? && (st.uartInitialized ==> Renderable(st.config.value, info))
  {
    if st.uartInitialized then st.(serial := st.serial + Rendered(st.config.value, info)) else st
  }

  /** Mode 4: always ASCII; the line handed to `uart_write_bytes`, then,
      appended to the same buffer a second time, to the SD card. `serial` is
      what is passed to `uart_write_bytes`: mode 4 never installs the UART
      driver, which only mode 3's start does. */
  function ToSdAndSerial(st: InformerState, info: CsiInfo, openOk: bool): InformerState
    requires st.config.Some? && Fits(st.config.value, info, if st.sdInitialized && openOk then 2 else 1)
  {
    var line := AsciiRecord(st.config.value, info);
    var st1 := if st.uartInitialized then st.(serial := st.serial + Text(line)) else st;
    if !st.sdInitialized then st1
    else if openOk then st1.(fdSet := true, sdFile := st1.sdFile + Text(line + line))
    else st1.(fdSet := false)
  }

  /** One message of `informer_task`. */
  function HandleInformer(st: InformerState, msg: InformerMsg, openOk: bool): InformerState
    requires msg.CsiReceived? ==> Deliverable(st, msg.info, openOk)
    requires msg.StopInformer? ==> st.config.Some?
  {
    match msg
    case CsiReceived(info) => Deliver(st, info, openOk)
    case InformerInitialized => st
    case StopInformer =>
      if st.config.value.informerMode in {INFORMER_SEND_SD, INFORMER_SEND_SD_SC} && st.fdSet
      then st.(storage := st.storage + [CloseFile, UnmountSd])
      else st
  }

  /** STOP appends the close and the unmount exactly when the mode is 2 or 4
      and `csi_fd` was ever set, and changes nothing else. A write never clears
      `csi_fd`, so after its own close a written file is closed again by every
      STOP. */
  lemma StopClosesWhenFileSeen(st: InformerState, openOk: bool)
    requires st.config.Some?
    ensures var r := HandleInformer(st, StopInformer, openOk);
            var closes := st.config.value.informerMode in {INFORMER_SEND_SD, INFORMER_SEND_SD_SC} && st.fdSet;
            && r.(storage := st.storage) == st
            && r.storage == st.storage + (if closes then [CloseFile, UnmountSd] else [])
  {
  }

  /** In mode 2 a written sample leaves `csi_fd` set, so two STOPs close the
      (already closed) file twice and unmount the card twice. */
  lemma WrittenFileClosedByEveryStop(st: InformerState, info: CsiInfo)
    requires Deliverable(st, info, true) && st.config.value.informerMode == INFORMER_SEND_SD && st.sdInitialized
    ensures var r := HandleInformer(HandleInformer(Deliver(st, info, true), StopInformer, true), StopInformer, true);
            r.fdSet && r.storage == st.storage + [CloseFile, UnmountSd, CloseFile, UnmountSd]
  {
  }

  /** Modes 1 to 3 write one record to their one sink, as ASCII exactly when
      the data mode is ASCII and as the binary record otherwise; the SD file
      only on an initialised card whose file opens, the serial port only when
      initialised. An unknown mode writes nothing. */
  lemma SingleSinkModes(st: InformerState, info: CsiInfo, openOk: bool)
    requires Deliverable(st, info, openOk)
    ensures var cfg, r := st.config.value, Deliver(st, info, openOk);
            var ascii := cfg.dataMode == DATA_ASCII;
            && (cfg.informerMode == INFORMER_CONSOLE_MODE ==>
                  r.console == st.console + (if ascii then Text(AsciiRecord(cfg, info)) else BinaryRecord(cfg, info)))
            && (cfg.informerMode == INFORMER_SEND_SD ==>
                  r.sdFile == st.sdFile +
                    (if st.sdInitialized && openOk then (if ascii then Text(AsciiRecord(cfg, info)) else BinaryRecord(cfg, info))
                     else []))
            && (cfg.informerMode == INFORMER_SEND_SERIAL_COMM ==>
                  r.serial == st.serial +
                    (if st.uartInitialized then (if ascii then Text(AsciiRecord(cfg, info)) else BinaryRecord(cfg, info))
                     else []))
            && (cfg.informerMode !in {INFORMER_CONSOLE_MODE, INFORMER_SEND_SD, INFORMER_SEND_SERIAL_COMM, INFORMER_SEND_SD_SC} ==>
                  r == st)
  {
  }

  /** Mode 4 always renders ASCII whatever the data mode; `uart_write_bytes`
      is passed the line once and the SD file, when written, gets it TWICE:
      the second `get_csi_string_message` appends to the string already built. */
  lemma CombinedModeWritesSdTwice(st: InformerState, info: CsiInfo)
    requires Deliverable(st, info, true) && st.config.value.informerMode == INFORMER_SEND_SD_SC
    ensures var r := Deliver(st, info, true);
            var line := Text(AsciiRecord(st.config.value, info));
            && r.serial == st.serial + (if st.uartInitialized then line else [])
            && r.sdFile == st.sdFile + (if st.sdInitialized then line + line else [])
  {
    TextConcat(AsciiRecord(st.config.value, info), AsciiRecord(st.config.value, info));
  }

  /** Processing a series of received samples. */
  function DeliverAll(st: InformerState, infos: seq<CsiInfo>, openOk: bool): InformerState
    requires st.config.Some?
    decreases |infos|
  {
    if infos == [] then st
    else if Deliverable(st, infos[0], openOk) then DeliverAll(Deliver(st, infos[0], openOk), infos[1..], openOk)
    else st
  }

  /** Started in mode 4 from power-on, the informer never initialises the SD
      card (only mode 2 does), so it never writes the SD file, however many
      samples arrive; every written sample is only passed to
      `uart_write_bytes`. */
  lemma CombinedModeNeverWritesSd(cfg: Config, sdOk: bool, uartOk: bool, name: string, infos: seq<CsiInfo>, openOk: bool)
    requires cfg.informerMode == INFORMER_SEND_SD_SC
    ensures var st := StartInformer(POWER_ON, cfg, sdOk, uartOk, name);
            var r := DeliverAll(st, infos, openOk);
            r.sdFile == [] && !r.fdSet && !r.sdInitialized && r.uartInitialized && r.console == []
  {
    var st := StartInformer(POWER_ON, cfg, sdOk, uartOk, name);
    NoSdAfter(st, infos, openOk);
  }

  lemma {:induction false} NoSdAfter(st: InformerState, infos: seq<CsiInfo>, openOk: bool)
    requires st.config.Some? && st.config.value.informerMode == INFORMER_SEND_SD_SC && !st.sdInitialized
    ensures var r := DeliverAll(st, infos, openOk);
            r.sdFile == st.sdFile && r.fdSet == st.fdSet && r.config == st.config && r.console == st.console
            && r.sdInitialized == st.sdInitialized && r.uartInitialized == st.uartInitialized
    decreases |infos|
  {
    if infos != [] && Deliverable(st, infos[0], openOk) {
      NoSdAfter(Deliver(st, infos[0], openOk), infos[1..], openOk);
    }
  }

  /** In mode 2 a failed SD initialisation silences the informer entirely. */
  lemma FailedSdWritesNothing(cfg: Config, uartOk: bool, name: string, info: CsiInfo, openOk: bool)
    requires cfg.informerMode == INFORMER_SEND_SD
    ensures var st := StartInformer(POWER_ON, cfg, false, uartOk, name);
            Deliver(st, info, openOk) == st
  {
  }

  // ---------------------------------------------------------------------
  // The steps of `get_csi_string_message`: each appends one field's text
  // when the field's flag is set.

  method AppendMac(r: string, cfg: Config, info: CsiInfo) returns (s: string)
    ensures s == r + Piece(cfg, info, MacKind)
  {
    s := r;
    if cfg.informMacSubscribed {
      s := s + (MacText(info.mac) + ",");
    }
  }

  method AppendRssi(r: string, cfg: Config, info: CsiInfo) returns (s: string)
    ensures s == r + Piece(cfg, info, RssiKind)
  {
    s := r;
    if cfg.informRssi {
      s := s + (Decimal(info.rxCtrl.rssi) + ",");
    }
  }

  method AppendBandwidth(r: string, cfg: Config, info: CsiInfo) returns (s: string)
    ensures s == r + Piece(cfg, info, BandwidthKind)
  {
    s := r;
    if cfg.informChannelBw {
      s := s + (Decimal(info.rxCtrl.cwb) + ",");
    }
  }

  method AppendNoiseFloor(r: string, cfg: Config, info: CsiInfo) returns (s: string)
    ensures s == r + Piece(cfg, info, NoiseFloorKind)
  {
    s := r;
    if cfg.informNoiseFloor {
      s := s + (Decimal(info.rxCtrl.noiseFloor) + ",");
    }
  }

  method AppendTimestamp(r: string, cfg: Config, info: CsiInfo) returns (s: string)
    ensures s == r + Piece(cfg, info, TimestampKind)
  {
    s := r;
    if cfg.informTimestamp {
      s := s + (Decimal(AsSigned32(info.rxCtrl.timestamp)) + ",");
    }
  }

  method AppendAntenna(r: string, cfg: Config, info: CsiInfo) returns (s: string)
    ensures s == r + Piece(cfg, info, AntennaKind)
  {
    s := r;
    if cfg.informAntNum {
      s := s + (Decimal(info.rxCtrl.ant) + ",");
    }
  }

  method AppendLength(r: string, cfg: Config, info: CsiInfo) returns (s: string)
    ensures s == r + Piece(cfg, info, LengthKind)
  {
    s := r;
    if cfg.informCsiLen {
      s := s + (Decimal(info.len) + ",");
    }
  }

  /** The buffer loop: ",buf[i]" for 1 <= i < len. */
  method AppendTail(r: string, buf: seq<Int8>, len: nat) returns (s: string)
    requires 1 <= |buf| && len <= |buf|
    ensures s == r + Tail(buf, len)
  {
    s := r;
    var i := 1;
    while i < len
      invariant 1 <= i <= |buf|
      invariant i <= len || i == 1
      invariant s == r + Tail(buf, i)
    {
      Assoc(r, Tail(buf, i), "," + Decimal(buf[i]));
      s := s + ("," + Decimal(buf[i]));
      i := i + 1;
    }
    assert Tail(buf, i) == Tail(buf, len);
  }

  /** The buffer block: "[" and `buf[0]`, the loop, then "]\n". */
  method AppendBuffer(r: string, cfg: Config, info: CsiInfo) returns (s: string)
    requires AsciiReady(cfg, info)
    ensures s == r + Piece(cfg, info, BufferKind)
  {
    s := r;
    if cfg.informCsiData {
      var buf := info.buf.value;
      ghost var open := "[" + Decimal(buf[0]);
      s := s + ("[" + Decimal(buf[0]));
      s := AppendTail(s, buf, info.len);
      Assoc(r, open, Tail(buf, info.len));
      Assoc(r, open + Tail(buf, info.len), "]\n");
      s := s + "]\n";
    }
  }

  lemma Assoc<T>(a: seq<T>, b: seq<T>, c: seq<T>)
    ensures a + b + c == a + (b + c)
  {
  }

  /** One step of the line: appending the next field's piece to a line that
      holds the first j fields gives the line with the first j + 1. */
  lemma ExtendLine(msg: string, cfg: Config, info: CsiInfo, j: nat, k: FieldKind, r: string)
    requires j < |KINDS| && KINDS[j] == k && AsciiReady(cfg, info) && r == msg + AsciiPrefix(cfg, info, j)
    ensures r + Piece(cfg, info, k) == msg + AsciiPrefix(cfg, info, j + 1)
  {
    Assoc(msg, AsciiPrefix(cfg, info, j), Piece(cfg, info, k));
  }

  // ---------------------------------------------------------------------
  // The writes of the binary branch of `send_information`: each hands one
  // field's in-memory bytes to the sink when the field's flag is set.

  method WriteMac(out: seq<Byte>, cfg: Config, info: CsiInfo) returns (o: seq<Byte>)
    ensures o == out + Chunk(cfg, info, MacKind)
  {
    o := out;
    if cfg.informMacSubscribed {
      o := o + info.mac;
    }
  }

  method WriteRssi(out: seq<Byte>, cfg: Config, info: CsiInfo) returns (o: seq<Byte>)
    ensures o == out + Chunk(cfg, info, RssiKind)
  {
    o := out;
    if cfg.informRssi {
      o := o + [U8(info.rxCtrl.rssi)];
    }
  }

  method WriteBandwidth(out: seq<Byte>, cfg: Config, info: CsiInfo) returns (o: seq<Byte>)
    ensures o == out + Chunk(cfg, info, BandwidthKind)
  {
    o := out;
    if cfg.informChannelBw {
      o := o + [info.rxCtrl.cwb];
    }
  }

  method WriteNoiseFloor(out: seq<Byte>, cfg: Config, info: CsiInfo) returns (o: seq<Byte>)
    ensures o == out + Chunk(cfg, info, NoiseFloorKind)
  {
    o := out;
    if cfg.informNoiseFloor {
      o := o + [U8(info.rxCtrl.noiseFloor)];
    }
  }

  method WriteTimestamp(out: seq<Byte>, cfg: Config, info: CsiInfo) returns (o: seq<Byte>)
    ensures o == out + Chunk(cfg, info, TimestampKind)
  {
    o := out;
    if cfg.informTimestamp {
      o := o + LittleEndian(info.rxCtrl.timestamp, 4);
    }
  }

  method WriteAntenna(out: seq<Byte>, cfg: Config, info: CsiInfo) returns (o: seq<Byte>)
    ensures o == out + Chunk(cfg, info, AntennaKind)
  {
    o := out;
    if cfg.informAntNum {
      o := o + [info.rxCtrl.ant];
    }
  }

  method WriteLength(out: seq<Byte>, cfg: Config, info: CsiInfo) returns (o: seq<Byte>)
    ensures o == out + Chunk(cfg, info, LengthKind)
  {
    o := out;
    if cfg.informCsiLen {
      o := o + LittleEndian(info.len, 2);
    }
  }

  method WriteBuffer(out: seq<Byte>, cfg: Config, info: CsiInfo) returns (o: seq<Byte>)
    requires BinaryReady(cfg, info)
    ensures o == out + Chunk(cfg, info, BufferKind)
  {
    o := out;
    if cfg.informCsiData {
      o := o + Bytes(info.buf.value[..info.len]);
    }
  }

  /** One write of the record: the next field's bytes after the first j fields
      give the record's first j + 1 fields. */
  lemma ExtendRecord(cfg: Config, info: CsiInfo, j: nat, k: FieldKind, out: seq<Byte>)
    requires j < |KINDS| && KINDS[j] == k && BinaryReady(cfg, info)
    requires out == BinaryPrefix(cfg, info, j) + Chunk(cfg, info, k)
    ensures out == BinaryPrefix(cfg, info, j + 1)
  {
  }

  /** The informer's statics (`informer_config`, `sd_initialized`,
      `uart_initialized`, `filename`, `csi_fd`) and its sinks. */
  class InformerApp {
    var config: Option<Config>
    var sdInitialized: bool
    var uartInitialized: bool
    var filename: string
    var fdSet: bool
    var console: seq<Byte>
    var sdFile: seq<Byte>
    var serial: seq<Byte>
    var storage: seq<StorageAction>

    function State(): InformerState
      reads this
    {
      InformerState(config, sdInitialized, uartInitialized, filename, fdSet, console, sdFile, serial, storage)
    }

    constructor ()
      ensures State() == POWER_ON
    {
      config := None;
      sdInitialized := false;
      uartInitialized := true;
      filename := "";
      fdSet := false;
      console := [];
      sdFile := [];
      serial := [];
      storage := [];
    }

    /** `start_informer_app`. */
    method Start(cfg: Config, sdOk: bool, uartOk: bool, name: string)
      modifies this
      ensures State() == StartInformer(old(State()), cfg, sdOk, uartOk, name)
    {
      config := Some(cfg);
      if cfg.informerMode == INFORMER_SEND_SD {
        sdInitialized := sdOk;
        if sdInitialized {
          filename := name;
        }
      } else if cfg.informerMode == INFORMER_SEND_SERIAL_COMM {
        uartInitialized := uartOk;
      }
    }

    /** `get_csi_string_message`: appends the sample's ASCII line to `msg`,
        one `if` block of the source per step. */
    method GetCsiStringMessage(msg: string, info: CsiInfo) returns (r: string)
      requires config.Some? && AsciiReady(config.value, info)
      ensures r == msg + AsciiRecord(config.value, info)
    {
      var cfg := config.value;
      r := msg + MARKER;
      ExtendLine(msg, cfg, info, 0, MacKind, r);
      r := AppendMac(r, cfg, info);
      ExtendLine(msg, cfg, info, 1, RssiKind, r);
      r := AppendRssi(r, cfg, info);
      ExtendLine(msg, cfg, info, 2, BandwidthKind, r);
      r := AppendBandwidth(r, cfg, info);
      ExtendLine(msg, cfg, info, 3, NoiseFloorKind, r);
      r := AppendNoiseFloor(r, cfg, info);
      ExtendLine(msg, cfg, info, 4, TimestampKind, r);
      r := AppendTimestamp(r, cfg, info);
      ExtendLine(msg, cfg, info, 5, AntennaKind, r);
      r := AppendAntenna(r, cfg, info);
      ExtendLine(msg, cfg, info, 6, LengthKind, r);
      r := AppendLength(r, cfg, info);
      ExtendLine(msg, cfg, info, 7, BufferKind, r);
      r := AppendBuffer(r, cfg, info);
    }

    /** The binary branch of `send_information`: the bytes its successive
        writes hand to the sink. */
    method BinaryWrites(info: CsiInfo) returns (out: seq<Byte>)
      requires config.Some? && BinaryReady(config.value, info)
      ensures out == BinaryRecord(config.value, info)
    {
      var cfg := config.value;
      out := Text(MARKER);
      out := WriteMac(out, cfg, info);
      ExtendRecord(cfg, info, 0, MacKind, out);
      out := WriteRssi(out, cfg, info);
      ExtendRecord(cfg, info, 1, RssiKind, out);
      out := WriteBandwidth(out, cfg, info);
      ExtendRecord(cfg, info, 2, BandwidthKind, out);
      out := WriteNoiseFloor(out, cfg, info);
      ExtendRecord(cfg, info, 3, NoiseFloorKind, out);
      out := WriteTimestamp(out, cfg, info);
      ExtendRecord(cfg, info, 4, TimestampKind, out);
      out := WriteAntenna(out, cfg, info);
      ExtendRecord(cfg, info, 5, AntennaKind, out);
      out := WriteLength(out, cfg, info);
      ExtendRecord(cfg, info, 6, LengthKind, out);
      out := WriteBuffer(out, cfg, info);
      ExtendRecord(cfg, info, 7, BufferKind, out);
    }

    /** The record in the configured data mode: the ASCII line, or the
        bytes of the binary writes. */
    method Render(info: CsiInfo) returns (bytes: seq<Byte>)
      requires config.Some? && Renderable(config.value, info)
      ensures bytes == Rendered(config.value, info)
    {
      if config.value.dataMode == DATA_ASCII {
        var csiString := GetCsiStringMessage("", info);
        assert csiString == AsciiRecord(config.value, info);
        bytes := Text(csiString);
      } else {
        bytes := BinaryWrites(info);
      }
    }

    /** `send_information`: the switch on the informer mode. */
    method SendInformation(info: CsiInfo, openOk: bool)
      requires Deliverable(State(), info, openOk)
      modifies this
      ensures State() == Deliver(old(State()), info, openOk)
    {
      var mode := config.value.informerMode;
      if mode == INFORMER_CONSOLE_MODE {
        var bytes := Render(info);
        console := console + bytes;
      } else if mode == INFORMER_SEND_SD {
        if sdInitialized {
          fdSet := openOk;
          if openOk {
            var bytes := Render(info);
            sdFile := sdFile + bytes;
          }
        }
      } else if mode == INFORMER_SEND_SERIAL_COMM {
        if uartInitialized {
          var bytes := Render(info);
          serial := serial + bytes;
        }
      } else if mode == INFORMER_SEND_SD_SC {
        SendToSdAndSerial(info, openOk);
      }
    }

    /** Case `INFORMER_SEND_SD_SC` of `send_information`. */
    method SendToSdAndSerial(info: CsiInfo, openOk: bool)
      requires config.Some? && Fits(config.value, info, if sdInitialized && openOk then 2 else 1)
      modifies this
      ensures State() == ToSdAndSerial(old(State()), info, openOk)
    {
      ghost var line := AsciiRecord(config.value, info);
      var csiString := GetCsiStringMessage("", info);
      assert csiString == line;
      if uartInitialized {
        serial := serial + Text(csiString);
      }
      if sdInitialized {
        fdSet := openOk;
        if openOk {
          csiString := GetCsiStringMessage(csiString, info);
          assert csiString == line + line;
          sdFile := sdFile + Text(csiString);
        }
      }
    }

    /** One message of `informer_task`. */
    method HandleMessage(msg: InformerMsg, openOk: bool)
      requires msg.CsiReceived? ==> Deliverable(State(), msg.info, openOk)
      requires msg.StopInformer? ==> config.Some?
      modifies this
      ensures State() == HandleInformer(old(State()), msg, openOk)
    {
      match msg {
        case CsiReceived(info) =>
          SendInformation(info, openOk);
        case InformerInitialized =>
        case StopInformer =>
          var mode := config.value.informerMode;
          if mode == INFORMER_SEND_SD || mode == INFORMER_SEND_SD_SC {
            if fdSet {
              storage := storage + [CloseFile, UnmountSd];
            }
          }
      }
    }
  }
}
