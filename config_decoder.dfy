/** The HTTP configuration handler: decodes the headers of a
    `csiConfiguration.json` request into a CSI configuration record, on top of
    the defaults, or refuses the request. */
module ConfigDecoder {
  import opened CsiTypes
  import Informer

  // ---------------------------------------------------------------------
  // Request headers

  /** The header names the handler asks for (http_server.h), each written as
      its header text. */
  datatype HeaderName =
    | OpModes | MacAddress | Communication | Frequency | Bandwidth
    | DataRepresentation | IsMacAddress | IsCSIBuff | IsRSSI | IsChannelBandwidth
    | IsNoiseFloor | IsTimestamp | IsAntennaNumber | IsCSIDataLength | InformerMode
    | MISO | MOSI | CLK | CS | Baudrate | TX | RX

  /** The request's values for those header names. */
  type Headers = map<HeaderName, string>

  /** A header counts only with a non-empty value (`get_hdr_value_len + 1 > 1`). */
  function Header(h: Headers, name: HeaderName): (v: Option<string>)
    ensures v.Some? <==> name in h && h[name] != ""
    ensures v.Some? ==> v.value == h[name]
  {
    if name in h && h[name] != "" then Some(h[name]) else None
  }

  predicate Has(h: Headers, name: HeaderName)
  {
    Header(h, name).Some?
  }

  // ---------------------------------------------------------------------
  // strtol / atoi (newlib, 32-bit long)

  predicate IsSpace(c: char)
  {
    c == ' ' || c == '\t' || c == '\n' || c == '\U{B}' || c == '\U{C}' || c == '\r'
  }

  /** The string after its leading white space. */
  function SkipSpace(s: string): string
  {
    if s != [] && IsSpace(s[0]) then SkipSpace(s[1..]) else s
  }

  /** The value of an alphanumeric character as a digit (0-9, then a/A = 10 up to z/Z = 35). */
  function DigitValue(c: char): (d: Option<nat>)
    ensures d.Some? ==> d.value < 36
  {
    if '0' <= c <= '9' then Some(c as int - '0' as int)
    else if 'a' <= c <= 'z' then Some(c as int - 'a' as int + 10)
    else if 'A' <= c <= 'Z' then Some(c as int - 'A' as int + 10)
    else None
  }

  predicate IsDigit(c: char, base: nat)
  {
    DigitValue(c).Some? && DigitValue(c).value < base
  }

  /** The number of leading characters that are digits in the base. */
  function DigitRun(s: string, base: nat): (n: nat)
    ensures n <= |s|
  {
    if s != [] && IsDigit(s[0], base) then 1 + DigitRun(s[1..], base) else 0
  }

  /** A digit's value; the strings this is applied to hold digits only. */
  function Digit(c: char): nat
  {
    match DigitValue(c)
    case Some(d) => d
    case None => 0
  }

  /** The value of a string of digits, most significant first. */
  function DigitsValue(s: string, base: nat): nat
  {
    if s == [] then 0 else DigitsValue(s[..|s| - 1], base) * base + Digit(s[|s| - 1])
  }

  const LONG_MAX := 0x7fff_ffff
  const LONG_MIN := -0x8000_0000

  /** A magnitude with its sign, saturated to the 32-bit range as strtol does on overflow. */
  function Saturate(negative: bool, magnitude: nat): (v: Int32)
    ensures !negative && magnitude <= LONG_MAX ==> v == magnitude
    ensures negative && magnitude <= -LONG_MIN ==> v == -(magnitude as int)
    ensures !negative && magnitude > LONG_MAX ==> v == LONG_MAX
    ensures negative && magnitude > -LONG_MIN ==> v == LONG_MIN
  {
    if negative then (if magnitude <= -LONG_MIN then -(magnitude as int) else LONG_MIN)
    else (if magnitude <= LONG_MAX then magnitude else LONG_MAX)
  }

  /** The digits strtol reads: after white space, an optional sign and, in
      base 16, an optional "0x"/"0X". */
  function Unsigned(s: string, base: nat): string
  {
    var t := SkipSpace(s);
    var u := if t != [] && (t[0] == '-' || t[0] == '+') then t[1..] else t;
    if base == 16 && |u| >= 2 && u[0] == '0' && (u[1] == 'x' || u[1] == 'X') then u[2..] else u
  }

  predicate Negative(s: string)
  {
    var t := SkipSpace(s);
    t != [] && t[0] == '-'
  }

  /** `strtol(s, NULL, base)`: 0 when no digit follows. */
  function Strtol(s: string, base: nat): Int32
  {
    var u := Unsigned(s, base);
    Saturate(Negative(s), DigitsValue(u[..DigitRun(u, base)], base))
  }

  /** `atoi(s)`: `strtol(s, NULL, 10)` narrowed to int. */
  function Atoi(s: string): Int32
  {
    Strtol(s, 10)
  }

  /** A value stored in a `uint8_t` field: its low eight bits. */
  function Low8(v: int): Byte
  {
    v % 0x100
  }

  // ---------------------------------------------------------------------
  // strtok(_, ":")

  /** The number of leading characters before the first ':'. */
  function TokenLength(s: string): (n: nat)
    ensures n <= |s| && ':' !in s[..n]
    ensures n < |s| ==> s[n] == ':'
  {
    if s == [] || s[0] == ':' then 0 else 1 + TokenLength(s[1..])
  }

  /** The tokens successive `strtok` calls return: the maximal non-empty runs
      of characters other than ':'. */
  function Tokens(s: string): (ts: seq<string>)
    ensures forall i :: 0 <= i < |ts| ==> ts[i] != [] && ':' !in ts[i]
    decreases |s|
  {
    if s == [] then []
    else if s[0] == ':' then Tokens(s[1..])
    else var n := TokenLength(s); [s[..n]] + Tokens(s[n..])
  }

  /** `(int) strtol(token, NULL, 16)` stored into a MAC byte. */
  function HexByte(token: string): Byte
  {
    Low8(Strtol(token, 16))
  }

  /** The MAC after the tokenising loop: byte i from token i, the other bytes
      unchanged from `base`. Tokens past the sixth are not stored. */
  function MacFrom(base: Mac, tokens: seq<string>): (m: Mac)
    ensures forall i :: 0 <= i < 6 && i < |tokens| ==> m[i] == HexByte(tokens[i])
    ensures forall i :: |tokens| <= i < 6 ==> m[i] == base[i]
  {
    seq(6, i requires 0 <= i < 6 => if i < |tokens| then HexByte(tokens[i]) else base[i])
  }

  // ---------------------------------------------------------------------
  // Defaults and decoding

  /** `sender_mac` of `set_default_csi_configuration`: 08:d1:f9:29:91:e8. */
  const DEFAULT_MAC: Mac := [0x08, 0xd1, 0xf9, 0x29, 0x91, 0xe8]

  /** `set_default_csi_configuration`. */
  const DEFAULT_CONFIG := Config(
    DATA_ASCII, 0, DEFAULT_MAC, WIFI_BW_HT20, 1, 20,
    true, true, true, true, true, true, true, true,
    INFORMER_CONSOLE_MODE,
    SerialConfig(921600, 5, 4),
    SdConfig(19, 22, 23, 18))

  /** The headers both roles must send. */
  predicate HasBase(h: Headers)
  {
    Has(h, OpModes) && Has(h, MacAddress) && Has(h, Communication) &&
    Has(h, Frequency) && Has(h, Bandwidth)
  }

  /** The headers a receiver (`OpModes` exactly "1") must also send. */
  predicate HasReceiver(h: Headers)
  {
    Has(h, DataRepresentation) && Has(h, IsMacAddress) && Has(h, IsCSIBuff) &&
    Has(h, IsRSSI) && Has(h, IsChannelBandwidth) && Has(h, IsNoiseFloor) &&
    Has(h, IsTimestamp) && Has(h, IsAntennaNumber) && Has(h, IsCSIDataLength) &&
    Has(h, InformerMode)
  }

  /** The SD pins, sent with informer mode "2" or "4". */
  predicate HasSd(h: Headers)
  {
    Has(h, MISO) && Has(h, MOSI) && Has(h, CLK) && Has(h, CS)
  }

  /** The serial parameters, sent with informer mode "3" or "4". */
  predicate HasSerial(h: Headers)
  {
    Has(h, Baudrate) && Has(h, TX) && Has(h, RX)
  }

  /** The handler fetches the receiver headers only for the text "1" (`strcmp`). */
  predicate IsReceiver(h: Headers)
    requires Has(h, OpModes)
  {
    IsText(Header(h, OpModes).value, '1')
  }

  /** The text is the one character `c` (a `strcmp` against a one-letter literal). */
  predicate IsText(s: string, c: char)
  {
    |s| == 1 && s[0] == c
  }

  predicate UsesSd(h: Headers)
    requires Has(h, InformerMode)
  {
    var m := Header(h, InformerMode).value;
    IsText(m, '2') || IsText(m, '4')
  }

  predicate UsesSerial(h: Headers)
    requires Has(h, InformerMode)
  {
    var m := Header(h, InformerMode).value;
    IsText(m, '3') || IsText(m, '4')
  }

  /** Every header the request's own values make necessary is there. */
  predicate Complete(h: Headers)
  {
    HasBase(h) &&
    (IsReceiver(h) ==>
      HasReceiver(h) &&
      (UsesSd(h) ==> HasSd(h)) &&
      (UsesSerial(h) ==> HasSerial(h)))
  }

  /** A flag header: true exactly for the text "true". */
  function Flag(s: string): bool
  {
    s == "true"
  }

  /** The fields every request sets, on top of the defaults. */
  function BaseFields(h: Headers): Config
    requires HasBase(h)
  {
    DEFAULT_CONFIG.(
      opMode := Atoi(Header(h, OpModes).value),
      macSubs := MacFrom(DEFAULT_MAC, Tokens(Header(h, MacAddress).value)),
      bandwidth := Atoi(Header(h, Bandwidth).value),
      channel := Atoi(Header(h, Communication).value),
      packetFrequency := Atoi(Header(h, Frequency).value))
  }

  /** The receiver's data representation, flags and informer mode. */
  function ReceiverFields(h: Headers, cfg: Config): Config
    requires HasReceiver(h)
  {
    cfg.(
      dataMode := Atoi(Header(h, DataRepresentation).value),
      informMacSubscribed := Flag(Header(h, IsMacAddress).value),
      informCsiData := Flag(Header(h, IsCSIBuff).value),
      informRssi := Flag(Header(h, IsRSSI).value),
      informChannelBw := Flag(Header(h, IsChannelBandwidth).value),
      informNoiseFloor := Flag(Header(h, IsNoiseFloor).value),
      informTimestamp := Flag(Header(h, IsTimestamp).value),
      informAntNum := Flag(Header(h, IsAntennaNumber).value),
      informCsiLen := Flag(Header(h, IsCSIDataLength).value),
      informerMode := Low8(Atoi(Header(h, InformerMode).value)))
  }

  function SerialFields(h: Headers, cfg: Config): Config
    requires HasSerial(h)
  {
    cfg.(scConfig := SerialConfig(
      Atoi(Header(h, Baudrate).value),
      Low8(Atoi(Header(h, RX).value)),
      Low8(Atoi(Header(h, TX).value))))
  }

  function SdFields(h: Headers, cfg: Config): Config
    requires HasSd(h)
  {
    cfg.(sdConfig := SdConfig(
      Low8(Atoi(Header(h, CLK).value)),
      Low8(Atoi(Header(h, MOSI).value)),
      Low8(Atoi(Header(h, MISO).value)),
      Low8(Atoi(Header(h, CS).value))))
  }

  /** The serial parameters and SD pins a receiver's informer mode calls for. */
  function Ports(h: Headers, cfg: Config): Config
    requires Has(h, InformerMode)
    requires UsesSerial(h) ==> HasSerial(h)
    requires UsesSd(h) ==> HasSd(h)
  {
    var cfg1 := if UsesSerial(h) then SerialFields(h, cfg) else cfg;
    if UsesSd(h) then SdFields(h, cfg1) else cfg1
  }

  /** The record the success path builds. The receiver branch is taken for
      exactly the requests whose receiver headers were fetched. */
  function Build(h: Headers): Config
    requires Complete(h)
  {
    if IsReceiver(h) then Ports(h, ReceiverFields(h, BaseFields(h))) else BaseFields(h)
  }

  /** The handler's verdict: the record, or failure (`ESP_FAIL`) when a needed header is missing. */
  function Decode(h: Headers): (r: Option<Config>)
    ensures r.Some? <==> Complete(h)
  {
    if Complete(h) then Some(Build(h)) else None
  }

  /** What a successful request sets off, in order. */
  datatype ServerEffect = SaveConfiguration(config: Config) | SendChangeToCsiCollection(config: Config) | StopServer

  function Effects(r: Option<Config>): seq<ServerEffect>
  {
    match r
    case None => []
    case Some(cfg) => [SaveConfiguration(cfg), SendChangeToCsiCollection(cfg), StopServer]
  }

  // ---------------------------------------------------------------------
  // The handler

  method FetchBase(h: Headers) returns (ok: bool)
    ensures ok == HasBase(h)
  {
    if !Has(h, OpModes) { return false; }
    if !Has(h, MacAddress) { return false; }
    if !Has(h, Communication) { return false; }
    if !Has(h, Frequency) { return false; }
    if !Has(h, Bandwidth) { return false; }
    return true;
  }

  method FetchReceiver(h: Headers) returns (ok: bool)
    ensures ok == HasReceiver(h)
  {
    if !Has(h, DataRepresentation) { return false; }
    if !Has(h, IsMacAddress) { return false; }
    if !Has(h, IsCSIBuff) { return false; }
    if !Has(h, IsRSSI) { return false; }
    if !Has(h, IsChannelBandwidth) { return false; }
    if !Has(h, IsNoiseFloor) { return false; }
    if !Has(h, IsTimestamp) { return false; }
    if !Has(h, IsAntennaNumber) { return false; }
    if !Has(h, IsCSIDataLength) { return false; }
    if !Has(h, InformerMode) { return false; }
    return true;
  }

  method FetchSd(h: Headers) returns (ok: bool)
    ensures ok == HasSd(h)
  {
    if !Has(h, MISO) { return false; }
    if !Has(h, MOSI) { return false; }
    if !Has(h, CLK) { return false; }
    if !Has(h, CS) { return false; }
    return true;
  }

  method FetchSerial(h: Headers) returns (ok: bool)
    ensures ok == HasSerial(h)
  {
    if !Has(h, Baudrate) { return false; }
    if !Has(h, TX) { return false; }
    if !Has(h, RX) { return false; }
    return true;
  }

  /** The tokenising loop over `mac_subs`, bounded to the array's six bytes. */
  method ParseMac(text: string) returns (mac: Mac)
    ensures mac == MacFrom(DEFAULT_MAC, Tokens(text))
  {
    var a := new Byte[6](j requires 0 <= j < 6 => DEFAULT_MAC[j]);
    var tokens := Tokens(text);
    var i := 0;
    while i < |tokens| && i < 6
      invariant 0 <= i <= 6 && i <= |tokens|
      invariant a[..] == MacFrom(DEFAULT_MAC, tokens[..i])
    {
      a[i] := HexByte(tokens[i]);
      assert a[..] == MacFrom(DEFAULT_MAC, tokens[..i + 1]);
      i := i + 1;
    }
    assert tokens[..i] == tokens || i == 6;
    mac := a[..];
    MacFromPrefix(tokens, i);
  }

  /** Only the first six tokens reach the MAC. */
  lemma MacFromPrefix(tokens: seq<string>, i: nat)
    requires i <= |tokens| && (i == |tokens| || i == 6)
    ensures MacFrom(DEFAULT_MAC, tokens[..i]) == MacFrom(DEFAULT_MAC, tokens)
  {
  }

  /** The success path: defaults, then the decoded fields. */
  method BuildConfig(h: Headers) returns (cfg: Config)
    requires Complete(h)
    ensures cfg == Build(h)
  {
    cfg := DEFAULT_CONFIG;
    cfg := cfg.(opMode := Atoi(Header(h, OpModes).value));
    var mac := ParseMac(Header(h, MacAddress).value);
    cfg := cfg.(macSubs := mac);
    cfg := cfg.(bandwidth := Atoi(Header(h, Bandwidth).value));
    cfg := cfg.(channel := Atoi(Header(h, Communication).value));
    cfg := cfg.(packetFrequency := Atoi(Header(h, Frequency).value));
    if IsReceiver(h) {
      cfg := ReceiverFields(h, cfg);
      if UsesSerial(h) {
        cfg := SerialFields(h, cfg);
      }
      if UsesSd(h) {
        cfg := SdFields(h, cfg);
      }
    }
  }

  /** `csi_configuration_json_uri_handler`: fetch the headers the request's
      values call for, failing at the first one missing; on success build the
      record, save it, hand it to the Wi-Fi task and stop the server. */
  method CsiConfigurationHandler(h: Headers) returns (r: Option<Config>, effects: seq<ServerEffect>)
    ensures r == Decode(h)
    ensures effects == Effects(r)
  {
    var ok := FetchBase(h);
    if !ok {
      return None, [];
    }
    if IsText(Header(h, OpModes).value, '1') {
      ok := FetchReceiver(h);
      if !ok {
        return None, [];
      }
      var mode := Header(h, InformerMode).value;
      if IsText(mode, '2') || IsText(mode, '4') {
        ok := FetchSd(h);
        if !ok {
          return None, [];
        }
      }
      if IsText(mode, '3') || IsText(mode, '4') {
        ok := FetchSerial(h);
        if !ok {
          return None, [];
        }
      }
    }
    var cfg := BuildConfig(h);
    r := Some(cfg);
    effects := [SaveConfiguration(cfg), SendChangeToCsiCollection(cfg), StopServer];
  }

  // ---------------------------------------------------------------------
  // Number round trips

  lemma DecimalDigit(d: nat)
    requires d < 10
    ensures DigitValue(Informer.DIGITS[d]) == Some(d)
  {
  }

  lemma HexDigit(d: nat)
    requires d < 16
    ensures DigitValue(Informer.HEX_DIGITS[d]) == Some(d)
  {
  }

  /** `%u` text read back digit by digit gives the number. */
  lemma {:induction false} NatDigitsValue(n: nat)
    ensures forall i :: 0 <= i < |Informer.NatDigits(n)| ==> IsDigit(Informer.NatDigits(n)[i], 10)
    ensures DigitsValue(Informer.NatDigits(n), 10) == n
    decreases n
  {
    DecimalDigit(n % 10);
    if n >= 10 {
      NatDigitsValue(n / 10);
      var s := Informer.NatDigits(n);
      assert s[..|s| - 1] == Informer.NatDigits(n / 10);
    }
  }

  lemma {:induction false} DigitRunAll(s: string, base: nat)
    requires forall i :: 0 <= i < |s| ==> IsDigit(s[i], base)
    ensures DigitRun(s, base) == |s|
  {
    if s != [] {
      assert IsDigit(s[0], base);
      DigitRunAll(s[1..], base);
    }
  }

  lemma SkipNoSpace(s: string)
    requires s != [] && !IsSpace(s[0])
    ensures SkipSpace(s) == s
  {
  }

  /** `strtol` of a bare run of digits (bases up to 16, where 'x' is no digit). */
  lemma StrtolDigits(s: string, base: nat)
    requires 2 <= base <= 16 && s != []
    requires forall i :: 0 <= i < |s| ==> IsDigit(s[i], base)
    ensures Unsigned(s, base) == s && !Negative(s)
    ensures Strtol(s, base) == Saturate(false, DigitsValue(s, base))
  {
    assert IsDigit(s[0], base);
    SkipNoSpace(s);
    if |s| >= 2 {
      assert IsDigit(s[1], base);
    }
    DigitRunAll(s, base);
    assert s[..|s|] == s;
  }

  /** `strtol` of a '-' and a run of digits. */
  lemma StrtolNegative(s: string, base: nat)
    requires 2 <= base <= 16 && s != []
    requires forall i :: 0 <= i < |s| ==> IsDigit(s[i], base)
    ensures Strtol("-" + s, base) == Saturate(true, DigitsValue(s, base))
  {
    var t := "-" + s;
    SkipNoSpace(t);
    assert t[1..] == s;
    StrtolDigits(s, base);
    assert Unsigned(s, base) == s;
    DigitRunAll(s, base);
    assert s[..|s|] == s;
  }

  /** `atoi` reads back every value `%d` prints. */
  lemma AtoiDecimal(n: Int32)
    ensures Atoi(Informer.Decimal(n)) == n
  {
    var m: nat := if n < 0 then -(n as int) else n;
    NatDigitsValue(m);
    if n < 0 {
      StrtolNegative(Informer.NatDigits(m), 10);
    } else {
      StrtolDigits(Informer.NatDigits(m), 10);
    }
  }

  /** Two `%d` texts are equal only for equal values. */
  lemma DecimalInjective(n: Int32, m: Int32)
    ensures Informer.Decimal(n) == Informer.Decimal(m) <==> n == m
  {
    if Informer.Decimal(n) == Informer.Decimal(m) {
      AtoiDecimal(n);
      AtoiDecimal(m);
    }
  }

  /** `strtol(_, NULL, 16)` reads back every `%02x` byte. */
  lemma HexByteHex2(b: Byte)
    ensures HexByte(Informer.Hex2(b)) == b
  {
    var hi, lo := b / 16, b % 16;
    HexDigit(hi);
    HexDigit(lo);
    TwoDigits(Informer.Hex2(b), hi, lo);
    HexByteOfByte(Informer.Hex2(b), b);
  }

  /** A token whose value already fits a byte is stored unchanged. */
  lemma HexByteOfByte(s: string, b: Byte)
    requires Strtol(s, 16) == b
    ensures HexByte(s) == b
  {
  }

  lemma TwoDigits(s: string, hi: nat, lo: nat)
    requires |s| == 2 && DigitValue(s[0]) == Some(hi) && DigitValue(s[1]) == Some(lo) && hi < 16 && lo < 16
    ensures Strtol(s, 16) == hi * 16 + lo
  {
    StrtolDigits(s, 16);
    assert s[..1] == [s[0]] && [s[0]][..0] == [];
    assert DigitsValue([s[0]], 16) == hi;
  }

  // ---------------------------------------------------------------------
  // MAC round trip

  lemma {:induction false} TokenLengthOf(t: string, rest: string)
    requires ':' !in t
    requires rest == [] || rest[0] == ':'
    ensures TokenLength(t + rest) == |t|
  {
    if t != [] {
      assert (t + rest)[0] == t[0];
      assert (t + rest)[1..] == t[1..] + rest;
      TokenLengthOf(t[1..], rest);
    }
  }

  lemma TokensCons(t: string, rest: string)
    requires t != [] && ':' !in t
    ensures Tokens(t + ":" + rest) == [t] + Tokens(rest)
  {
    var s := t + ":" + rest;
    TokenLengthOf(t, ":" + rest);
    assert s == t + (":" + rest);
    assert s[..|t|] == t;
    assert s[|t|..] == ":" + rest;
    assert (":" + rest)[1..] == rest;
  }

  lemma TokensLast(t: string)
    requires t != [] && ':' !in t
    ensures Tokens(t) == [t]
  {
    TokenLengthOf(t, []);
    assert t + [] == t;
    assert t[..|t|] == t;
  }

  lemma Hex2Token(b: Byte)
    ensures Informer.Hex2(b) != [] && ':' !in Informer.Hex2(b)
  {
    HexDigit(b / 16);
    HexDigit(b % 16);
  }

  /** The `MACSTR` groups split on ':' into the `%02x` texts. */
  lemma {:induction false} TokensMacGroups(m: Mac, i: nat)
    requires i < 6
    ensures Tokens(Informer.MacGroups(m, i)) == seq(6 - i, j requires 0 <= j < 6 - i => Informer.Hex2(m[i + j]))
    decreases 6 - i
  {
    Hex2Token(m[i]);
    if i == 5 {
      TokensLast(Informer.Hex2(m[5]));
    } else {
      TokensMacGroups(m, i + 1);
      TokensCons(Informer.Hex2(m[i]), Informer.MacGroups(m, i + 1));
    }
  }

  /** The subscribed MAC survives printing with `MACSTR` and decoding. */
  lemma MacRoundTrip(base: Mac, m: Mac)
    ensures MacFrom(base, Tokens(Informer.MacText(m))) == m
  {
    TokensMacGroups(m, 0);
    forall j | 0 <= j < 6
      ensures HexByte(Informer.Hex2(m[j])) == m[j]
    {
      HexByteHex2(m[j]);
    }
  }

  // ---------------------------------------------------------------------
  // What a decoded record holds

  /** The one-character text "1" reads as 1. */
  lemma AtoiOne(v: string)
    requires IsText(v, '1')
    ensures Atoi(v) == 1
  {
    StrtolDigits(v, 10);
    assert v[..0] == [];
  }

  /** The record a receiver request yields has the receiver role. */
  lemma ReceiverRecord(h: Headers)
    requires Complete(h) && IsReceiver(h)
    ensures Decode(h).value.opMode == CSI_RECV
  {
    var b := BaseFields(h);
    AtoiOne(Header(h, OpModes).value);
    var r := ReceiverFields(h, b);
    PortsKeep(h, r, Ports(h, r));
  }

  /** A request that skipped the receiver headers keeps every receiver
      setting at its default: nothing is read from a header not fetched. */
  lemma SenderKeepsDefaults(h: Headers)
    requires Complete(h) && !IsReceiver(h)
    ensures var c := Decode(h).value;
      c == DEFAULT_CONFIG.(opMode := c.opMode, macSubs := c.macSubs, bandwidth := c.bandwidth,
                           channel := c.channel, packetFrequency := c.packetFrequency)
  {
  }

  /** Only the serial parameters and the SD pins depend on the informer mode. */
  lemma PortsKeep(h: Headers, cfg: Config, p: Config)
    requires Has(h, InformerMode) && (UsesSerial(h) ==> HasSerial(h)) && (UsesSd(h) ==> HasSd(h))
    requires p == Ports(h, cfg)
    ensures p == cfg.(scConfig := p.scConfig, sdConfig := p.sdConfig)
  {
    var c1 := if UsesSerial(h) then SerialFields(h, cfg) else cfg;
    assert c1 == cfg.(scConfig := c1.scConfig);
    assert p == c1.(sdConfig := p.sdConfig);
  }

  /** A receiver flag is on exactly when its header reads "true". */
  lemma FlagsFromText(h: Headers)
    requires Complete(h) && IsReceiver(h)
    ensures Decode(h).value.informMacSubscribed <==> Header(h, IsMacAddress).value == "true"
    ensures Decode(h).value.informCsiData <==> Header(h, IsCSIBuff).value == "true"
    ensures Decode(h).value.informRssi <==> Header(h, IsRSSI).value == "true"
    ensures Decode(h).value.informChannelBw <==> Header(h, IsChannelBandwidth).value == "true"
    ensures Decode(h).value.informNoiseFloor <==> Header(h, IsNoiseFloor).value == "true"
    ensures Decode(h).value.informTimestamp <==> Header(h, IsTimestamp).value == "true"
    ensures Decode(h).value.informAntNum <==> Header(h, IsAntennaNumber).value == "true"
    ensures Decode(h).value.informCsiLen <==> Header(h, IsCSIDataLength).value == "true"
  {
    var r := ReceiverFields(h, BaseFields(h));
    PortsKeep(h, r, Ports(h, r));
  }

  /** Serial parameters change only for a receiver in mode "3" or "4", SD pins
      only for a receiver in mode "2" or "4". */
  lemma ModeGatedSettings(h: Headers)
    requires Complete(h)
    ensures var c := Decode(h).value;
      (c.scConfig != DEFAULT_CONFIG.scConfig ==> IsReceiver(h) && UsesSerial(h)) &&
      (c.sdConfig != DEFAULT_CONFIG.sdConfig ==> IsReceiver(h) && UsesSd(h))
  {
  }

  // ---------------------------------------------------------------------
  // The configuration page's request

  /** The text jQuery sends for a checkbox's `checked` property. */
  function BoolText(b: bool): string
  {
    if b then "true" else "false"
  }

  /** The eight checkbox headers. */
  predicate IsFlagName(n: HeaderName)
  {
    n.IsMacAddress? || n.IsCSIBuff? || n.IsRSSI? || n.IsChannelBandwidth? ||
    n.IsNoiseFloor? || n.IsTimestamp? || n.IsAntennaNumber? || n.IsCSIDataLength?
  }

  /** The record flag a checkbox header stands for. */
  function FlagField(c: Config, n: HeaderName): bool
    requires IsFlagName(n)
  {
    match n
    case IsMacAddress => c.informMacSubscribed
    case IsCSIBuff => c.informCsiData
    case IsRSSI => c.informRssi
    case IsChannelBandwidth => c.informChannelBw
    case IsNoiseFloor => c.informNoiseFloor
    case IsTimestamp => c.informTimestamp
    case IsAntennaNumber => c.informAntNum
    case IsCSIDataLength => c.informCsiLen
  }

  /** The record number a numeric header stands for. */
  function NumberField(c: Config, n: HeaderName): Int32
    requires !IsFlagName(n) && n != MacAddress
  {
    match n
    case OpModes => c.opMode
    case Communication => c.channel
    case Frequency => c.packetFrequency
    case Bandwidth => c.bandwidth
    case DataRepresentation => c.dataMode
    case InformerMode => c.informerMode
    case MISO => c.sdConfig.misoPin
    case MOSI => c.sdConfig.mosiPin
    case CLK => c.sdConfig.clkPin
    case CS => c.sdConfig.csPin
    case Baudrate => c.scConfig.baudrate
    case TX => c.scConfig.txPin
    case RX => c.scConfig.rxPin
  }

  /** What the configuration page sends under each header for a record:
      the MAC as `aa:bb:cc:dd:ee:ff`, flags as "true"/"false", numbers as
      decimal text. */
  function PageValue(c: Config, n: HeaderName): string
  {
    if n == MacAddress then Informer.MacText(c.macSubs)
    else if IsFlagName(n) then BoolText(FlagField(c, n))
    else Informer.Decimal(NumberField(c, n))
  }

  const HEADER_NAMES: set<HeaderName> := {
    OpModes, MacAddress, Communication, Frequency, Bandwidth, DataRepresentation, IsMacAddress,
    IsCSIBuff, IsRSSI, IsChannelBandwidth, IsNoiseFloor, IsTimestamp, IsAntennaNumber,
    IsCSIDataLength, InformerMode, MISO, MOSI, CLK, CS, Baudrate, TX, RX }

  /** The page's request: every header, whatever the role. */
  function PageHeaders(c: Config): Headers
  {
    map n | n in HEADER_NAMES :: PageValue(c, n)
  }

  /** The records a request can carry: a non-receiver keeps the receiver
      defaults, and a receiver keeps the serial (SD) defaults unless its
      informer mode uses the serial port (the SD card). */
  predicate Representable(c: Config)
  {
    if c.opMode == CSI_RECV then
      (c.informerMode != 3 && c.informerMode != 4 ==> c.scConfig == DEFAULT_CONFIG.scConfig) &&
      (c.informerMode != 2 && c.informerMode != 4 ==> c.sdConfig == DEFAULT_CONFIG.sdConfig)
    else
      c == DEFAULT_CONFIG.(opMode := c.opMode, macSubs := c.macSubs, bandwidth := c.bandwidth,
                           channel := c.channel, packetFrequency := c.packetFrequency)
  }

  lemma PageValueNonEmpty(c: Config, n: HeaderName)
    ensures PageValue(c, n) != ""
  {
    match n
    case MacAddress =>
    case IsMacAddress | IsCSIBuff | IsRSSI | IsChannelBandwidth | IsNoiseFloor | IsTimestamp | IsAntennaNumber | IsCSIDataLength =>
    case _ =>
  }

  /** The request holds the page's texts for `c` under the headers every role sends. */
  predicate CarriesBase(h: Headers, c: Config)
  {
    Header(h, OpModes) == Some(Informer.Decimal(c.opMode)) &&
    Header(h, MacAddress) == Some(Informer.MacText(c.macSubs)) &&
    Header(h, Communication) == Some(Informer.Decimal(c.channel)) &&
    Header(h, Frequency) == Some(Informer.Decimal(c.packetFrequency)) &&
    Header(h, Bandwidth) == Some(Informer.Decimal(c.bandwidth))
  }

  /** ... under the headers only a receiver reads. */
  predicate CarriesReceiver(h: Headers, c: Config)
  {
    Header(h, DataRepresentation) == Some(Informer.Decimal(c.dataMode)) &&
    Header(h, IsMacAddress) == Some(BoolText(c.informMacSubscribed)) &&
    Header(h, IsCSIBuff) == Some(BoolText(c.informCsiData)) &&
    Header(h, IsRSSI) == Some(BoolText(c.informRssi)) &&
    Header(h, IsChannelBandwidth) == Some(BoolText(c.informChannelBw)) &&
    Header(h, IsNoiseFloor) == Some(BoolText(c.informNoiseFloor)) &&
    Header(h, IsTimestamp) == Some(BoolText(c.informTimestamp)) &&
    Header(h, IsAntennaNumber) == Some(BoolText(c.informAntNum)) &&
    Header(h, IsCSIDataLength) == Some(BoolText(c.informCsiLen)) &&
    Header(h, InformerMode) == Some(Informer.Decimal(c.informerMode))
  }

  /** ... under the serial-port headers. */
  predicate CarriesSerial(h: Headers, c: Config)
  {
    Header(h, Baudrate) == Some(Informer.Decimal(c.scConfig.baudrate)) &&
    Header(h, RX) == Some(Informer.Decimal(c.scConfig.rxPin)) &&
    Header(h, TX) == Some(Informer.Decimal(c.scConfig.txPin))
  }

  /** ... under the SD-card pin headers. */
  predicate CarriesSd(h: Headers, c: Config)
  {
    Header(h, CLK) == Some(Informer.Decimal(c.sdConfig.clkPin)) &&
    Header(h, MOSI) == Some(Informer.Decimal(c.sdConfig.mosiPin)) &&
    Header(h, MISO) == Some(Informer.Decimal(c.sdConfig.misoPin)) &&
    Header(h, CS) == Some(Informer.Decimal(c.sdConfig.csPin))
  }

  /** Every header of the page's request is present with the page's text. */
  lemma PageHeader(c: Config, n: HeaderName)
    ensures Header(PageHeaders(c), n) == Some(PageValue(c, n))
  {
    PageValueNonEmpty(c, n);
    assert n in HEADER_NAMES;
  }

  lemma PageCarriesBase(c: Config)
    ensures CarriesBase(PageHeaders(c), c)
  {
    PageHeader(c, OpModes);
    PageHeader(c, MacAddress);
    PageHeader(c, Communication);
    PageHeader(c, Frequency);
    PageHeader(c, Bandwidth);
  }

  lemma PageCarriesReceiver(c: Config)
    ensures CarriesReceiver(PageHeaders(c), c)
  {
    PageHeader(c, DataRepresentation);
    PageHeader(c, InformerMode);
    PageCarriesFlags(c);
  }

  lemma PageCarriesFlags(c: Config)
    ensures Header(PageHeaders(c), IsMacAddress) == Some(BoolText(c.informMacSubscribed))
    ensures Header(PageHeaders(c), IsCSIBuff) == Some(BoolText(c.informCsiData))
    ensures Header(PageHeaders(c), IsRSSI) == Some(BoolText(c.informRssi))
    ensures Header(PageHeaders(c), IsChannelBandwidth) == Some(BoolText(c.informChannelBw))
    ensures Header(PageHeaders(c), IsNoiseFloor) == Some(BoolText(c.informNoiseFloor))
    ensures Header(PageHeaders(c), IsTimestamp) == Some(BoolText(c.informTimestamp))
    ensures Header(PageHeaders(c), IsAntennaNumber) == Some(BoolText(c.informAntNum))
    ensures Header(PageHeaders(c), IsCSIDataLength) == Some(BoolText(c.informCsiLen))
  {
    PageHeader(c, IsMacAddress);
    PageHeader(c, IsCSIBuff);
    PageHeader(c, IsRSSI);
    PageHeader(c, IsChannelBandwidth);
    PageHeader(c, IsNoiseFloor);
    PageHeader(c, IsTimestamp);
    PageHeader(c, IsAntennaNumber);
    PageHeader(c, IsCSIDataLength);
  }

  lemma PageCarriesSerial(c: Config)
    ensures CarriesSerial(PageHeaders(c), c)
  {
    PageHeader(c, Baudrate);
    PageHeader(c, RX);
    PageHeader(c, TX);
  }

  lemma PageCarriesSd(c: Config)
    ensures CarriesSd(PageHeaders(c), c)
  {
    PageHeader(c, CLK);
    PageHeader(c, MOSI);
    PageHeader(c, MISO);
    PageHeader(c, CS);
  }

  /** `%d` prints the digit d as that one character. */
  lemma IsTextDecimal(n: Int32, d: Int32, ch: char)
    requires 0 <= d < 10 && ch == Informer.DIGITS[d]
    ensures IsText(Informer.Decimal(n), ch) <==> n == d
  {
    assert Informer.Decimal(d) == [ch];
    if IsText(Informer.Decimal(n), ch) {
      assert Informer.Decimal(n) == Informer.Decimal(d);
      DecimalInjective(n, d);
    }
  }

  /** The role and informer-mode tests read the page's texts as the record's values. */
  lemma ModesOf(h: Headers, c: Config)
    requires Header(h, OpModes) == Some(Informer.Decimal(c.opMode))
    requires Header(h, InformerMode) == Some(Informer.Decimal(c.informerMode))
    ensures Has(h, OpModes) && Has(h, InformerMode)
    ensures IsReceiver(h) <==> c.opMode == CSI_RECV
    ensures UsesSd(h) <==> c.informerMode == 2 || c.informerMode == 4
    ensures UsesSerial(h) <==> c.informerMode == 3 || c.informerMode == 4
  {
    IsTextDecimal(c.opMode, 1, '1');
    IsTextDecimal(c.informerMode, 2, '2');
    IsTextDecimal(c.informerMode, 3, '3');
    IsTextDecimal(c.informerMode, 4, '4');
  }

  /** A numeric header holding a number's decimal text reads back as that number. */
  lemma NumberAt(h: Headers, n: HeaderName, v: Int32)
    requires Header(h, n) == Some(Informer.Decimal(v))
    ensures Has(h, n) && Atoi(Header(h, n).value) == v
  {
    AtoiDecimal(v);
  }

  /** A pin or mode header holding a byte's decimal text reads back as that byte. */
  lemma ByteAt(h: Headers, n: HeaderName, v: Byte)
    requires Header(h, n) == Some(Informer.Decimal(v))
    ensures Has(h, n) && Low8(Atoi(Header(h, n).value)) == v
  {
    AtoiDecimal(v);
    assert Low8(v) == v;
  }

  /** A checkbox header holding a flag's text reads back as that flag. */
  lemma FlagAt(h: Headers, n: HeaderName, v: bool)
    requires Header(h, n) == Some(BoolText(v))
    ensures Has(h, n) && Flag(Header(h, n).value) == v
  {
  }

  lemma MacOf(h: Headers, c: Config)
    requires Header(h, MacAddress) == Some(Informer.MacText(c.macSubs))
    ensures Has(h, MacAddress) && MacFrom(DEFAULT_MAC, Tokens(Header(h, MacAddress).value)) == c.macSubs
  {
    MacRoundTrip(DEFAULT_MAC, c.macSubs);
  }

  lemma BaseOf(h: Headers, c: Config)
    requires CarriesBase(h, c)
    ensures HasBase(h)
    ensures BaseFields(h) ==
      DEFAULT_CONFIG.(opMode := c.opMode, macSubs := c.macSubs, bandwidth := c.bandwidth,
                      channel := c.channel, packetFrequency := c.packetFrequency)
  {
    NumberAt(h, OpModes, c.opMode);
    NumberAt(h, Bandwidth, c.bandwidth);
    NumberAt(h, Communication, c.channel);
    NumberAt(h, Frequency, c.packetFrequency);
    MacOf(h, c);
  }

  /** The first four checkbox headers read back as the flags. */
  lemma FlagsOfFirst(h: Headers, c: Config)
    requires CarriesReceiver(h, c)
    ensures Has(h, IsMacAddress) && Flag(Header(h, IsMacAddress).value) == c.informMacSubscribed
    ensures Has(h, IsCSIBuff) && Flag(Header(h, IsCSIBuff).value) == c.informCsiData
    ensures Has(h, IsRSSI) && Flag(Header(h, IsRSSI).value) == c.informRssi
    ensures Has(h, IsChannelBandwidth) && Flag(Header(h, IsChannelBandwidth).value) == c.informChannelBw
  {
    FlagAt(h, IsMacAddress, c.informMacSubscribed);
    FlagAt(h, IsCSIBuff, c.informCsiData);
    FlagAt(h, IsRSSI, c.informRssi);
    FlagAt(h, IsChannelBandwidth, c.informChannelBw);
  }

  /** The last four checkbox headers read back as the flags. */
  lemma FlagsOfLast(h: Headers, c: Config)
    requires CarriesReceiver(h, c)
    ensures Has(h, IsNoiseFloor) && Flag(Header(h, IsNoiseFloor).value) == c.informNoiseFloor
    ensures Has(h, IsTimestamp) && Flag(Header(h, IsTimestamp).value) == c.informTimestamp
    ensures Has(h, IsAntennaNumber) && Flag(Header(h, IsAntennaNumber).value) == c.informAntNum
    ensures Has(h, IsCSIDataLength) && Flag(Header(h, IsCSIDataLength).value) == c.informCsiLen
  {
    FlagAt(h, IsNoiseFloor, c.informNoiseFloor);
    FlagAt(h, IsTimestamp, c.informTimestamp);
    FlagAt(h, IsAntennaNumber, c.informAntNum);
    FlagAt(h, IsCSIDataLength, c.informCsiLen);
  }

  lemma ReceiverOf(h: Headers, c: Config, cfg: Config)
    requires CarriesReceiver(h, c)
    ensures HasReceiver(h)
    ensures ReceiverFields(h, cfg) ==
      cfg.(dataMode := c.dataMode,
           informMacSubscribed := c.informMacSubscribed, informCsiData := c.informCsiData,
           informRssi := c.informRssi, informChannelBw := c.informChannelBw,
           informNoiseFloor := c.informNoiseFloor, informTimestamp := c.informTimestamp,
           informAntNum := c.informAntNum, informCsiLen := c.informCsiLen,
           informerMode := c.informerMode)
  {
    NumberAt(h, DataRepresentation, c.dataMode);
    ByteAt(h, InformerMode, c.informerMode);
    FlagsOfFirst(h, c);
    FlagsOfLast(h, c);
  }

  lemma SerialOf(h: Headers, c: Config, cfg: Config)
    requires CarriesSerial(h, c)
    ensures HasSerial(h)
    ensures SerialFields(h, cfg) == cfg.(scConfig := c.scConfig)
  {
    NumberAt(h, Baudrate, c.scConfig.baudrate);
    ByteAt(h, RX, c.scConfig.rxPin);
    ByteAt(h, TX, c.scConfig.txPin);
  }

  lemma SdOf(h: Headers, c: Config, cfg: Config)
    requires CarriesSd(h, c)
    ensures HasSd(h)
    ensures SdFields(h, cfg) == cfg.(sdConfig := c.sdConfig)
  {
    ByteAt(h, CLK, c.sdConfig.clkPin);
    ByteAt(h, MOSI, c.sdConfig.mosiPin);
    ByteAt(h, MISO, c.sdConfig.misoPin);
    ByteAt(h, CS, c.sdConfig.csPin);
  }

  /** The serial step of `Ports` leaves the page's serial settings in the record. */
  lemma SerialStep(h: Headers, c: Config, r: Config)
    requires CarriesSerial(h, c) && Has(h, InformerMode)
    requires UsesSerial(h) || r.scConfig == c.scConfig
    ensures HasSerial(h)
    ensures (if UsesSerial(h) then SerialFields(h, r) else r) == r.(scConfig := c.scConfig)
  {
    SerialOf(h, c, r);
  }

  /** The SD step of `Ports` leaves the page's SD pins in the record. */
  lemma SdStep(h: Headers, c: Config, r: Config)
    requires CarriesSd(h, c) && Has(h, InformerMode)
    requires UsesSd(h) || r.sdConfig == c.sdConfig
    ensures HasSd(h)
    ensures (if UsesSd(h) then SdFields(h, r) else r) == r.(sdConfig := c.sdConfig)
  {
    SdOf(h, c, r);
  }

  /** A receiver record comes back through the informer-mode-dependent part,
      provided every setting the mode does not read already has its value. */
  lemma PortsOf(h: Headers, c: Config, r: Config)
    requires CarriesSerial(h, c) && CarriesSd(h, c) && Has(h, InformerMode)
    requires UsesSerial(h) || r.scConfig == c.scConfig
    requires UsesSd(h) || r.sdConfig == c.sdConfig
    ensures HasSerial(h) && HasSd(h)
    ensures Ports(h, r) == r.(scConfig := c.scConfig, sdConfig := c.sdConfig)
  {
    SerialStep(h, c, r);
    SdStep(h, c, r.(scConfig := c.scConfig));
  }

  /** The page's request for a receiver record is complete and builds that record. */
  lemma ReceiverBuild(h: Headers, c: Config)
    requires CarriesBase(h, c) && CarriesReceiver(h, c) && CarriesSerial(h, c) && CarriesSd(h, c)
    requires c.opMode == CSI_RECV && Representable(c)
    ensures Complete(h) && IsReceiver(h) && Build(h) == c
  {
    ModesOf(h, c);
    BaseOf(h, c);
    ReceiverOf(h, c, BaseFields(h));
    var r := ReceiverFields(h, BaseFields(h));
    assert r == c.(scConfig := DEFAULT_CONFIG.scConfig, sdConfig := DEFAULT_CONFIG.sdConfig);
    PortsOf(h, c, r);
    assert r.(scConfig := c.scConfig, sdConfig := c.sdConfig) == c;
  }

  /** The page's request for any other record is complete and builds that record. */
  lemma SenderBuild(h: Headers, c: Config)
    requires CarriesBase(h, c) && CarriesReceiver(h, c)
    requires c.opMode != CSI_RECV && Representable(c)
    ensures Complete(h) && !IsReceiver(h) && Build(h) == c
  {
    ModesOf(h, c);
    BaseOf(h, c);
  }

  /** Every record the page can describe comes back from the handler unchanged. */
  lemma PageRoundTrip(c: Config)
    requires Representable(c)
    ensures Decode(PageHeaders(c)) == Some(c)
  {
    var h := PageHeaders(c);
    PageCarriesBase(c);
    PageCarriesReceiver(c);
    if c.opMode == CSI_RECV {
      PageCarriesSerial(c);
      PageCarriesSd(c);
      ReceiverBuild(h, c);
    } else {
      SenderBuild(h, c);
    }
  }

  // ---------------------------------------------------------------------
  // Findings

  /** The success path's receiver test as the handler writes it:
      `atoi(str_op_mode) == 1`, unlike the `strcmp` test that fetched the headers. */
  predicate ReceiverBranchAsWritten(h: Headers)
    requires Has(h, OpModes)
  {
    Atoi(Header(h, OpModes).value) == 1
  }

  /** `atoi` reads "01" as 1. */
  lemma AtoiLeadingZero()
    ensures Atoi("01") == 1
  {
    var t := "01";
    assert IsDigit(t[0], 10) && IsDigit(t[1], 10);
    StrtolDigits(t, 10);
    assert t[..1] == "0" && "0"[..0] == [];
  }

  /** For the role text "01" no receiver header is fetched and the request
      succeeds without them, yet the success path as written takes the
      receiver branch and reads them (null pointers in the handler). */
  lemma ReceiverBranchReadsUnfetched(h: Headers)
    requires HasBase(h) && Header(h, OpModes).value == "01"
    ensures Complete(h) && !IsReceiver(h)
    ensures ReceiverBranchAsWritten(h)
  {
    AtoiLeadingZero();
  }

  /** The slots of `mac_subs` the tokenising loop writes as written: one per token, without bound. */
  function MacSlotsAsWritten(text: string): (slots: seq<nat>)
    ensures |slots| == |Tokens(text)|
    ensures forall i :: 0 <= i < |slots| ==> slots[i] == i
  {
    seq(|Tokens(text)|, i => i)
  }

  /** The `MACSTR` groups followed by one more ':'-separated token. */
  lemma {:induction false} TokensMacGroupsThen(m: Mac, i: nat, extra: string)
    requires i < 6 && extra != [] && ':' !in extra
    ensures Tokens(Informer.MacGroups(m, i) + ":" + extra) ==
      seq(6 - i, j requires 0 <= j < 6 - i => Informer.Hex2(m[i + j])) + [extra]
    decreases 6 - i
  {
    Hex2Token(m[i]);
    if i == 5 {
      TokensCons(Informer.Hex2(m[5]), extra);
      TokensLast(extra);
    } else {
      var head, tail := Informer.Hex2(m[i]) + ":", Informer.MacGroups(m, i + 1);
      var rest := tail + ":" + extra;
      Informer.Assoc(head, tail, ":");
      Informer.Assoc(head, tail + ":", extra);
      TokensMacGroupsThen(m, i + 1, extra);
      TokensCons(Informer.Hex2(m[i]), rest);
    }
  }

  /** A seventh group makes the loop write slot 6 of the six-byte `mac_subs`. */
  lemma MacLoopOverruns(m: Mac, extra: string)
    requires extra != [] && ':' !in extra
    ensures var slots := MacSlotsAsWritten(Informer.MacText(m) + ":" + extra); |slots| == 7 && slots[6] == 6
  {
    TokensMacGroupsThen(m, 0, extra);
  }

  /** With the loop bounded to the array, tokens past the sixth change nothing. */
  lemma ExtraTokensIgnored(base: Mac, tokens: seq<string>)
    requires |tokens| >= 6
    ensures MacFrom(base, tokens) == MacFrom(base, tokens[..6])
  {
  }
}
