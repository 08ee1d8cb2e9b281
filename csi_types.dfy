/** Types shared by the firmware's tasks: the user CSI configuration record,
    its mode constants, and the CSI sample the radio delivers per frame. */
module CsiTypes {

  datatype Option<T> = None | Some(value: T)

  /** C integer widths used by the records below. */
  type Byte = x: int | 0 <= x < 0x100
  type Int8 = x: int | -0x80 <= x < 0x80
  type Uint16 = x: int | 0 <= x < 0x1_0000
  type Uint32 = x: int | 0 <= x < 0x1_0000_0000
  type Int32 = x: int | -0x8000_0000 <= x < 0x8000_0000

  /** A 6-byte hardware address. */
  type Mac = s: seq<Byte> | |s| == 6 witness [0, 0, 0, 0, 0, 0]

  /** Informer sink selectors. */
  const INFORMER_CONSOLE_MODE := 1
  const INFORMER_SEND_SD := 2
  const INFORMER_SEND_SERIAL_COMM := 3
  const INFORMER_SEND_SD_SC := 4

  /** Data representations. */
  const DATA_ASCII := 1
  const DATA_BINARY := 2

  /** CSI operation modes (roles). */
  const CSI_RECV := 1
  const CSI_SNDR := 2

  /** The radio driver's channel bandwidth codes (wifi_bandwidth_t). */
  const WIFI_BW_HT20 := 1
  const WIFI_BW_HT40 := 2

  datatype SerialConfig = SerialConfig(baudrate: Int32, rxPin: Byte, txPin: Byte)

  datatype SdConfig = SdConfig(clkPin: Byte, mosiPin: Byte, misoPin: Byte, csPin: Byte)

  /** user_csi_configuration_t. The two enum-typed fields (dataMode, bandwidth)
      keep the signed value they were decoded from. */
  datatype Config = Config(
    dataMode: Int32,
    opMode: Int32,
    macSubs: Mac,
    bandwidth: Int32,
    channel: Int32,
    packetFrequency: Int32,
    informMacSubscribed: bool,
    informCsiData: bool,
    informRssi: bool,
    informChannelBw: bool,
    informNoiseFloor: bool,
    informTimestamp: bool,
    informAntNum: bool,
    informCsiLen: bool,
    informerMode: Byte,
    scConfig: SerialConfig,
    sdConfig: SdConfig)

  /** The receive-control bit-fields of a frame that the firmware reads. */
  type Bit = x: int | 0 <= x < 2
  type AntIndex = x: int | 0 <= x < 4

  datatype RxCtrl = RxCtrl(rssi: Int8, cwb: Bit, noiseFloor: Int8, timestamp: Uint32, ant: AntIndex)

  /** wifi_csi_info_t: the sample delivered per received frame. A missing
      payload pointer is buf == None. */
  datatype CsiInfo = CsiInfo(rxCtrl: RxCtrl, mac: Mac, len: Uint16, buf: Option<seq<Int8>>)

  /** The payload the sample's length field describes is really there. */
  predicate HasPayload(info: CsiInfo)
  {
    info.buf.Some? && info.len <= |info.buf.value|
  }
}
