/** Register-level framing for the MCP3561 delta-sigma ADC as the driver
    uses it: every SPI transaction starts with one command byte whose bits
    [7:6] are the device address, [5:2] a register address or fast-command
    opcode and [1:0] the command type. Bus replies are inputs here. */
module Mcp3561 {
  import opened PyCore
  import opened Bits

  type Bits2 = x: int | 0 <= x < 4
  type Bits3 = x: int | 0 <= x < 8
  type Bits4 = x: int | 0 <= x < 16

  /** Device address, hard-wired in the chip. */
  const DeviceAddr: Bits2 := 1

  // Command types
  const CmdFast: Bits2 := 0
  const CmdStaticRead: Bits2 := 1
  const CmdIncWrite: Bits2 := 2
  const CmdIncRead: Bits2 := 3

  // Fast-command opcodes
  const FastConversionStart: Bits4 := 10
  const FastStandby: Bits4 := 11
  const FastShutdown: Bits4 := 12
  const FastFullShutdown: Bits4 := 13
  const FastFullReset: Bits4 := 14

  // Register map
  const RegAdcData: Bits4 := 0
  const RegConfig0: Bits4 := 1
  const RegConfig1: Bits4 := 2
  const RegConfig2: Bits4 := 3
  const RegConfig3: Bits4 := 4
  const RegIrq: Bits4 := 5
  const RegMux: Bits4 := 6
  const RegScan: Bits4 := 7
  const RegTimer: Bits4 := 8
  const RegOffsetCal: Bits4 := 9
  const RegGainCal: Bits4 := 10
  const RegLock: Bits4 := 13
  const RegCrcCfg: Bits4 := 15

  /** `0 | addr << 6 | reg << 2 | type`, as each message is assembled. */
  function CommandByte(addr: Bits2, field: Bits4, typ: Bits2): (b: Byte)
    ensures b == addr * 64 + field * 4 + typ
  {
    PackFields(addr, field, typ);
    Or(Or(Or(0, Shl(addr, 6)), Shl(field, 2)), typ)
  }

  /** The three fields occupy disjoint bits, so or-ing them adds them. */
  lemma PackFields(addr: Bits2, field: Bits4, typ: Bits2)
    ensures Or(Or(Or(0, Shl(addr, 6)), Shl(field, 2)), typ) == addr * 64 + field * 4 + typ
  {
    Pow2Values();
    var hi := Shl(addr, 6);
    assert Or(0, hi) == hi;
    assert hi == Shl(addr * 16, 2);
    OrShifted(addr * 16, field, 2);
    assert addr * 16 == Shl(addr, 4);
    OrDisjoint(addr, field, 4);
    assert Or(hi, Shl(field, 2)) == Shl(addr * 16 + field, 2);
    OrDisjoint(addr * 16 + field, typ, 2);
  }

  /** Splits a command byte back into (address, register/opcode, type). */
  function DecodeCommand(b: Byte): (Bits2, Bits4, Bits2)
  {
    var q := b / 4;
    (q / 16, q % 16, b % 4)
  }

  /** The three fields survive the packing. */
  lemma CommandByteDecodes(addr: Bits2, field: Bits4, typ: Bits2)
    ensures DecodeCommand(CommandByte(addr, field, typ)) == (addr, field, typ)
  {
    var n := CommandByte(addr, field, typ);
    var q := addr * 16 + field;
    assert n == 4 * q + typ;
    assert n / 4 == q && n % 4 == typ;
    assert q / 16 == addr && q % 16 == field;
  }

  /** Every byte is the packing of its own fields. */
  lemma CommandByteCovers(b: Byte)
    ensures var (a, f, t) := DecodeCommand(b); CommandByte(a, f, t) == b
  {
    var q := b / 4;
    assert b == 4 * q + b % 4;
    assert q == 16 * (q / 16) + q % 16;
  }

  // ---------------------------------------------------------------------
  // Fixed messages

  /** The status poll: one static-read command byte for the IRQ register. */
  function WaitForDataMessage(): (m: seq<Byte>)
    ensures |m| == 1 && m[0] == 85
    ensures DecodeCommand(m[0]) == (DeviceAddr, RegIrq, CmdStaticRead)
  {
    CommandByteDecodes(DeviceAddr, RegIrq, CmdStaticRead);
    [CommandByte(DeviceAddr, RegIrq, CmdStaticRead)]
  }

  /** The data read: a static read of ADCDATA followed by one zero byte per
      payload byte to clock the sample out (3 in 24-bit mode, 4 otherwise). */
  function ReadDataMessage(outputSize: Bits2): (m: seq<Byte>)
    ensures outputSize == Output24Bit ==> m == [65, 0, 0, 0]
    ensures outputSize != Output24Bit ==> m == [65, 0, 0, 0, 0]
    ensures DecodeCommand(m[0]) == (DeviceAddr, RegAdcData, CmdStaticRead)
  {
    CommandByteDecodes(DeviceAddr, RegAdcData, CmdStaticRead);
    var cmd := CommandByte(DeviceAddr, RegAdcData, CmdStaticRead);
    if outputSize == Output24Bit then [cmd, 0, 0, 0] else [cmd, 0, 0, 0, 0]
  }

  /** start_conversion: the conversion start/restart fast command, no payload. */
  function StartConversionMessage(): (m: seq<Byte>)
    ensures |m| == 1 && m[0] == 104
    ensures DecodeCommand(m[0]) == (DeviceAddr, FastConversionStart, CmdFast)
  {
    CommandByteDecodes(DeviceAddr, FastConversionStart, CmdFast);
    [CommandByte(DeviceAddr, FastConversionStart, CmdFast)]
  }

  // ---------------------------------------------------------------------
  // Configuration payload

  // CONFIG_CLK_SEL values
  const ClkExt := 0
  const ClkInt := 1
  const ClkIntWithOutput := 2

  // DATA_FORMAT values
  const Output24Bit: Bits2 := 0
  const Output32Bit: Bits2 := 3

  /** The module-level settings that set_config_bits reads. */
  datatype AdcSettings = AdcSettings(
    clkSel: int, osr: int, convMode: Bits2, outputSize: Bits2,
    scanMode: bool, scanDelay: Bits3, muxSelection1: int)

  /** The settings as the driver ships them: internal clock, OSR 256,
      one-shot-then-standby conversions, 24-bit output, MUX mode, and
      channel 1 against REFIN- as the initial multiplexer selection. */
  const SourceSettings := AdcSettings(ClkInt, 256, 2, Output24Bit, false, 7, 3)

  /** The 9-entry multiplexer table, indexed by the MUX mode number. */
  const MuxTable: seq<Byte> := [0x01, 0x23, 0x08, 0x1C, 0x2C, 0x38, 0xE8, 0xD8, 0xBC]

  /** Distinct selections configure distinct input pairs. */
  lemma MuxTableInjective(i: nat, j: nat)
    requires i < j < |MuxTable|
    ensures MuxTable[i] != MuxTable[j]
  {
  }

  /** The supported oversampling ratios, in CONFIG1 code order. */
  const OsrRatios: seq<int> := [32, 64, 128, 256, 512, 1024, 2048, 4096, 8192,
                                16384, 20480, 24576, 40960, 49152, 81920, 98304]

  /** CONFIG1: the OSR field in bits [5:2]; an unsupported ratio falls back
      to the OSR 256 code. */
  function OsrCode(osr: int): Byte
  {
    if osr == 32 then 0x00
    else if osr == 64 then 0x04
    else if osr == 128 then 0x08
    else if osr == 256 then 0x0C
    else if osr == 512 then 0x10
    else if osr == 1024 then 0x14
    else if osr == 2048 then 0x18
    else if osr == 4096 then 0x1C
    else if osr == 8192 then 0x20
    else if osr == 16384 then 0x24
    else if osr == 20480 then 0x28
    else if osr == 24576 then 0x2C
    else if osr == 40960 then 0x30
    else if osr == 49152 then 0x34
    else if osr == 81920 then 0x38
    else if osr == 98304 then 0x3C
    else 0x0C
  }

  /** The ratio at list position p is encoded as p << 2. */
  lemma OsrCodeAtPosition(p: nat)
    requires p < |OsrRatios|
    ensures OsrCode(OsrRatios[p]) == 4 * p
  {
  }

  /** An unlisted ratio is encoded as OSR 256. */
  lemma OsrCodeFallback(osr: int)
    requires osr !in OsrRatios
    ensures OsrCode(osr) == OsrCode(256)
  {
  }

  /** The high nibble of CONFIG0 for each clock selection. */
  function ClockNibble(clkSel: int): int
  {
    if clkSel == ClkExt then 0xC else if clkSel == ClkIntWithOutput then 0xF else 0xE
  }

  /** CONFIG0: clock selection in bits [7:4], conversion mode in bits [1:0]. */
  function Config0Byte(clkSel: int, convMode: Bits2): (b: Byte)
    ensures b == 16 * ClockNibble(clkSel) + convMode
  {
    Pow2Values();
    OrDisjoint(ClockNibble(clkSel), convMode, 4);
    if clkSel == ClkExt then Or(0xC0, convMode)
    else if clkSel == ClkIntWithOutput then Or(0xF0, convMode)
    else Or(0xE0, convMode)
  }

  /** CONFIG3: one-shot conversion bits set, data format in bits [5:4]. */
  function Config3Byte(outputSize: Bits2): (b: Byte)
    ensures b == 192 + 16 * outputSize
  {
    Pow2Values();
    OrShifted(12, outputSize, 4);
    OrDisjoint(3, outputSize, 2);
    Or(0xC0, Shl(outputSize, 4))
  }

  /** The top byte of SCAN: the inter-channel delay in bits [23:21]. */
  function ScanDelayByte(delay: Bits3): (b: Byte)
    ensures b == 32 * delay
  {
    Pow2Values();
    Or(0x00, Shl(delay, 5))
  }

  /** The twelve register bytes the settings call for: CONFIG0 holds the
      clock nibble and conversion mode, CONFIG1 the oversampling code,
      CONFIG2 and IRQ are fixed, CONFIG3 carries the output size, MUX is the
      table entry, SCAN's top byte carries the delay and its channel mask
      selects channel 1 only when scanning, and TIMER is zero. */
  predicate ConfigPayload(s: AdcSettings, v: seq<Byte>)
  {
    |v| == 12
    && v[0] == 16 * ClockNibble(s.clkSel) + s.convMode
    && v[1] == OsrCode(s.osr)
    && v[2] == 139 && v[4] == 54
    && v[3] == 192 + 16 * s.outputSize
    && Ok(v[5]) == PyIndex(MuxTable, s.muxSelection1)
    && (s.scanMode ==> v[6] == 32 * s.scanDelay && v[7..9] == [0, 6])
    && (!s.scanMode ==> v[6..9] == [0, 0, 0])
    && v[9..] == [0, 0, 0]
  }

  /** set_config_bits: appends the twelve bytes written after the CONFIG0
      command, in register-address order (CONFIG0..3, IRQ, MUX, SCAN[23:0],
      TIMER[23:0]); the MUX byte comes from the table, so an out-of-range
      selection raises IndexError. */
  method SetConfigBits(s: AdcSettings) returns (r: Result<seq<Byte>>)
    ensures r.Ok? <==> -|MuxTable| <= s.muxSelection1 < |MuxTable|
    ensures r.Err? ==> r.error == IndexError
    ensures r.Ok? ==> ConfigPayload(s, r.value)
  {
    var config: seq<Byte> := [];
    config := config + [Config0Byte(s.clkSel, s.convMode)];
    config := config + [OsrCode(s.osr)];
    config := config + [0x8B];
    config := config + [Config3Byte(s.outputSize)];
    config := config + [0x36];
    var mux := PyIndex(MuxTable, s.muxSelection1);
    if mux.Err? {
      return Err(mux.error);
    }
    config := config + [mux.value];
    if s.scanMode {
      config := config + [ScanDelayByte(s.scanDelay), 0x00, 0x06];
    } else {
      config := config + [0x00, 0x00, 0x00];
    }
    config := config + [0x00, 0x00, 0x00];
    r := Ok(config);
  }

  /** write_init_config: one incremental write starting at CONFIG0; the chip's
      address auto-increment places the payload, so the header is followed
      by the twelve bytes unchanged. */
  method WriteInitConfig(s: AdcSettings) returns (r: Result<seq<Byte>>)
    ensures r.Ok? <==> -|MuxTable| <= s.muxSelection1 < |MuxTable|
    ensures r.Ok? ==> |r.value| == 13 && r.value[0] == 70
    ensures r.Ok? ==> DecodeCommand(r.value[0]) == (DeviceAddr, RegConfig0, CmdIncWrite)
    ensures r.Ok? ==> ConfigPayload(s, r.value[1..])
    ensures s == SourceSettings ==>
      r == Ok([70, 226, 12, 139, 192, 54, 28, 0, 0, 0, 0, 0, 0])
  {
    CommandByteDecodes(DeviceAddr, RegConfig0, CmdIncWrite);
    var header := CommandByte(DeviceAddr, RegConfig0, CmdIncWrite);
    var bits := SetConfigBits(s);
    if bits.Err? {
      return Err(bits.error);
    }
    r := Ok([header] + bits.value);
    assert r.value[1..] == bits.value;
    if s == SourceSettings {
      var v := bits.value;
      assert v[5] == MuxTable[3] == 0x1C;
      assert v[0] == 226 && v[1] == 12 && v[2] == 139 && v[3] == 192 && v[4] == 54;
      assert v == [226, 12, 139, 192, 54, 28] + v[6..9] + v[9..];
      assert header == 70;
      assert [header] + v == [70, 226, 12, 139, 192, 54, 28, 0, 0, 0, 0, 0, 0];
    }
  }

  /** set_mux_mode: an incremental write of the MUX register with the table
      entry for the selection (Python list indexing, so -9..8 are accepted). */
  function SetMuxModeMessage(sel: int): (r: Result<seq<Byte>>)
    ensures r.Ok? <==> -|MuxTable| <= sel < |MuxTable|
    ensures r.Err? ==> r.error == IndexError
    ensures r.Ok? ==> |r.value| == 2 && r.value[0] == 90
    ensures r.Ok? ==> DecodeCommand(r.value[0]) == (DeviceAddr, RegMux, CmdIncWrite)
    ensures 0 <= sel < |MuxTable| ==> r == Ok([90, MuxTable[sel]])
  {
    CommandByteDecodes(DeviceAddr, RegMux, CmdIncWrite);
    match PyIndex(MuxTable, sel)
    case Ok(entry) => Ok([CommandByte(DeviceAddr, RegMux, CmdIncWrite), entry])
    case Err(e) => Err(e)
  }

  // ---------------------------------------------------------------------
  // Replies

  /** read_adc_d_24: the sample is the three bytes after the status byte,
      most significant first; a reply shorter than four bytes raises
      IndexError. */
  function ReadAdc24(reply: seq<Byte>): (r: Result<int>)
    ensures r.Ok? <==> |reply| >= 4
    ensures r.Err? ==> r.error == IndexError
    ensures r.Ok? ==> 0 <= r.value < 0x100_0000
    ensures r.Ok? ==> r.value == reply[1] as int * 65536 + reply[2] as int * 256 + reply[3] as int
  {
    Pow2Values();
    if |reply| < 4 then Err(IndexError)
    else Ok(Shl(reply[1], 16) + Shl(reply[2], 8) + reply[3])
  }

  /** The three data bytes a device sends for the 24-bit sample v. */
  function SampleBytes(v: int): (b: seq<Byte>)
    requires 0 <= v < 0x100_0000
    ensures |b| == 3
  {
    [v / 65536, (v / 256) % 256, v % 256]
  }

  lemma Split24(v: int)
    requires 0 <= v < 0x100_0000
    ensures 0 <= v / 65536 < 256
    ensures v == (v / 65536) * 65536 + ((v / 256) % 256) * 256 + v % 256
  {
    var q := v / 256;
    assert v == 256 * q + v % 256;
    assert q == 256 * (q / 256) + q % 256;
    assert q / 256 == v / 65536;
  }

  /** Whatever the status byte, the sample the device clocks out is the
      sample read_adc_d_24 returns. */
  lemma {:induction false} ReadAdc24RoundTrip(status: Byte, v: int)
    requires 0 <= v < 0x100_0000
    ensures ReadAdc24([status] + SampleBytes(v)) == Ok(v)
  {
    Split24(v);
    Pow2Values();
    var reply := [status] + SampleBytes(v);
    assert ReadAdc24(reply).value == (v / 65536) * 65536 + ((v / 256) % 256) * 256 + v % 256;
  }

  /** wait_for_data: True ("wait") while bit 2 of the status byte, the
      data-ready flag that is cleared when a sample is available, is set.
      The function returns before its second transaction, so that code is
      unreachable and not modelled. An empty reply raises IndexError. */
  function WaitForData(reply: seq<Byte>): (r: Result<bool>)
    ensures r.Ok? <==> |reply| >= 1
    ensures r.Err? ==> r.error == IndexError
    ensures r.Ok? ==> (r.value <==> (reply[0] / 4) % 2 == 1)
  {
    if |reply| < 1 then Err(IndexError)
    else
      AndBitTwo(reply[0]);
      Ok(Shr(And(reply[0], 0x04), 2) == 1)
  }

  // ---------------------------------------------------------------------
  // Two's-complement conversion (conv_raw_adc_to_voltage, first half)

  datatype ByteOrder = Little | Big

  /** int.to_bytes(3, order, signed=False): OverflowError outside [0, 2^24). */
  function ToBytes3Unsigned(v: int, order: ByteOrder): (r: Result<seq<int>>)
    ensures r.Ok? <==> 0 <= v < 0x100_0000
    ensures r.Err? ==> r.error == OverflowError
    ensures r.Ok? ==> |r.value| == 3 && forall k :: 0 <= k < 3 ==> 0 <= r.value[k] < 256
  {
    if v < 0 || v >= 0x100_0000 then Err(OverflowError)
    else
      var le := [v % 256, (v / 256) % 256, v / 65536];
      Ok(if order == Little then le else [le[2], le[1], le[0]])
  }

  /** int.from_bytes(b, order, signed=True) for three bytes. */
  function FromBytes3Signed(b: seq<int>, order: ByteOrder): int
    requires |b| == 3
  {
    var le := if order == Little then b else [b[2], b[1], b[0]];
    var u := le[0] + 256 * le[1] + 65536 * le[2];
    if le[2] >= 128 then u - 0x100_0000 else u
  }

  /** The raw 24-bit code read back as a signed 24-bit value. The driver
      uses the host byte order for both steps, and either order gives the
      same value; a code outside 24 bits raises OverflowError. */
  function RawToSigned(adc: int, order: ByteOrder): (r: Result<int>)
    ensures r.Ok? <==> 0 <= adc < 0x100_0000
    ensures r.Err? ==> r.error == OverflowError
    ensures r.Ok? ==> r.value == if adc < 0x80_0000 then adc else adc - 0x100_0000
    ensures r.Ok? ==> -0x80_0000 <= r.value < 0x80_0000
  {
    match ToBytes3Unsigned(adc, order)
    case Err(e) => Err(e)
    case Ok(b) =>
      Split24(adc);
      Ok(FromBytes3Signed(b, order))
  }

  /** Every sample read from the device converts without error. */
  lemma ReadSampleConverts(reply: seq<Byte>, order: ByteOrder)
    requires ReadAdc24(reply).Ok?
    ensures RawToSigned(ReadAdc24(reply).value, order).Ok?
  {
  }

  /** The conversion inverts two's-complement encoding of a signed 24-bit
      value. */
  lemma {:induction false} RawToSignedInverts(x: int, order: ByteOrder)
    requires -0x80_0000 <= x < 0x80_0000
    ensures RawToSigned(if x >= 0 then x else x + 0x100_0000, order) == Ok(x)
  {
  }
}
