/**
 * The Modbus register image of the emulated meter: a sparse table of
 * register definitions keyed by start address, the getters that encode
 * the snapshot high word first (the big-endian register convention of
 * section 4.2 of the MODBUS Application Protocol Specification V1.1b3),
 * and the read loop that always answers `count` words.
 */
module RegisterMap {
  import opened Common
  import opened DataManager
  import ShellyDevice

  // ---------------------------------------------------------------------
  // Word packing

  /** `_uint32_to_registers`: `[(v >> 16) & 0xFFFF, v & 0xFFFF]` (floor shift, as Python does for any int). */
  function Uint32Words(v: int): (r: seq<Word>)
    ensures |r| == 2
  {
    [Low16(v / 0x1_0000), Low16(v)]
  }

  /** `v & 0xFFFF`. */
  function Low16(v: int): Word {
    var r := v % 0x1_0000;
    assert 0 <= r < 0x1_0000;
    r
  }

  /** Two bytes as one word, high byte first: `(hi << 8) | lo`. */
  function Pair(hi: Byte, lo: Byte): Word {
    (hi as int) * 0x100 + (lo as int)
  }

  /** For a value that fits in 32 bits the high word times 65536 plus the low word gives it back. */
  lemma Uint32WordsExact(v: int)
    requires 0 <= v < 0x1_0000_0000
    ensures (Uint32Words(v)[0] as int) * 0x1_0000 + Uint32Words(v)[1] as int == v
    ensures Uint32Words(v)[0] == v / 0x1_0000 && Uint32Words(v)[1] == v % 0x1_0000
  {
  }

  /** Every value, in range or not, is reduced modulo 2^32 by the packing. */
  lemma Uint32WordsWrap(v: int)
    ensures Uint32Words(v) == Uint32Words(v % 0x1_0000_0000)
  {
    var q := v / 0x1_0000;
    assert (v % 0x1_0000_0000) / 0x1_0000 == q % 0x1_0000;
    assert (v % 0x1_0000_0000) % 0x1_0000 == v % 0x1_0000;
  }

  /** `_float_to_registers`: the 32-bit pattern of `struct.pack(">f", x)`, high word first. */
  function FloatWords(x: real, floatBits: real -> Bits32): (r: seq<Word>)
    ensures |r| == 2 && (r[0] as int) * 0x1_0000 + r[1] as int == floatBits(x)
  {
    var b := floatBits(x);
    var hi := b / 0x1_0000;
    assert hi < 0x1_0000;
    [hi, Low16(b)]
  }

  /** Bytes packed pairwise, high byte first. */
  function PackBytes(bs: seq<Byte>): (r: seq<Word>)
    requires |bs| % 2 == 0
    ensures |r| == |bs| / 2
    ensures forall i :: 0 <= i < |r| ==> r[i] == Pair(bs[2 * i], bs[2 * i + 1])
    decreases |bs|
  {
    if bs == [] then []
    else
      var rest := PackBytes(bs[2..]);
      assert forall i :: 1 <= i < |bs| / 2 ==> bs[2..][2 * (i - 1)] == bs[2 * i] && bs[2..][2 * (i - 1) + 1] == bs[2 * i + 1];
      [Pair(bs[0], bs[1])] + rest
  }

  /** `b[:n].ljust(n, b"\x00")`. */
  function PadBytes(bs: seq<Byte>, n: nat): (r: seq<Byte>)
    ensures |r| == n
    ensures forall i :: 0 <= i < n ==> r[i] == if i < |bs| then bs[i] else 0
  {
    if |bs| >= n then bs[..n]
    else
      var zeros: seq<Byte> := seq(n - |bs|, _ => 0);
      bs + zeros
  }

  /** `str.encode("utf-8")` for Unicode scalar values. */
  function Utf8(s: string): (r: seq<Byte>)
    ensures |r| >= |s|
  {
    if s == [] then [] else Utf8Char(s[0]) + Utf8(s[1..])
  }

  function Utf8Char(c: char): (r: seq<Byte>)
    ensures 1 <= |r| <= 4
    ensures c as int < 0x80 ==> r == [c as int]
  {
    var v := c as int;
    assert v < 0x11_0000;
    if v < 0x80 then [v]
    else if v < 0x800 then
      assert v / 0x40 < 0x20;
      [0xC0 + v / 0x40, Cont(v)]
    else if v < 0x1_0000 then
      assert v / 0x1000 < 0x10;
      [0xE0 + v / 0x1000, Cont(v / 0x40), Cont(v)]
    else
      assert v / 0x4_0000 < 0x5;
      [0xF0 + v / 0x4_0000, Cont(v / 0x1000), Cont(v / 0x40), Cont(v)]
  }

  /** A UTF-8 continuation byte carrying the low six bits of `v`. */
  function Cont(v: int): Byte {
    var r := v % 0x40;
    assert 0 <= r < 0x40;
    0x80 + r
  }

  /** A string register block: UTF-8, cut or zero-padded to `2 * words` bytes, packed high byte first. */
  function StringWords(s: string, words: nat): (r: seq<Word>)
    ensures |r| == words
  {
    PackBytes(PadBytes(Utf8(s), 2 * words))
  }

  // ---------------------------------------------------------------------
  // Register definitions

  datatype RegisterType = Uint16 | Uint32 | Int32 | Float | Boolean | Str

  /** Which snapshot quantity a phase register shows. */
  datatype PhaseQuantity = Voltage | Current | ActPower | Apparent | PowerFactor | Frequency | Energy | EnergyReturned

  /** What a float register shows. */
  datatype FloatSource =
    | Constant(v: real)
    | TotalCurrentOf
    | TotalPowerOf
    | TotalApparentOf
    | TotalEnergyOf
    | TotalReturnedOf
    | PhaseValue(phase: nat, quantity: PhaseQuantity)

  /** The getter closures of the table, by what they read. */
  datatype Getter =
    | MacWords
    | ModelWords
    | NameWords
    | Timestamp
    | ZeroFlag
    | FloatOf(source: FloatSource)

  datatype RegisterDefinition = RegisterDefinition(address: int, registerType: RegisterType, size: nat, getter: Option<Getter>)

  /** The words a getter returns. */
  function GetterSize(g: Getter): nat {
    match g
    case MacWords => 3
    case ModelWords => 10
    case NameWords => 16
    case Timestamp => 2
    case ZeroFlag => 1
    case FloatOf(_) => 2
  }

  /** What the getters read: the installed snapshot (if any), the clock, and the device identity. */
  datatype Sources = Sources(data: Option<MeterData>, now: real, macBytes: Result<seq<Byte>, PyError>, model: string, name: string)

  function PhaseOf(m: MeterData, phase: nat): PhaseData {
    if phase == 0 then m.phaseA else if phase == 1 then m.phaseB else m.phaseC
  }

  /** The value a phase register shows without a snapshot. */
  function QuantityDefault(q: PhaseQuantity): real {
    match q
    case Voltage => 230.0
    case PowerFactor => 1.0
    case Frequency => 50.0
    case _ => 0.0
  }

  function QuantityOf(p: PhaseData, q: PhaseQuantity): real {
    match q
    case Voltage => p.voltage
    case Current => p.current
    case ActPower => ActivePower(p)
    case Apparent => p.apparentPower
    case PowerFactor => p.powerFactor
    case Frequency => p.frequency
    case Energy => p.energyTotal
    case EnergyReturned => p.energyReturnedTotal
  }

  /** The value of a float register: read from the snapshot, or its default when none is installed. */
  function FloatValue(src: FloatSource, data: Option<MeterData>): real {
    match src
    case Constant(v) => v
    case TotalCurrentOf => if data.Some? then TotalCurrent(data.value) else 0.0
    case TotalPowerOf => if data.Some? then TotalPower(data.value) else 0.0
    case TotalApparentOf => if data.Some? then TotalApparentPower(data.value) else 0.0
    case TotalEnergyOf => if data.Some? then data.value.totalEnergy else 0.0
    case TotalReturnedOf => if data.Some? then data.value.totalEnergyReturned else 0.0
    case PhaseValue(phase, q) => if data.Some? then QuantityOf(PhaseOf(data.value, phase), q) else QuantityDefault(q)
  }

  /**
   * A getter's words. The MAC getter fails like the source when the MAC is
   * not hexadecimal (ValueError from `bytes.fromhex`) or decodes to fewer
   * than six bytes (IndexError).
   */
  function GetterWords(g: Getter, src: Sources, floatBits: real -> Bits32): (r: Result<seq<Word>, PyError>)
    ensures r.Ok? ==> |r.value| == GetterSize(g)
    ensures r.Err? ==> g.MacWords?
  {
    match g
    case MacWords =>
      (match src.macBytes
       case Err(e) => Err(e)
       case Ok(b) =>
         if |b| < 6 then Err(IndexError)
         else Ok([Pair(b[0], b[1]), Pair(b[2], b[3]), Pair(b[4], b[5])]))
    case ModelWords => Ok(StringWords(src.model, 10))
    case NameWords => Ok(StringWords(src.name, 16))
    case Timestamp => Ok(Uint32Words(Trunc(if src.data.Some? then src.data.value.timestamp else src.now)))
    case ZeroFlag => Ok([0])
    case FloatOf(s) => Ok(FloatWords(FloatValue(s, src.data), floatBits))
  }

  function Def(address: int, t: RegisterType, g: Getter): RegisterDefinition {
    RegisterDefinition(address, t, GetterSize(g), Some(g))
  }

  /** `_build_device_info_registers`: MAC at 30000, model at 30006, name at 30016. */
  function DeviceInfoDefAt(a: int): Option<RegisterDefinition> {
    if a == 30000 then Some(Def(a, Uint16, MacWords))
    else if a == 30006 then Some(Def(a, Str, ModelWords))
    else if a == 30016 then Some(Def(a, Str, NameWords))
    else None
  }

  /** `_build_phase_registers` relative to the phase base: five floats, three flags, the frequency. */
  function PhaseDefAt(base: int, phase: nat, off: int): Option<RegisterDefinition> {
    var a := base + off;
    if off == 0 then Some(Def(a, Float, FloatOf(PhaseValue(phase, Voltage))))
    else if off == 2 then Some(Def(a, Float, FloatOf(PhaseValue(phase, Current))))
    else if off == 4 then Some(Def(a, Float, FloatOf(PhaseValue(phase, ActPower))))
    else if off == 6 then Some(Def(a, Float, FloatOf(PhaseValue(phase, Apparent))))
    else if off == 8 then Some(Def(a, Float, FloatOf(PhaseValue(phase, PowerFactor))))
    else if off == 10 || off == 11 || off == 12 then Some(Def(a, Boolean, ZeroFlag))
    else if off == 13 then Some(Def(a, Float, FloatOf(PhaseValue(phase, Frequency))))
    else None
  }

  /** `_build_em_registers`: timestamp, error flags, neutral current, totals, then the three phase blocks. */
  function EmDefAt(a: int): Option<RegisterDefinition> {
    if a == 31000 then Some(Def(a, Uint32, Timestamp))
    else if 31002 <= a <= 31006 || a == 31009 || a == 31010 then Some(Def(a, Boolean, ZeroFlag))
    else if a == 31007 then Some(Def(a, Float, FloatOf(Constant(0.0))))
    else if a == 31011 then Some(Def(a, Float, FloatOf(TotalCurrentOf)))
    else if a == 31013 then Some(Def(a, Float, FloatOf(TotalPowerOf)))
    else if a == 31015 then Some(Def(a, Float, FloatOf(TotalApparentOf)))
    else if 31020 <= a < 31080 then PhaseDefAt(31020 + 20 * ((a - 31020) / 20), (a - 31020) / 20, (a - 31020) % 20)
    else None
  }

  /** `_build_phase_energy_registers` relative to the base: energy, returned, and the two perpetual copies. */
  function EnergyDefAt(base: int, phase: nat, off: int): Option<RegisterDefinition> {
    var a := base + off;
    if off == 0 || off == 12 then Some(Def(a, Float, FloatOf(PhaseValue(phase, Energy))))
    else if off == 4 || off == 14 then Some(Def(a, Float, FloatOf(PhaseValue(phase, EnergyReturned))))
    else None
  }

  /** `_build_emdata_registers`: timestamp, the two totals, then the three phase energy blocks. */
  function EmDataDefAt(a: int): Option<RegisterDefinition> {
    if a == 31160 then Some(Def(a, Uint32, Timestamp))
    else if a == 31162 then Some(Def(a, Float, FloatOf(TotalEnergyOf)))
    else if a == 31164 then Some(Def(a, Float, FloatOf(TotalReturnedOf)))
    else if 31170 <= a < 31230 then EnergyDefAt(31170 + 20 * ((a - 31170) / 20), (a - 31170) / 20, (a - 31170) % 20)
    else None
  }

  function DefAt(a: int): Option<RegisterDefinition> {
    if 30000 <= a < 30100 then DeviceInfoDefAt(a)
    else if 31000 <= a < 31080 then EmDefAt(a)
    else if 31160 <= a < 31230 then EmDataDefAt(a)
    else None
  }

  function DeviceInfoTable(): map<int, RegisterDefinition> {
    map a | 30000 <= a < 30100 && DeviceInfoDefAt(a).Some? :: DeviceInfoDefAt(a).value
  }

  function EmTable(): map<int, RegisterDefinition> {
    map a | 31000 <= a < 31080 && EmDefAt(a).Some? :: EmDefAt(a).value
  }

  function EmDataTable(): map<int, RegisterDefinition> {
    map a | 31160 <= a < 31230 && EmDataDefAt(a).Some? :: EmDataDefAt(a).value
  }

  /** The whole table: every address with a definition. */
  function Table(): map<int, RegisterDefinition> {
    map a | 30000 <= a < 31230 && DefAt(a).Some? :: DefAt(a).value
  }

  lemma TableLookup(a: int)
    ensures a in Table() <==> DefAt(a).Some?
    ensures a in Table() ==> Table()[a] == DefAt(a).value
  {
  }

  lemma DefAtShape(a: int)
    requires DefAt(a).Some?
    ensures DefAt(a).value.address == a
    ensures DefAt(a).value.getter.Some? && DefAt(a).value.size == GetterSize(DefAt(a).value.getter.value)
  {
  }

  // ---------------------------------------------------------------------
  // Properties of the table

  /** The end of a phase register stays inside its 20-address block, before the next register of the block. */
  lemma PhaseBlockLayout(base: int, phase: nat, o1: int, o2: int)
    requires PhaseDefAt(base, phase, o1).Some? && PhaseDefAt(base, phase, o2).Some? && o1 < o2
    ensures o1 + PhaseDefAt(base, phase, o1).value.size <= o2
  {
  }

  lemma PhaseBlockEnd(base: int, phase: nat, o: int)
    requires PhaseDefAt(base, phase, o).Some?
    ensures 0 <= o && o + PhaseDefAt(base, phase, o).value.size <= 15
  {
  }

  lemma EnergyBlockLayout(base: int, phase: nat, o1: int, o2: int)
    requires EnergyDefAt(base, phase, o1).Some? && EnergyDefAt(base, phase, o2).Some? && o1 < o2
    ensures o1 + EnergyDefAt(base, phase, o1).value.size <= o2
  {
  }

  lemma EnergyBlockEnd(base: int, phase: nat, o: int)
    requires EnergyDefAt(base, phase, o).Some?
    ensures 0 <= o && o + EnergyDefAt(base, phase, o).value.size <= 16
  {
  }

  /** Where each register ends: before the next block, and before the next register of its own block. */
  lemma EmPhaseEnd(a: int)
    requires 31020 <= a < 31080 && EmDefAt(a).Some?
    ensures a + EmDefAt(a).value.size <= 31020 + 20 * ((a - 31020) / 20) + 15
  {
    PhaseBlockEnd(31020 + 20 * ((a - 31020) / 20), (a - 31020) / 20, (a - 31020) % 20);
  }

  lemma EmDataPhaseEnd(a: int)
    requires 31170 <= a < 31230 && EmDataDefAt(a).Some?
    ensures a + EmDataDefAt(a).value.size <= 31170 + 20 * ((a - 31170) / 20) + 16
  {
    EnergyBlockEnd(31170 + 20 * ((a - 31170) / 20), (a - 31170) / 20, (a - 31170) % 20);
  }

  /** Register intervals [a, a + size) never contain another register's start address. */
  lemma TableDisjoint(a: int, b: int)
    requires a in Table() && b in Table() && a < b
    ensures a + Table()[a].size <= b
  {
    TableLookup(a);
    TableLookup(b);
    var d := DefAt(a).value;
    if 31020 <= a < 31080 {
      EmPhaseEnd(a);
      if 31020 <= b < 31080 && (a - 31020) / 20 == (b - 31020) / 20 {
        var k := (a - 31020) / 20;
        PhaseBlockLayout(31020 + 20 * k, k, (a - 31020) % 20, (b - 31020) % 20);
      }
    } else if 31170 <= a < 31230 {
      EmDataPhaseEnd(a);
      if (a - 31170) / 20 == (b - 31170) / 20 {
        var k := (a - 31170) / 20;
        EnergyBlockLayout(31170 + 20 * k, k, (a - 31170) % 20, (b - 31170) % 20);
      }
    }
  }

  /** Each definition sits at its own key and its getter answers exactly `size` words. */
  lemma TableGettersFit(a: int, src: Sources, floatBits: real -> Bits32)
    requires a in Table()
    ensures var d := Table()[a];
      d.address == a && d.getter.Some? &&
      (GetterWords(d.getter.value, src, floatBits).Ok? ==> |GetterWords(d.getter.value, src, floatBits).value| == d.size)
  {
    TableLookup(a);
    DefAtShape(a);
  }

  // ---------------------------------------------------------------------
  // The read loop, as a specification

  /** A failure stays a failure; a success is prefixed. */
  function Prefixed(ws: seq<Word>, r: Result<seq<Word>, PyError>): Result<seq<Word>, PyError> {
    match r
    case Ok(rest) => Ok(ws + rest)
    case Err(e) => Err(e)
  }

  /**
   * The words `read_registers` collects from `addr` while it still needs
   * `need`: a start address with a getter contributes the getter's words
   * and skips `size` addresses; any other address contributes one 0.
   */
  function Walk(regs: map<int, RegisterDefinition>, addr: int, need: int, src: Sources, floatBits: real -> Bits32): (r: Result<seq<Word>, PyError>)
    ensures r.Ok? ==> |r.value| >= need
    decreases need
  {
    if need <= 0 then Ok([])
    else if addr in regs && regs[addr].getter.Some? then
      match GetterWords(regs[addr].getter.value, src, floatBits)
      case Err(e) => Err(e)
      case Ok(ws) =>
        assert |ws| >= 1;
        Prefixed(ws, Walk(regs, addr + regs[addr].size, need - |ws|, src, floatBits))
    else Prefixed([0], Walk(regs, addr + 1, need - 1, src, floatBits))
  }

  /** `result[:count]`. */
  function Take(ws: seq<Word>, count: int): seq<Word> {
    if count <= 0 then [] else if count >= |ws| then ws else ws[..count]
  }

  /** `read_registers(address, count)`. */
  function Read(regs: map<int, RegisterDefinition>, address: int, count: int, src: Sources, floatBits: real -> Bits32): (r: Result<seq<Word>, PyError>)
    ensures r.Ok? ==> |r.value| == if count < 0 then 0 else count
  {
    match Walk(regs, address, count, src, floatBits)
    case Err(e) => Err(e)
    case Ok(ws) => Ok(Take(ws, count))
  }

  // ---------------------------------------------------------------------
  // Properties of reads on the table

  /** Only the MAC getter can fail; with a MAC of six or more bytes every read answers. */
  lemma {:induction false} WalkSucceeds(regs: map<int, RegisterDefinition>, addr: int, need: int, src: Sources, floatBits: real -> Bits32)
    requires src.macBytes.Ok? && |src.macBytes.value| >= 6
    ensures Walk(regs, addr, need, src, floatBits).Ok?
    decreases need
  {
    if need > 0 {
      if addr in regs && regs[addr].getter.Some? {
        var ws := GetterWords(regs[addr].getter.value, src, floatBits).value;
        WalkSucceeds(regs, addr + regs[addr].size, need - |ws|, src, floatBits);
      } else {
        WalkSucceeds(regs, addr + 1, need - 1, src, floatBits);
      }
    }
  }

  /** A read answers exactly `count` words for any address, defined or not. */
  lemma ReadIsTotal(address: int, count: nat, src: Sources, floatBits: real -> Bits32)
    requires src.macBytes.Ok? && |src.macBytes.value| >= 6
    ensures Read(Table(), address, count, src, floatBits).Ok?
    ensures |Read(Table(), address, count, src, floatBits).value| == count
  {
    WalkSucceeds(Table(), address, count, src, floatBits);
  }

  /** An address that is not a start address (a gap such as 29000 or 31168, or the middle of a register) reads one 0 word. */
  lemma UndefinedAddressReadsZero(address: int, src: Sources, floatBits: real -> Bits32)
    requires address !in Table()
    ensures Read(Table(), address, 1, src, floatBits) == Ok([0])
  {
    assert Walk(Table(), address + 1, 0, src, floatBits) == Ok([]);
    assert [0] + [] == [0 as Word];
  }

  lemma GapsReadZero(src: Sources, floatBits: real -> Bits32)
    ensures Read(Table(), 29000, 1, src, floatBits) == Ok([0])
    ensures Read(Table(), 31001, 1, src, floatBits) == Ok([0])
    ensures Read(Table(), 31168, 1, src, floatBits) == Ok([0])
  {
    TableLookup(29000);
    TableLookup(31001);
    TableLookup(31168);
    UndefinedAddressReadsZero(29000, src, floatBits);
    UndefinedAddressReadsZero(31001, src, floatBits);
    UndefinedAddressReadsZero(31168, src, floatBits);
  }

  /** A read at a start address of exactly its size answers the getter's words. */
  lemma AlignedRead(address: int, src: Sources, floatBits: real -> Bits32)
    requires address in Table()
    ensures var d := Table()[address];
      d.getter.Some? &&
      Read(Table(), address, d.size, src, floatBits) == GetterWords(d.getter.value, src, floatBits)
  {
    TableLookup(address);
    DefAtShape(address);
    AlignedReadAt(Table(), address, src, floatBits);
  }

  /** The same on any table whose entry at `address` has a getter of its declared size. */
  lemma AlignedReadAt(regs: map<int, RegisterDefinition>, address: int, src: Sources, floatBits: real -> Bits32)
    requires address in regs && regs[address].getter.Some? && regs[address].size == GetterSize(regs[address].getter.value)
    ensures Read(regs, address, regs[address].size, src, floatBits) == GetterWords(regs[address].getter.value, src, floatBits)
  {
    var d := regs[address];
    match GetterWords(d.getter.value, src, floatBits)
    case Ok(ws) =>
      assert Walk(regs, address + d.size, d.size - |ws|, src, floatBits) == Ok([]);
      assert ws + [] == ws;
    case Err(_) =>
  }

  /** A read of a register found through `DefAt`, so that concrete addresses need no lookup in the table. */
  lemma ReadDef(address: int, src: Sources, floatBits: real -> Bits32)
    requires DefAt(address).Some?
    ensures Read(Table(), address, DefAt(address).value.size, src, floatBits) == GetterWords(DefAt(address).value.getter.value, src, floatBits)
  {
    TableLookup(address);
    AlignedRead(address, src, floatBits);
  }

  /** The MAC words pack the address bytes pairwise, e.g. AA:BB:CC:DD:EE:FF reads 0xAABB, 0xCCDD, 0xEEFF. */
  lemma MacRegisters(src: Sources, floatBits: real -> Bits32)
    requires src.macBytes.Ok? && |src.macBytes.value| >= 6
    ensures var b := src.macBytes.value;
      Read(Table(), 30000, 3, src, floatBits) == Ok([Pair(b[0], b[1]), Pair(b[2], b[3]), Pair(b[4], b[5])])
    ensures src.macBytes == Ok([0xAA, 0xBB, 0xCC, 0xDD, 0xEE, 0xFF]) ==>
      Read(Table(), 30000, 3, src, floatBits) == Ok([0xAABB, 0xCCDD, 0xEEFF])
  {
    AlignedRead(30000, src, floatBits);
  }

  /** Model and name read as their UTF-8 bytes cut or zero-padded to 20 and 32 bytes, two per word. */
  lemma StringRegisters(src: Sources, floatBits: real -> Bits32)
    ensures Read(Table(), 30006, 10, src, floatBits) == Ok(PackBytes(PadBytes(Utf8(src.model), 20)))
    ensures Read(Table(), 30016, 16, src, floatBits) == Ok(PackBytes(PadBytes(Utf8(src.name), 32)))
  {
    AlignedRead(30006, src, floatBits);
    AlignedRead(30016, src, floatBits);
  }

  /** Which quantity each float offset of a phase block shows. */
  predicate PhaseFloatOffset(off: int, q: PhaseQuantity) {
    (off == 0 && q == Voltage) || (off == 2 && q == Current) || (off == 4 && q == ActPower) ||
    (off == 6 && q == Apparent) || (off == 8 && q == PowerFactor) || (off == 13 && q == Frequency)
  }

  /** The float registers of phase block `phase` (31020, 31040, 31060) show that phase's quantity. */
  lemma PhaseFloatRead(src: Sources, floatBits: real -> Bits32, phase: nat, off: int, q: PhaseQuantity)
    requires phase < 3 && PhaseFloatOffset(off, q)
    ensures Read(Table(), 31020 + 20 * phase + off, 2, src, floatBits) == Ok(FloatWords(FloatValue(PhaseValue(phase, q), src.data), floatBits))
  {
    var a := 31020 + 20 * phase + off;
    PhaseFloatDef(phase, off, q);
    ReadDef(a, src, floatBits);
  }

  lemma PhaseFloatDef(phase: nat, off: int, q: PhaseQuantity)
    requires phase < 3 && PhaseFloatOffset(off, q)
    ensures DefAt(31020 + 20 * phase + off) == Some(Def(31020 + 20 * phase + off, Float, FloatOf(PhaseValue(phase, q))))
  {
    var a := 31020 + 20 * phase + off;
    assert (a - 31020) / 20 == phase && (a - 31020) % 20 == off;
  }

  /** Which quantity each offset of an energy block shows. */
  predicate EnergyOffset(off: int, q: PhaseQuantity) {
    ((off == 0 || off == 12) && q == Energy) || ((off == 4 || off == 14) && q == EnergyReturned)
  }

  /** The energy registers of block `phase` (31170, 31190, 31210); offsets 12 and 14 are the perpetual copies. */
  lemma EnergyRead(src: Sources, floatBits: real -> Bits32, phase: nat, off: int, q: PhaseQuantity)
    requires phase < 3 && EnergyOffset(off, q)
    ensures Read(Table(), 31170 + 20 * phase + off, 2, src, floatBits) == Ok(FloatWords(FloatValue(PhaseValue(phase, q), src.data), floatBits))
  {
    var a := 31170 + 20 * phase + off;
    assert (a - 31170) / 20 == phase && (a - 31170) % 20 == off;
    ReadDef(a, src, floatBits);
  }

  /** Both timestamp registers show the snapshot's time, or the clock without a snapshot. */
  lemma TimestampRead(src: Sources, floatBits: real -> Bits32)
    ensures Read(Table(), 31000, 2, src, floatBits) == Ok(Uint32Words(Trunc(if src.data.Some? then src.data.value.timestamp else src.now)))
    ensures Read(Table(), 31160, 2, src, floatBits) == Ok(Uint32Words(Trunc(if src.data.Some? then src.data.value.timestamp else src.now)))
  {
    ReadDef(31000, src, floatBits);
    ReadDef(31160, src, floatBits);
  }

  /**
   * Without a snapshot a phase register shows its default (230 V, a power
   * factor of 1, 50 Hz, 0 for current, powers and energies).
   */
  lemma RegistersWithoutSnapshot(src: Sources, floatBits: real -> Bits32, phase: nat, off: int, q: PhaseQuantity)
    requires src.data.None? && phase < 3 && PhaseFloatOffset(off, q)
    ensures Read(Table(), 31020 + 20 * phase + off, 2, src, floatBits) == Ok(FloatWords(QuantityDefault(q), floatBits))
  {
    PhaseFloatRead(src, floatBits, phase, off, q);
  }

  /** With a snapshot installed a phase register shows that phase's value; the active power is the signed one. */
  lemma RegistersWithSnapshot(src: Sources, m: MeterData, floatBits: real -> Bits32, phase: nat, off: int, q: PhaseQuantity)
    requires src.data == Some(m) && phase < 3 && PhaseFloatOffset(off, q)
    ensures Read(Table(), 31020 + 20 * phase + off, 2, src, floatBits) == Ok(FloatWords(QuantityOf(PhaseOf(m, phase), q), floatBits))
  {
    PhaseFloatRead(src, floatBits, phase, off, q);
  }

  /** The same for the energy registers: 0 without a snapshot, the phase's counters with one. */
  lemma EnergyRegisters(src: Sources, floatBits: real -> Bits32, phase: nat, off: int, q: PhaseQuantity)
    requires phase < 3 && EnergyOffset(off, q)
    ensures src.data.None? ==> Read(Table(), 31170 + 20 * phase + off, 2, src, floatBits) == Ok(FloatWords(0.0, floatBits))
    ensures src.data.Some? ==>
      Read(Table(), 31170 + 20 * phase + off, 2, src, floatBits) == Ok(FloatWords(QuantityOf(PhaseOf(src.data.value, phase), q), floatBits))
  {
    EnergyRead(src, floatBits, phase, off, q);
  }

  /** The total registers show the snapshot's totals, or 0 without one. */
  lemma TotalsRead(src: Sources, floatBits: real -> Bits32)
    ensures Read(Table(), 31011, 2, src, floatBits) == Ok(FloatWords(if src.data.Some? then TotalCurrent(src.data.value) else 0.0, floatBits))
    ensures Read(Table(), 31013, 2, src, floatBits) == Ok(FloatWords(if src.data.Some? then TotalPower(src.data.value) else 0.0, floatBits))
    ensures Read(Table(), 31015, 2, src, floatBits) == Ok(FloatWords(if src.data.Some? then TotalApparentPower(src.data.value) else 0.0, floatBits))
    ensures Read(Table(), 31162, 2, src, floatBits) == Ok(FloatWords(if src.data.Some? then src.data.value.totalEnergy else 0.0, floatBits))
    ensures Read(Table(), 31164, 2, src, floatBits) == Ok(FloatWords(if src.data.Some? then src.data.value.totalEnergyReturned else 0.0, floatBits))
    ensures Read(Table(), 31007, 2, src, floatBits) == Ok(FloatWords(0.0, floatBits))
  {
    ReadDef(31011, src, floatBits);
    ReadDef(31013, src, floatBits);
    ReadDef(31015, src, floatBits);
    ReadDef(31162, src, floatBits);
    ReadDef(31164, src, floatBits);
    ReadDef(31007, src, floatBits);
  }

  /** Error flags always read 0. */
  lemma FlagsReadZero(src: Sources, floatBits: real -> Bits32, a: int)
    requires 31002 <= a <= 31006 || a == 31009 || a == 31010 || (31020 <= a < 31080 && 10 <= (a - 31020) % 20 <= 12)
    ensures Read(Table(), a, 1, src, floatBits) == Ok([0])
  {
    ReadDef(a, src, floatBits);
  }

  /** The perpetual counters read the same words as the energy counters. */
  lemma PerpetualCounters(src: Sources, floatBits: real -> Bits32, phase: nat)
    requires phase < 3
    ensures Read(Table(), 31182 + 20 * phase, 2, src, floatBits) == Read(Table(), 31170 + 20 * phase, 2, src, floatBits)
    ensures Read(Table(), 31184 + 20 * phase, 2, src, floatBits) == Read(Table(), 31174 + 20 * phase, 2, src, floatBits)
  {
    EnergyRead(src, floatBits, phase, 0, Energy);
    EnergyRead(src, floatBits, phase, 12, Energy);
    EnergyRead(src, floatBits, phase, 4, EnergyReturned);
    EnergyRead(src, floatBits, phase, 14, EnergyReturned);
  }

  // ---------------------------------------------------------------------
  // The register map object

  class RegisterMap {
    const device: ShellyDevice.ShellyDevice
    var data: Option<MeterData>
    var registers: map<int, RegisterDefinition>

    constructor (device: ShellyDevice.ShellyDevice)
      ensures this.device == device && data == None && registers == Table()
    {
      this.device := device;
      data := None;
      registers := map[];
      new;
      BuildDeviceInfoRegisters();
      BuildEmRegisters();
      BuildEmDataRegisters();
    }

    method BuildDeviceInfoRegisters()
      modifies this
      ensures registers == old(registers) + DeviceInfoTable() && data == old(data)
    {
      registers := registers + DeviceInfoTable();
    }

    method BuildEmRegisters()
      modifies this
      ensures registers == old(registers) + EmTable() && data == old(data)
    {
      registers := registers + EmTable();
    }

    method BuildEmDataRegisters()
      modifies this
      ensures registers == old(registers) + EmDataTable() && data == old(data)
    {
      registers := registers + EmDataTable();
    }

    /** `set_data`: install a snapshot; the table stays as it is. */
    method SetData(d: MeterData)
      modifies this
      ensures data == Some(d) && registers == old(registers)
    {
      data := Some(d);
    }

    /** What the getters see at time `now`. */
    function SourcesAt(now: real): Sources
      reads this, device
    {
      Sources(data, now, device.MacBytes(), device.model, device.deviceName)
    }

    /**
     * `read_registers`: walk from `address` until `count` words are
     * collected; an exception from a getter escapes.
     */
    method ReadRegisters(address: int, count: int, now: real, floatBits: real -> Bits32)
      returns (r: Result<seq<Word>, PyError>)
      ensures r == Read(registers, address, count, SourcesAt(now), floatBits)
      ensures r.Ok? ==> |r.value| == if count < 0 then 0 else count
    {
      var src := SourcesAt(now);
      var result: seq<Word> := [];
      var current := address;
      PrefixedEmpty(Walk(registers, address, count, src, floatBits));
      while |result| < count
        invariant Walk(registers, address, count, src, floatBits) == Prefixed(result, Walk(registers, current, count - |result|, src, floatBits))
        decreases count - |result|
      {
        if current in registers && registers[current].getter.Some? {
          var def := registers[current];
          var values := GetterWords(def.getter.value, src, floatBits);
          if values.Err? {
            return Err(values.error);
          }
          assert Walk(registers, current, count - |result|, src, floatBits)
              == Prefixed(values.value, Walk(registers, current + def.size, count - |result| - |values.value|, src, floatBits));
          PrefixedAssoc(result, values.value, Walk(registers, current + def.size, count - |result| - |values.value|, src, floatBits));
          result := result + values.value;
          current := current + def.size;
        } else {
          PrefixedAssoc(result, [0], Walk(registers, current + 1, count - |result| - 1, src, floatBits));
          result := result + [0];
          current := current + 1;
        }
      }
      assert Walk(registers, current, count - |result|, src, floatBits) == Ok([]);
      assert result + [] == result;
      return Ok(Take(result, count));
    }
  }

  lemma PrefixedEmpty(r: Result<seq<Word>, PyError>)
    ensures Prefixed([], r) == r
  {
    if r.Ok? {
      assert [] + r.value == r.value;
    }
  }

  lemma PrefixedAssoc(a: seq<Word>, b: seq<Word>, r: Result<seq<Word>, PyError>)
    ensures Prefixed(a, Prefixed(b, r)) == Prefixed(a + b, r)
  {
    if r.Ok? {
      assert a + (b + r.value) == (a + b) + r.value;
    }
  }

  /** The three builders together leave exactly the table the lemmas above describe. */
  lemma ConstructedTable()
    ensures map[] + DeviceInfoTable() + EmTable() + EmDataTable() == Table()
  {
    var built := map[] + DeviceInfoTable() + EmTable() + EmDataTable();
    forall a
      ensures a in built <==> a in Table()
      ensures a in built ==> built[a] == Table()[a]
    {
    }
    assert built == Table();
  }
}
