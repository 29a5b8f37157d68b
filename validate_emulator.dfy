/**
 * The client side of the emulator's validation tool: the decoders that
 * turn register words back into numbers and text, the verdict on one
 * register against its expected type and range, the tally of verdicts,
 * and the exit status of a validation run.
 */
module ValidateEmulator {
  import opened Common
  import RegisterMap

  // ---------------------------------------------------------------------
  // Register decoders

  /**
   * `registers_to_uint32`: the first word shifted up 16 bits, or-ed with
   * the second (the shifted word has zero low bits, so the `|` adds).
   * Fewer than two words raise IndexError.
   */
  function RegistersToUint32(registers: seq<Word>): (r: Result<int, PyError>)
    ensures r.Ok? <==> |registers| >= 2
    ensures r.Err? ==> r.error == IndexError
    ensures r.Ok? ==> 0 <= r.value < 0x1_0000_0000 && r.value / 0x1_0000 == registers[0] && r.value % 0x1_0000 == registers[1]
  {
    if |registers| < 2 then Err(IndexError)
    else Ok((registers[0] as int) * 0x1_0000 + registers[1] as int)
  }

  /** The decoder undoes the emulator's `_uint32_to_registers`, which keeps a value modulo 2^32. */
  lemma Uint32RoundTrip(v: int)
    ensures RegistersToUint32(RegisterMap.Uint32Words(v)) == Ok(v % 0x1_0000_0000)
  {
    RegisterMap.Uint32WordsWrap(v);
    RegisterMap.Uint32WordsExact(v % 0x1_0000_0000);
  }

  /** The two timestamp registers decode to the shown time, truncated and taken modulo 2^32. */
  lemma TimestampDecodes(src: RegisterMap.Sources, floatBits: real -> Bits32)
    ensures var t := Trunc(if src.data.Some? then src.data.value.timestamp else src.now);
      RegisterMap.Read(RegisterMap.Table(), 31000, 2, src, floatBits).Ok? &&
      RegistersToUint32(RegisterMap.Read(RegisterMap.Table(), 31000, 2, src, floatBits).value) == Ok(t % 0x1_0000_0000) &&
      RegisterMap.Read(RegisterMap.Table(), 31160, 2, src, floatBits).Ok? &&
      RegistersToUint32(RegisterMap.Read(RegisterMap.Table(), 31160, 2, src, floatBits).value) == Ok(t % 0x1_0000_0000)
  {
    RegisterMap.TimestampRead(src, floatBits);
    Uint32RoundTrip(Trunc(if src.data.Some? then src.data.value.timestamp else src.now));
  }

  /**
   * `registers_to_float`: the two words packed big-endian and read back as
   * an IEEE-754 single; `floatOf` stands for that reading of a bit pattern.
   */
  function RegistersToFloat(registers: seq<Word>, floatOf: Bits32 -> real): (r: Result<real, PyError>)
    ensures r.Ok? <==> |registers| >= 2
  {
    match RegistersToUint32(registers)
    case Ok(bits) => Ok(floatOf(bits))
    case Err(e) => Err(e)
  }

  /** Whenever `floatOf` reads back the pattern the emulator wrote for `x`, the decoder returns `x`. */
  lemma FloatRoundTrip(x: real, floatBits: real -> Bits32, floatOf: Bits32 -> real)
    requires floatOf(floatBits(x)) == x
    ensures RegistersToFloat(RegisterMap.FloatWords(x, floatBits), floatOf) == Ok(x)
  {
    var w := RegisterMap.FloatWords(x, floatBits);
    assert RegistersToUint32(w) == Ok(floatBits(x));
  }

  /** `(reg >> 8) & 0xFF` then `reg & 0xFF`. */
  function WordBytes(w: Word): (r: seq<Byte>)
    ensures |r| == 2 && (r[0] as int) * 0x100 + r[1] as int == w
  {
    [w / 0x100, w % 0x100]
  }

  /** Every word's two bytes, high byte first. */
  function Bytes(registers: seq<Word>): (r: seq<Byte>)
    ensures |r| == 2 * |registers|
  {
    if registers == [] then [] else WordBytes(registers[0]) + Bytes(registers[1..])
  }

  /** `chr` of every non-zero byte, in order: a zero byte is skipped wherever it stands. */
  function Visible(bs: seq<Byte>): (r: string)
    ensures |r| <= |bs|
    ensures forall i :: 0 <= i < |r| ==> r[i] != '\0'
  {
    if bs == [] then [] else (if bs[0] != 0 then [bs[0] as char] else []) + Visible(bs[1..])
  }

  /** What `registers_to_string` returns: the visible characters, with trailing NULs stripped. */
  function Decoded(registers: seq<Word>): string {
    RStrip(Visible(Bytes(registers)), '\0')
  }

  lemma {:induction false} BytesAppend(a: seq<Word>, b: seq<Word>)
    ensures Bytes(a + b) == Bytes(a) + Bytes(b)
  {
    if a == [] {
      assert a + b == b;
    } else {
      assert (a + b)[0] == a[0];
      assert (a + b)[1..] == a[1..] + b;
      BytesAppend(a[1..], b);
    }
  }

  lemma {:induction false} VisibleAppend(a: seq<Byte>, b: seq<Byte>)
    ensures Visible(a + b) == Visible(a) + Visible(b)
  {
    if a == [] {
      assert a + b == b;
    } else {
      assert (a + b)[0] == a[0];
      assert (a + b)[1..] == a[1..] + b;
      VisibleAppend(a[1..], b);
    }
  }

  /** The loop's step: one more word appends its visible bytes. */
  lemma DecodeStep(registers: seq<Word>, i: nat)
    requires i < |registers|
    ensures Visible(Bytes(registers[..i + 1])) == Visible(Bytes(registers[..i])) + Visible(WordBytes(registers[i]))
  {
    assert registers[..i + 1] == registers[..i] + [registers[i]];
    BytesAppend(registers[..i], [registers[i]]);
    assert Bytes([registers[i]]) == WordBytes(registers[i]);
    VisibleAppend(Bytes(registers[..i]), WordBytes(registers[i]));
  }

  /** One word shows its high byte, then its low byte, each only when non-zero. */
  lemma VisibleWord(w: Word)
    ensures var high, low := (w / 0x100) % 0x100, w % 0x100;
      Visible(WordBytes(w)) == (if high != 0 then [high as char] else []) + (if low != 0 then [low as char] else [])
  {
    var high, low := (w / 0x100) % 0x100, w % 0x100;
    assert WordBytes(w) == [high, low];
    assert WordBytes(w)[1..] == [low];
    assert Visible([low]) == (if low != 0 then [low as char] else []) + Visible([]);
  }

  /** `registers_to_string`. */
  method RegistersToString(registers: seq<Word>) returns (s: string)
    ensures s == Decoded(registers)
  {
    var result: string := [];
    for i := 0 to |registers|
      invariant result == Visible(Bytes(registers[..i]))
    {
      var high := (registers[i] / 0x100) % 0x100;
      var low := registers[i] % 0x100;
      ghost var before := result;
      if high != 0 {
        result := result + [high as char];
      }
      if low != 0 {
        result := result + [low as char];
      }
      VisibleWord(registers[i]);
      assert result == before + Visible(WordBytes(registers[i]));
      DecodeStep(registers, i);
    }
    assert registers[..|registers|] == registers;
    s := RStrip(result, '\0');
  }

  /** No byte decodes to NUL, so the final `rstrip` never removes anything. */
  lemma DecodedIsVisible(registers: seq<Word>)
    ensures Decoded(registers) == Visible(Bytes(registers))
    ensures forall i :: 0 <= i < |Decoded(registers)| ==> Decoded(registers)[i] != '\0'
  {
    var v := Visible(Bytes(registers));
    assert v == [] || v[|v| - 1] != '\0';
  }

  /** Zero bytes inside the text are dropped too, not only the padding. */
  lemma InnerZerosDropped()
    ensures Decoded([0x4100, 0x0042]) == "AB"
  {
    DecodedIsVisible([0x4100, 0x0042]);
    assert Bytes([0x4100, 0x0042]) == [0x41, 0, 0, 0x42] by {
      assert [0x4100, 0x0042][1..] == [0x0042];
    }
    var bs: seq<Byte> := [0x41, 0, 0, 0x42];
    assert bs[1..] == [0, 0, 0x42] && bs[1..][1..] == [0, 0x42] && bs[1..][1..][1..] == [0x42];
  }

  /** Printable ASCII without NUL: the text for which the register string round-trips. */
  predicate PlainAscii(s: string) {
    forall i :: 0 <= i < |s| ==> 0 < s[i] as int < 0x80
  }

  /** An ASCII string encodes to one byte per character. */
  lemma {:induction false} Utf8Ascii(s: string)
    requires PlainAscii(s)
    ensures |RegisterMap.Utf8(s)| == |s|
    ensures forall i :: 0 <= i < |s| ==> RegisterMap.Utf8(s)[i] == s[i] as int
  {
    if s != [] {
      assert PlainAscii(s[1..]) by {
        forall i | 0 <= i < |s[1..]| ensures 0 < s[1..][i] as int < 0x80 {
          assert s[1..][i] == s[i + 1];
        }
      }
      Utf8Ascii(s[1..]);
      assert RegisterMap.Utf8(s) == [s[0] as int] + RegisterMap.Utf8(s[1..]);
    }
  }

  /** Packing bytes into words and splitting them again gives the bytes back. */
  lemma {:induction false} BytesOfPacked(bs: seq<Byte>)
    requires |bs| % 2 == 0
    ensures Bytes(RegisterMap.PackBytes(bs)) == bs
    decreases |bs|
  {
    if bs != [] {
      var p := RegisterMap.PackBytes(bs);
      assert p == [RegisterMap.Pair(bs[0], bs[1])] + RegisterMap.PackBytes(bs[2..]);
      assert p[1..] == RegisterMap.PackBytes(bs[2..]);
      BytesOfPacked(bs[2..]);
      assert WordBytes(p[0]) == [bs[0], bs[1]];
      assert bs == [bs[0], bs[1]] + bs[2..];
    }
  }

  /** Bytes that are the codes of a NUL-free text decode to that text. */
  lemma {:induction false} VisibleCodes(bs: seq<Byte>, t: string)
    requires |bs| == |t|
    requires forall i :: 0 <= i < |t| ==> bs[i] == t[i] as int && t[i] != '\0'
    ensures Visible(bs) == t
  {
    if bs != [] {
      VisibleCodes(bs[1..], t[1..]);
      assert t == [t[0]] + t[1..];
    }
  }

  lemma {:induction false} VisibleZeros(bs: seq<Byte>)
    requires forall i :: 0 <= i < |bs| ==> bs[i] == 0
    ensures Visible(bs) == []
  {
    if bs != [] {
      VisibleZeros(bs[1..]);
    }
  }

  /**
   * Round trip with the emulator's string encoder: an ASCII text without
   * NUL written into `words` registers is read back cut to `2 * words`
   * characters.
   */
  lemma StringRoundTrip(s: string, words: nat)
    requires PlainAscii(s)
    ensures Decoded(RegisterMap.StringWords(s, words)) == if |s| <= 2 * words then s else s[..2 * words]
  {
    var u := RegisterMap.Utf8(s);
    Utf8Ascii(s);
    var padded := RegisterMap.PadBytes(u, 2 * words);
    BytesOfPacked(padded);
    DecodedIsVisible(RegisterMap.StringWords(s, words));
    if |s| <= 2 * words {
      assert padded == padded[..|s|] + padded[|s|..];
      VisibleCodes(padded[..|s|], s);
      VisibleZeros(padded[|s|..]);
      VisibleAppend(padded[..|s|], padded[|s|..]);
    } else {
      VisibleCodes(padded, s[..2 * words]);
    }
  }

  /** The model and name registers hand an ASCII model or name back, cut to 20 and 32 characters. */
  lemma ModelAndNameDecode(src: RegisterMap.Sources, floatBits: real -> Bits32)
    ensures PlainAscii(src.model) ==>
      RegisterMap.Read(RegisterMap.Table(), 30006, 10, src, floatBits).Ok? &&
      Decoded(RegisterMap.Read(RegisterMap.Table(), 30006, 10, src, floatBits).value) == if |src.model| <= 20 then src.model else src.model[..20]
    ensures PlainAscii(src.name) ==>
      RegisterMap.Read(RegisterMap.Table(), 30016, 16, src, floatBits).Ok? &&
      Decoded(RegisterMap.Read(RegisterMap.Table(), 30016, 16, src, floatBits).value) == if |src.name| <= 32 then src.name else src.name[..32]
  {
    RegisterMap.StringRegisters(src, floatBits);
    if PlainAscii(src.model) {
      StringRoundTrip(src.model, 10);
    }
    if PlainAscii(src.name) {
      StringRoundTrip(src.name, 16);
    }
  }

  // ---------------------------------------------------------------------
  // Verdict on one register

  datatype TestResult = Pass | Fail | Warn | Skip

  /** `RegisterSpec`: where to read, how many words, the expected type and, for floats, the optional range. */
  datatype RegisterSpec = RegisterSpec(address: int, size: int, dataType: string, minValue: Option<real>, maxValue: Option<real>)

  /** Which branch produced a verdict, with the value its message shows. */
  datatype Detail =
    | ReadFailed
    | BelowMin(value: real, bound: real)
    | AboveMax(value: real, bound: real)
    | FloatValue(value: real)
    | IntValue(n: int)
    | BoolValue(b: bool)
    | TextValue(s: string)
    | WordsValue(words: seq<Word>)
    | ParseError(error: PyError)
    | UnknownType(dataType: string)

  datatype Verdict = Verdict(result: TestResult, detail: Detail)

  /**
   * `validate_register`. The read is the parameter `read` (None when the
   * client gets no answer); a decoder's exception becomes a FAIL with a
   * parse error.
   */
  function ValidateRegister(spec: RegisterSpec, read: (int, int) -> Option<seq<Word>>, floatOf: Bits32 -> real): Verdict {
    var registers := read(spec.address, spec.size);
    if registers.None? then Verdict(Fail, ReadFailed)
    else
      var regs := registers.value;
      if spec.dataType == "float" then
        match RegistersToFloat(regs, floatOf)
        case Err(e) => Verdict(Fail, ParseError(e))
        case Ok(value) =>
          if spec.minValue.Some? && value < spec.minValue.value then Verdict(Warn, BelowMin(value, spec.minValue.value))
          else if spec.maxValue.Some? && value > spec.maxValue.value then Verdict(Warn, AboveMax(value, spec.maxValue.value))
          else Verdict(Pass, FloatValue(value))
      else if spec.dataType == "uint32" then
        match RegistersToUint32(regs)
        case Err(e) => Verdict(Fail, ParseError(e))
        case Ok(n) => Verdict(Pass, IntValue(n))
      else if spec.dataType == "uint16" then
        if |regs| == 0 then Verdict(Fail, ParseError(IndexError)) else Verdict(Pass, IntValue(regs[0]))
      else if spec.dataType == "boolean" then
        if |regs| == 0 then Verdict(Fail, ParseError(IndexError)) else Verdict(Pass, BoolValue(regs[0] != 0))
      else if spec.dataType == "string" then Verdict(Pass, TextValue(Decoded(regs)))
      else if spec.dataType == "bytes" then Verdict(Pass, WordsValue(regs))
      else Verdict(Skip, UnknownType(spec.dataType))
  }

  const KnownTypes: set<string> := {"float", "uint32", "uint16", "boolean", "string", "bytes"}

  /** How many words a type's decoder indexes into. */
  function WordsNeeded(dataType: string): nat {
    if dataType == "float" || dataType == "uint32" then 2
    else if dataType == "uint16" || dataType == "boolean" then 1
    else 0
  }

  /** A register fails exactly when the read fails or answers fewer words than its decoder indexes. */
  lemma FailIff(spec: RegisterSpec, read: (int, int) -> Option<seq<Word>>, floatOf: Bits32 -> real)
    ensures var registers := read(spec.address, spec.size);
      ValidateRegister(spec, read, floatOf).result == Fail <==>
        registers.None? || |registers.value| < WordsNeeded(spec.dataType)
  {
  }

  /** Only an unknown type is skipped, and only when the read succeeded. */
  lemma SkipIff(spec: RegisterSpec, read: (int, int) -> Option<seq<Word>>, floatOf: Bits32 -> real)
    ensures ValidateRegister(spec, read, floatOf).result == Skip <==>
      read(spec.address, spec.size).Some? && spec.dataType !in KnownTypes
  {
  }

  /**
   * A float that decodes is a WARN exactly when it lies below the minimum
   * or above the maximum given; the minimum is checked first, and only
   * floats are ever range-checked.
   */
  lemma FloatRange(spec: RegisterSpec, read: (int, int) -> Option<seq<Word>>, floatOf: Bits32 -> real)
    ensures var registers := read(spec.address, spec.size);
      var v := ValidateRegister(spec, read, floatOf);
      spec.dataType == "float" && registers.Some? && |registers.value| >= 2 ==>
        var value := floatOf(RegistersToUint32(registers.value).value);
        var below := spec.minValue.Some? && value < spec.minValue.value;
        var above := spec.maxValue.Some? && value > spec.maxValue.value;
        (v.result == Warn <==> below || above) &&
        (v.result == Pass <==> !below && !above) &&
        (v.detail.BelowMin? <==> below) &&
        (v.detail.AboveMax? <==> above && !below)
    ensures ValidateRegister(spec, read, floatOf).result == Warn ==> spec.dataType == "float"
  {
  }

  // ---------------------------------------------------------------------
  // Tally and exit status

  /** The `{"pass", "fail", "warn", "skip"}` counters. */
  datatype Totals = Totals(pass: nat, fail: nat, warn: nat, skip: nat)

  /** `results[result.value.lower()] += 1`. */
  function Bump(t: Totals, r: TestResult): Totals {
    match r
    case Pass => t.(pass := t.pass + 1)
    case Fail => t.(fail := t.fail + 1)
    case Warn => t.(warn := t.warn + 1)
    case Skip => t.(skip := t.skip + 1)
  }

  /** The counters after seeing `results` in order. */
  function Count(results: seq<TestResult>): Totals
    decreases |results|
  {
    if results == [] then Totals(0, 0, 0, 0)
    else Bump(Count(results[..|results| - 1]), results[|results| - 1])
  }

  /** Each counter is the number of results of its kind, so the counters add up to the number of results. */
  lemma {:induction false} CountIsMultiplicity(results: seq<TestResult>)
    ensures Count(results) == Totals(multiset(results)[Pass], multiset(results)[Fail], multiset(results)[Warn], multiset(results)[Skip])
    ensures Count(results).pass + Count(results).fail + Count(results).warn + Count(results).skip == |results|
    decreases |results|
  {
    if results != [] {
      var n := |results| - 1;
      assert results == results[..n] + [results[n]];
      assert multiset(results) == multiset(results[..n]) + multiset{results[n]};
      CountIsMultiplicity(results[..n]);
    }
  }

  /** The verdict of every register, in table order. */
  function Outcomes(specs: seq<RegisterSpec>, read: (int, int) -> Option<seq<Word>>, floatOf: Bits32 -> real): (r: seq<TestResult>)
    ensures |r| == |specs|
    ensures forall i :: 0 <= i < |specs| ==> r[i] == ValidateRegister(specs[i], read, floatOf).result
  {
    seq(|specs|, i requires 0 <= i < |specs| => ValidateRegister(specs[i], read, floatOf).result)
  }

  /** `validate_modbus_registers`: validate each register in turn and count the verdicts. */
  method ValidateModbusRegisters(specs: seq<RegisterSpec>, read: (int, int) -> Option<seq<Word>>, floatOf: Bits32 -> real)
    returns (t: Totals)
    ensures t == Count(Outcomes(specs, read, floatOf))
    ensures t.pass + t.fail + t.warn + t.skip == |specs|
  {
    ghost var outcomes := Outcomes(specs, read, floatOf);
    t := Totals(0, 0, 0, 0);
    for i := 0 to |specs|
      invariant t == Count(outcomes[..i])
    {
      var verdict := ValidateRegister(specs[i], read, floatOf);
      assert outcomes[..i + 1][..i] == outcomes[..i];
      t := Bump(t, verdict.result);
    }
    assert outcomes[..|specs|] == outcomes;
    CountIsMultiplicity(outcomes);
  }

  /** The UDP checks count only pass, fail and warn. */
  datatype UdpTotals = UdpTotals(pass: nat, fail: nat, warn: nat)

  /**
   * The totals `main` reports: the Modbus counters unless skipped (a
   * failed connection, `None`, counts one failure), plus the UDP counters
   * unless skipped.
   */
  function RunTotals(skipModbus: bool, modbus: Option<Totals>, skipUdp: bool, udp: UdpTotals): Totals {
    var t0 := Totals(0, 0, 0, 0);
    var t1 :=
      if skipModbus then t0
      else if modbus.Some? then modbus.value
      else t0.(fail := t0.fail + 1);
    if skipUdp then t1
    else t1.(pass := t1.pass + udp.pass, fail := t1.fail + udp.fail, warn := t1.warn + udp.warn)
  }

  /** `main`'s return value: 1 after any failure, else 0, with or without warnings. */
  function ExitCode(t: Totals): int {
    if t.fail > 0 then 1
    else if t.warn > 0 then 0
    else 0
  }

  /**
   * A run exits with 1 exactly when a Modbus register failed or the Modbus
   * connection failed (unless skipped), or a UDP check failed (unless
   * skipped); otherwise it exits with 0, whatever the warnings.
   */
  lemma ExitCodeRule(skipModbus: bool, modbus: Option<seq<TestResult>>, skipUdp: bool, udp: UdpTotals)
    ensures var t := RunTotals(skipModbus, if modbus.Some? then Some(Count(modbus.value)) else None, skipUdp, udp);
      ExitCode(t) == 1 <==> (!skipModbus && (modbus.None? || Fail in modbus.value)) || (!skipUdp && udp.fail > 0)
  {
    if modbus.Some? {
      CountIsMultiplicity(modbus.value);
    }
  }

  /** Warnings never change the exit status. */
  lemma WarningsDoNotFail(t: Totals, w: nat)
    ensures ExitCode(t.(warn := w)) == ExitCode(t)
    ensures ExitCode(t) == 0 || ExitCode(t) == 1
  {
  }
}
