/**
 * The Modbus device context: which reads are accepted, and how a read of
 * holding registers (function code 3) or input registers (function code
 * 4, sections 6.3 and 6.4 of the MODBUS Application Protocol
 * Specification V1.1b3) is answered from the register map after the
 * current snapshot is installed. Writes are refused by doing nothing.
 */
module ModbusServer {
  import opened Common
  import DataManager
  import RegisterMap

  /** The read function codes the device answers. */
  predicate IsReadCode(fc: int) {
    fc == 3 || fc == 4
  }

  predicate InDeviceInfoWindow(address: int) {
    30000 <= address <= 30099
  }

  predicate InEmWindow(address: int) {
    31000 <= address <= 31079
  }

  predicate InEmDataWindow(address: int) {
    31160 <= address <= 31229
  }

  /** `validate`: a read code and a start address inside one of the three windows. */
  function Validate(fc: int, address: int, count: int): bool {
    if fc == 3 || fc == 4 then
      if 30000 <= address <= 30099 then true
      else if 31000 <= address <= 31079 then true
      else if 31160 <= address <= 31229 then true
      else false
    else false
  }

  /** The count of a request never changes the verdict, and the write codes 5, 6 and 16 are always refused. */
  lemma ValidateIgnoresCount(fc: int, address: int, c1: int, c2: int)
    ensures Validate(fc, address, c1) == Validate(fc, address, c2)
    ensures !Validate(5, address, c1) && !Validate(6, address, c1) && !Validate(16, address, c1)
  {
  }

  /** The three accepted windows do not overlap. */
  lemma WindowsDisjoint(address: int)
    ensures !(InDeviceInfoWindow(address) && InEmWindow(address))
    ensures !(InDeviceInfoWindow(address) && InEmDataWindow(address))
    ensures !(InEmWindow(address) && InEmDataWindow(address))
  {
  }

  /** An accepted start address lies in one of the three windows, and each window is accepted from end to end. */
  lemma ValidateWindows(fc: int, address: int, count: int)
    ensures Validate(fc, address, count) ==> InDeviceInfoWindow(address) || InEmWindow(address) || InEmDataWindow(address)
    ensures IsReadCode(fc) && (InDeviceInfoWindow(address) || InEmWindow(address) || InEmDataWindow(address)) ==> Validate(fc, address, count)
  {
  }

  /**
   * Every word of every defined register lies inside an accepted window,
   * so a read with code 3 or 4 starting anywhere in a register is accepted.
   */
  lemma RegisterWordsWithinWindows(fc: int, address: int, count: int, o: int)
    requires IsReadCode(fc) && address in RegisterMap.Table() && 0 <= o < RegisterMap.Table()[address].size
    ensures Validate(fc, address + o, count)
  {
    RegisterMap.TableLookup(address);
    if 31020 <= address < 31080 {
      RegisterMap.EmPhaseEnd(address);
    } else if 31170 <= address < 31230 {
      RegisterMap.EmDataPhaseEnd(address);
    }
  }

  /** `[0] * count`. */
  function Zeros(count: int): (r: seq<Word>)
    ensures |r| == if count < 0 then 0 else count
    ensures forall i :: 0 <= i < |r| ==> r[i] == 0
  {
    if count <= 0 then [] else seq(count, _ => 0)
  }

  /** The answer to a read request, given the installed snapshot. */
  function Answer(regs: map<int, RegisterMap.RegisterDefinition>, fc: int, address: int, count: int, src: RegisterMap.Sources, floatBits: real -> Bits32): Result<seq<Word>, PyError> {
    if IsReadCode(fc) then RegisterMap.Read(regs, address, count, src, floatBits) else Ok(Zeros(count))
  }

  /**
   * Any request on the built table answers exactly `count` words (none
   * for a negative count); only a MAC that does not decode to six bytes
   * can make a read fail, and other codes always answer zeros.
   */
  lemma AnswerLength(fc: int, address: int, count: int, src: RegisterMap.Sources, floatBits: real -> Bits32)
    requires src.macBytes.Ok? && |src.macBytes.value| >= 6
    ensures Answer(RegisterMap.Table(), fc, address, count, src, floatBits).Ok?
    ensures |Answer(RegisterMap.Table(), fc, address, count, src, floatBits).value| == if count < 0 then 0 else count
    ensures !IsReadCode(fc) ==> Answer(RegisterMap.Table(), fc, address, count, src, floatBits) == Ok(Zeros(count))
  {
    if IsReadCode(fc) && count >= 0 {
      RegisterMap.ReadIsTotal(address, count, src, floatBits);
    } else if IsReadCode(fc) {
      assert RegisterMap.Walk(RegisterMap.Table(), address, count, src, floatBits) == Ok([]);
    }
  }

  /** `CustomModbusDeviceContext`: reads go to the register map, fed from the data manager. */
  class DeviceContext {
    const registerMap: RegisterMap.RegisterMap
    const dataManager: DataManager.DataManager

    constructor (registerMap: RegisterMap.RegisterMap, dataManager: DataManager.DataManager)
      ensures this.registerMap == registerMap && this.dataManager == dataManager
    {
      this.registerMap := registerMap;
      this.dataManager := dataManager;
    }

    /**
     * `getValues`: install the data manager's current snapshot in the
     * register map, then answer the read; the table itself is untouched.
     */
    method GetValues(fc: int, address: int, count: int, now: real, floatBits: real -> Bits32)
      returns (r: Result<seq<Word>, PyError>)
      modifies registerMap
      ensures registerMap.data == Some(dataManager.data) && registerMap.registers == old(registerMap.registers)
      ensures r == Answer(registerMap.registers, fc, address, count, registerMap.SourcesAt(now), floatBits)
      ensures r.Ok? ==> |r.value| == if count < 0 then 0 else count
    {
      var data := dataManager.GetData();
      registerMap.SetData(data);
      if fc == 3 || fc == 4 {
        r := registerMap.ReadRegisters(address, count, now, floatBits);
        return;
      }
      return Ok(Zeros(count));
    }

    /** `setValues`: the device is read-only; a write changes neither the table nor the snapshot. */
    method SetValues(fc: int, address: int, values: seq<Word>)
      ensures unchanged(registerMap) && unchanged(dataManager)
    {
    }
  }
}
