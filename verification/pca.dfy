/**
 * The I2C link to the PCA-style PWM chip. The chip is seen through a mirror
 * of its registers (the values the library has written, keyed by register
 * address) and the ordered log of bus transactions that produced it; the
 * mirror is always the log replayed on an empty map.
 */
module Pca {
  import opened Common
  import opened Encoding

  /** One bus transaction. */
  datatype BusOp =
    | GeneralCall(address: int, command: int)      // a bare byte sent to a bus address (`writeto`)
    | MemWrite(device: int, reg: int, value: int)  // one byte written into one register (`writeto_mem`)

  /**
   * Effect of one transaction on the chip's registers: a register write
   * addressed to the chip stores its byte; anything else leaves them alone.
   */
  function Step(regs: map<int, int>, op: BusOp): map<int, int>
  {
    if op.MemWrite? && op.device == ChipAddress then regs[op.reg := op.value] else regs
  }

  /** The registers after the transactions `ops`, issued in order, starting from `regs`. */
  function Apply(regs: map<int, int>, ops: seq<BusOp>): map<int, int>
    decreases |ops|
  {
    if ops == [] then regs else Step(Apply(regs, ops[..|ops| - 1]), ops[|ops| - 1])
  }

  /** The chip registers that `ops` write. */
  function Written(ops: seq<BusOp>): set<int>
    decreases |ops|
  {
    if ops == [] then {}
    else
      var last := ops[|ops| - 1];
      Written(ops[..|ops| - 1]) + (if last.MemWrite? && last.device == ChipAddress then {last.reg} else {})
  }

  predicate AllBytes(regs: map<int, int>)
  {
    forall r :: r in regs ==> IsByte(regs[r])
  }

  /** The 16-bit count held by the register pair starting at `reg`, low byte first. */
  function PairValue(regs: map<int, int>, reg: int): int
    requires reg in regs && reg + 1 in regs
  {
    regs[reg + 1] * 256 + regs[reg]
  }

  /** One more transaction: its step applied after the others. */
  lemma ApplySnoc(regs: map<int, int>, ops: seq<BusOp>, op: BusOp)
    ensures Apply(regs, ops + [op]) == Step(Apply(regs, ops), op)
    ensures Written(ops + [op]) == Written(ops) + (if op.MemWrite? && op.device == ChipAddress then {op.reg} else {})
  {
    assert (ops + [op])[..|ops|] == ops;
  }

  /** Issuing `a` then `b` is issuing `a + b`. */
  lemma {:induction false} ApplyAppend(regs: map<int, int>, a: seq<BusOp>, b: seq<BusOp>)
    ensures Apply(regs, a + b) == Apply(Apply(regs, a), b)
    decreases |b|
  {
    if b == [] {
      assert a + b == a;
    } else {
      var front := b[..|b| - 1];
      assert (a + b)[..|a + b| - 1] == a + front;
      ApplyAppend(regs, a, front);
    }
  }

  /** A register no transaction writes keeps its value (or stays absent). */
  lemma {:induction false} ApplyOutside(regs: map<int, int>, ops: seq<BusOp>, r: int)
    requires r !in Written(ops)
    ensures SameAt(Apply(regs, ops), regs, r)
    decreases |ops|
  {
    if ops != [] {
      ApplyOutside(regs, ops[..|ops| - 1], r);
    }
  }

  /** Two transactions in a row. */
  lemma ApplyTwo(regs: map<int, int>, a: BusOp, b: BusOp)
    ensures Apply(regs, [a, b]) == Step(Step(regs, a), b)
    ensures Written([a, b]) == Written([a]) + Written([b])
  {
    ApplySnoc(regs, [], a);
    ApplySnoc(regs, [a], b);
    assert [a] + [b] == [a, b];
  }

  /** Four transactions in a row. */
  lemma ApplyFour(regs: map<int, int>, a: BusOp, b: BusOp, c: BusOp, d: BusOp)
    ensures Apply(regs, [a, b, c, d]) == Step(Step(Step(Step(regs, a), b), c), d)
    ensures Written([a, b, c, d]) == Written([a]) + Written([b]) + Written([c]) + Written([d])
  {
    var ab := [a, b];
    var abc := ab + [c];
    ApplyTwo(regs, a, b);
    ApplySnoc(regs, ab, c);
    ApplySnoc(regs, abc, d);
    assert abc + [d] == [a, b, c, d];
  }

  // ---------------------------------------------------------------------------
  // Chip bring-up

  /**
   * The bring-up sequence: the software-reset byte 0x06 to the general-call
   * address 0, the prescale 0x78 (50 Hz, a 20 ms period), the four ALL_LED
   * registers cleared, and MODE1 set to 0x01 to leave sleep.
   */
  function InitOps(): seq<BusOp>
  {
    [ GeneralCall(0, 0x06),
      MemWrite(ChipAddress, 0xFE, 0x78),
      MemWrite(ChipAddress, 0xFA, 0x00),
      MemWrite(ChipAddress, 0xFB, 0x00),
      MemWrite(ChipAddress, 0xFC, 0x00),
      MemWrite(ChipAddress, 0xFD, 0x00),
      MemWrite(ChipAddress, 0x00, 0x01) ]
  }

  /**
   * After bring-up the prescale reads 0x78, the ALL_LED registers 0 and
   * MODE1 0x01, whatever the registers held before; no other register changes.
   */
  lemma InitState(regs: map<int, int>)
    ensures var after := Apply(regs, InitOps());
      ControlRegs <= after.Keys &&
      after[0xFE] == 0x78 &&
      after[0xFA] == 0 && after[0xFB] == 0 && after[0xFC] == 0 && after[0xFD] == 0 &&
      after[0x00] == 0x01 &&
      forall r :: r !in ControlRegs ==> SameAt(after, regs, r)
  {
    var ops := InitOps();
    var p0: seq<BusOp> := [];
    ApplySnoc(regs, p0, ops[0]);
    var p1 := p0 + [ops[0]];
    ApplySnoc(regs, p1, ops[1]);
    var p2 := p1 + [ops[1]];
    ApplySnoc(regs, p2, ops[2]);
    var p3 := p2 + [ops[2]];
    ApplySnoc(regs, p3, ops[3]);
    var p4 := p3 + [ops[3]];
    ApplySnoc(regs, p4, ops[4]);
    var p5 := p4 + [ops[4]];
    ApplySnoc(regs, p5, ops[5]);
    var p6 := p5 + [ops[5]];
    ApplySnoc(regs, p6, ops[6]);
    assert p6 + [ops[6]] == ops;
    forall r | r !in ControlRegs
      ensures SameAt(Apply(regs, ops), regs, r)
    {
      ApplyOutside(regs, ops, r);
    }
  }

  /** The chip as the driver sees it: the register mirror and the bus log. */
  class Pca9685 {
    var regs: map<int, int>
    var log: seq<BusOp>

    /** The mirror is the log replayed, and every register holds a byte. */
    ghost predicate Valid()
      reads this
    {
      regs == Apply(map[], log) && AllBytes(regs)
    }

    constructor ()
      ensures Valid() && regs == map[] && log == []
    {
      regs := map[];
      log := [];
    }

    /** Sends the byte `command` to bus address `address`. */
    method WriteTo(address: int, command: int)
      requires Valid()
      modifies this
      ensures Valid()
      ensures log == old(log) + [GeneralCall(address, command)]
      ensures regs == old(regs)
    {
      log := log + [GeneralCall(address, command)];
      assert log[..|log| - 1] == old(log);
    }

    /** Writes the byte `value` into register `reg` of the device at `device`. */
    method WriteToMem(device: int, reg: int, value: int)
      requires Valid() && IsByte(value)
      modifies this
      ensures Valid()
      ensures log == old(log) + [MemWrite(device, reg, value)]
      ensures regs == if device == ChipAddress then old(regs)[reg := value] else old(regs)
    {
      if device == ChipAddress {
        regs := regs[reg := value];
      }
      log := log + [MemWrite(device, reg, value)];
      assert log[..|log| - 1] == old(log);
    }

    /** Software reset: the byte 0x06 to the general-call address. */
    method SwReset()
      requires Valid()
      modifies this
      ensures Valid()
      ensures log == old(log) + [GeneralCall(0, 0x06)]
      ensures regs == old(regs)
    {
      WriteTo(0, 0x06);
    }

    /** Runs the bring-up sequence, in its fixed order. */
    method InitPCA()
      requires Valid()
      modifies this
      ensures Valid()
      ensures log == old(log) + InitOps()
      ensures regs == Apply(old(regs), InitOps())
    {
      SwReset();
      WriteToMem(ChipAddress, 0xFE, 0x78);
      WriteToMem(ChipAddress, 0xFA, 0x00);
      WriteToMem(ChipAddress, 0xFB, 0x00);
      WriteToMem(ChipAddress, 0xFC, 0x00);
      WriteToMem(ChipAddress, 0xFD, 0x00);
      WriteToMem(ChipAddress, 0x00, 0x01);
      ApplyAppend(map[], old(log), InitOps());
    }
  }
}
