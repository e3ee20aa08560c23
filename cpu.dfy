/**
 * The CPU struct and the operations that update it in place. Alu, Exec,
 * Step, Run, Init and Load are proved to have the effect the corresponding
 * function of Machine gives; RamRead is a function on the struct and
 * RamWrite states its new state directly.
 */
module Ls8 {
  import opened Isa
  import M = Machine

  class Cpu {
    var ram: array<byte>
    var registers: array<byte>
    var pc: byte
    var fl: byte
    var e: bool
    var l: bool
    var g: bool
    /** What PRN has written to standard output, one value per line. */
    var output: seq<byte>

    ghost predicate Valid()
      reads this
    {
      ram.Length == 256 && registers.Length == 8 && ram != registers
    }

    /** The state held in the struct. */
    function Abs(): M.State
      reads this, ram, registers
      requires Valid()
    {
      M.State(ram[..], registers[..], pc, fl, e, l, g, output)
    }

    /** A CPU struct whose contents are not yet initialised. */
    constructor ()
      ensures Valid() && fresh(ram) && fresh(registers) && output == []
    {
      ram := new byte[256];
      registers := new byte[8];
      output := [];
    }

    function RamRead(address: byte): (v: byte)
      reads this, ram
      requires Valid()
      ensures v == Abs().ram[address]
    {
      ram[address]
    }

    method RamWrite(address: byte, value: byte)
      requires Valid()
      modifies ram
      ensures Valid()
      ensures Abs() == old(Abs()).(ram := old(Abs()).ram[address := value])
    {
      ram[address] := value;
    }

    method Alu(op: M.AluOp, regA: byte, regB: byte)
      requires Valid() && regA < 8 && regB < 8
      modifies this, registers
      ensures Valid() && ram == old(ram) && registers == old(registers)
      ensures Abs() == M.Alu(op, old(Abs()), regA, regB)
    {
      match op
      case AluMul =>
        registers[regA] := Wrap(registers[regA] as int * registers[regB] as int);
      case AluAdd =>
        registers[regA] := Wrap(registers[regA] as int + registers[regB] as int);
      case AluCmp =>
        if registers[regA] == registers[regB] {
          e := true;
        } else if registers[regA] < registers[regB] {
          l := true;
        } else {
          g := true;
        }
    }

    /** The switch of the run loop, for a recognised opcode; `nextLine` is the width. */
    method Exec(op: Op, operandA: byte, operandB: byte, nextLine: nat) returns (status: M.Status)
      requires Valid()
      modifies this, ram, registers
      ensures Valid() && ram == old(ram) && registers == old(registers)
      ensures M.Next(status, Abs()) == M.Exec(op, old(Abs()), operandA, operandB, Wrap(old(pc) as int + nextLine))
    {
      status := M.Running;
      match op {
        case Add =>
          if !(operandA < 8 && operandB < 8) { return M.Undefined; }
          Alu(M.AluAdd, operandA, operandB);
        case Mul =>
          if !(operandA < 8 && operandB < 8) { return M.Undefined; }
          Alu(M.AluMul, operandA, operandB);
        case Ldi =>
          if operandA >= 8 { return M.Undefined; }
          registers[operandA] := operandB;
        case Prn =>
          if operandA >= 8 { return M.Undefined; }
          output := output + [registers[operandA]];
        case Push =>
          if operandA >= SP { return M.Undefined; }
          registers[SP] := Wrap(registers[SP] as int - 1);
          RamWrite(registers[SP], registers[operandA]);
        case Pop =>
          if operandA >= 8 { return M.Undefined; }
          var sp := registers[SP];
          registers[SP] := Wrap(sp as int + 1);
          registers[operandA] := RamRead(sp);
        case Call =>
          if operandA >= 8 { return M.Undefined; }
          registers[SP] := Wrap(registers[SP] as int - 1);
          ram[registers[SP]] := Wrap(pc as int + nextLine);
          pc := registers[operandA];
          return;
        case Ret =>
          var sp := registers[SP];
          registers[SP] := Wrap(sp as int + 1);
          pc := ram[sp];
          return;
        case Cmp =>
          if !(operandA < 8 && operandB < 8) { return M.Undefined; }
          Alu(M.AluCmp, operandA, operandB);
        case Hlt =>
          status := M.Halted;
      }
      pc := Wrap(pc as int + nextLine);
    }

    /** One cycle of the run loop: fetch, decode the width, execute, advance. */
    method Step() returns (status: M.Status)
      requires Valid()
      modifies this, ram, registers
      ensures Valid() && ram == old(ram) && registers == old(registers)
      ensures M.Next(status, Abs()) == M.Step(old(Abs()))
    {
      ghost var s := Abs();
      var ir := RamRead(pc);
      // Operand bytes the width does not cover are never read (Machine.ExecReadsOnlyItsOperands).
      var operandA: byte := 0;
      var operandB: byte := 0;
      var nextLine := 1;
      if Bit7(ir) {
        operandA := RamRead(Wrap(pc as int + 1));
        operandB := RamRead(Wrap(pc as int + 2));
        nextLine := 3;
      } else if Bit6(ir) {
        operandA := RamRead(Wrap(pc as int + 1));
        nextLine := 2;
      }
      assert nextLine == Width(ir);
      match Decode(ir) {
        case None =>
          status := M.Running;
          pc := Wrap(pc as int + nextLine);
        case Some(op) =>
          M.ExecReadsOnlyItsOperands(op, s, operandA, operandB, M.OperandA(s), M.OperandB(s), M.Advance(s));
          status := Exec(op, operandA, operandB, nextLine);
      }
    }

    /** The run loop, cut off after `fuel` cycles; it otherwise stops only at HLT. */
    method Run(fuel: nat) returns (status: M.Status)
      requires Valid()
      modifies this, ram, registers
      ensures Valid() && ram == old(ram) && registers == old(registers)
      ensures M.Next(status, Abs()) == M.Run(old(Abs()), fuel)
    {
      status := M.Running;
      var left := fuel;
      while status == M.Running && left > 0
        invariant Valid() && ram == old(ram) && registers == old(registers)
        invariant M.Run(old(Abs()), fuel) == if status == M.Running then M.Run(Abs(), left) else M.Next(status, Abs())
        decreases left
      {
        status := Step();
        left := left - 1;
      }
    }

    method Init()
      requires Valid()
      modifies this, ram, registers
      ensures Valid() && ram == old(ram) && registers == old(registers)
      ensures Abs() == M.Init(old(Abs()))
    {
      pc := 0;
      fl := 0;
      e := false;
      l := false;
      g := false;
      forall k | 0 <= k < 8 {
        ram[k] := 0;
      }
      forall k | 0 <= k < 8 {
        registers[k] := 0;
      }
      registers[SP] := StackTop;
      assert ram[..] == seq(8, i => 0 as byte) + old(ram[..])[8..];
    }

    /** Places the program's bytes at ascending addresses from 0; lines whose parse consumed nothing are skipped. */
    method Load(lines: seq<Option<nat>>)
      requires Valid() && |M.Placed(lines)| <= 256
      modifies ram
      ensures Valid()
      ensures Abs() == M.Load(old(Abs()), lines)
    {
      var address := 0;
      var i := 0;
      while i < |lines|
        invariant 0 <= i <= |lines|
        invariant address == |M.Placed(lines[..i])| <= 256
        invariant ram[..address] == M.Placed(lines[..i])
        invariant ram[address..] == old(ram[..])[address..]
      {
        M.PlacedNext(lines, i);
        match lines[i] {
          case None =>
          case Some(v) =>
            ram[address] := Wrap(v);
            assert ram[..address + 1] == ram[..address] + [Wrap(v)];
            address := address + 1;
        }
        i := i + 1;
      }
      assert lines[..|lines|] == lines;
      assert ram[..] == ram[..address] + ram[address..];
    }
  }
}
