/**
 * The LS-8 machine as values: its state and the effect of the ALU, of one
 * fetch-decode-execute cycle, of a bounded run, of initialisation and of
 * program loading. The class in cpu.dfy is proved to implement these.
 */
module Machine {
  import opened Isa

  type Memory = m: seq<byte> | |m| == 256 witness seq(256, i => 0 as byte)
  type RegisterFile = r: seq<byte> | |r| == 8 witness seq(8, i => 0 as byte)

  /**
   * Everything the CPU holds: 256 bytes of RAM, 8 registers, the PC, the
   * (unused) FL byte and the three condition flags; `out` is what PRN has
   * written so far, one value per output line.
   */
  datatype State = State(
    ram: Memory,
    regs: RegisterFile,
    pc: byte,
    fl: byte,
    e: bool,
    l: bool,
    g: bool,
    out: seq<byte>)

  /** Running: the loop goes on. Halted: HLT was executed. Undefined: the C program's behaviour is undefined. */
  datatype Status = Running | Halted | Undefined

  datatype Next = Next(status: Status, post: State)

  datatype AluOp = AluMul | AluAdd | AluCmp

  /** Registers other than `i` hold what they held. */
  predicate OtherRegsUnchanged(s: RegisterFile, t: RegisterFile, i: int)
  {
    forall j :: 0 <= j < 8 && j != i ==> t[j] == s[j]
  }

  /** FL, the condition flags and the output are as before. */
  predicate SameFlagsAndOutput(s: State, t: State)
  {
    t.fl == s.fl && t.e == s.e && t.l == s.l && t.g == s.g && t.out == s.out
  }

  /** The flags and everything but the registers are as before. */
  predicate SameButRegs(s: State, t: State)
  {
    t.ram == s.ram && t.pc == s.pc && SameFlagsAndOutput(s, t)
  }

  /** The ALU on registers `a` and `b`. */
  function Alu(op: AluOp, s: State, a: byte, b: byte): (r: State)
    requires a < 8 && b < 8
    ensures op != AluCmp ==> SameButRegs(s, r)
    ensures op != AluCmp ==> OtherRegsUnchanged(s.regs, r.regs, a as int)
    ensures op == AluAdd ==> r.regs[a] as int == (s.regs[a] as int + s.regs[b] as int) % 256
    ensures op == AluMul ==> r.regs[a] as int == (s.regs[a] as int * s.regs[b] as int) % 256
    ensures op == AluCmp ==>
      r.regs == s.regs && r.ram == s.ram && r.pc == s.pc && r.fl == s.fl && r.out == s.out
      && r.e == (s.e || s.regs[a] == s.regs[b])
      && r.l == (s.l || s.regs[a] < s.regs[b])
      && r.g == (s.g || s.regs[a] > s.regs[b])
  {
    match op
    case AluMul => s.(regs := s.regs[a := Wrap(s.regs[a] as int * s.regs[b] as int)])
    case AluAdd => s.(regs := s.regs[a := Wrap(s.regs[a] as int + s.regs[b] as int)])
    case AluCmp =>
      if s.regs[a] == s.regs[b] then s.(e := true)
      else if s.regs[a] < s.regs[b] then s.(l := true)
      else s.(g := true)
  }

  /** The instruction byte at PC. */
  function Fetch(s: State): byte
  {
    s.ram[s.pc]
  }

  /** The first operand byte, at PC + 1 (wrapping). */
  function OperandA(s: State): byte
  {
    s.ram[Wrap(s.pc as int + 1)]
  }

  /** The second operand byte, at PC + 2 (wrapping). */
  function OperandB(s: State): byte
  {
    s.ram[Wrap(s.pc as int + 2)]
  }

  /** The PC of the next instruction in sequence. */
  function Advance(s: State): byte
  {
    Wrap(s.pc as int + Width(Fetch(s)))
  }

  /** Neither CALL nor RET: the PC advances by the decoded width. */
  predicate Sequential(ir: byte)
  {
    Decode(ir) != Some(Call) && Decode(ir) != Some(Ret)
  }

  /**
   * The effect of instruction `op` with operand bytes `a`, `b`; `next` is
   * the address of the following instruction. A register operand outside
   * 0..7, or PUSH of the stack pointer itself, has no defined meaning in
   * the C program; the model stops there with status Undefined.
   */
  function Exec(op: Op, s: State, a: byte, b: byte, next: byte): (r: Next)
    ensures r.post.fl == s.fl
    ensures (s.e ==> r.post.e) && (s.l ==> r.post.l) && (s.g ==> r.post.g)
    ensures r.status == Undefined ==> r.post == s
    ensures r.status == Halted <==> op == Hlt
    ensures s.out <= r.post.out && |r.post.out| <= |s.out| + 1
    ensures r.status != Undefined && op != Call && op != Ret ==> r.post.pc == next
  {
    match op
    case Add =>
      if a < 8 && b < 8 then Next(Running, Alu(AluAdd, s, a, b).(pc := next)) else Next(Undefined, s)
    case Mul =>
      if a < 8 && b < 8 then Next(Running, Alu(AluMul, s, a, b).(pc := next)) else Next(Undefined, s)
    case Cmp =>
      if a < 8 && b < 8 then Next(Running, Alu(AluCmp, s, a, b).(pc := next)) else Next(Undefined, s)
    case Ldi =>
      if a < 8 then Next(Running, s.(regs := s.regs[a := b], pc := next)) else Next(Undefined, s)
    case Prn =>
      if a < 8 then Next(Running, s.(out := s.out + [s.regs[a]], pc := next)) else Next(Undefined, s)
    case Push =>
      if a < SP then
        var sp := Wrap(s.regs[SP] as int - 1);
        Next(Running, s.(regs := s.regs[SP := sp], ram := s.ram[sp := s.regs[a]], pc := next))
      else Next(Undefined, s)
    case Pop =>
      if a < 8 then
        var sp := s.regs[SP];
        Next(Running, s.(regs := s.regs[SP := Wrap(sp as int + 1)][a := s.ram[sp]], pc := next))
      else Next(Undefined, s)
    case Call =>
      if a < 8 then
        var sp := Wrap(s.regs[SP] as int - 1);
        var regs := s.regs[SP := sp];
        Next(Running, s.(regs := regs, ram := s.ram[sp := next], pc := regs[a]))
      else Next(Undefined, s)
    case Ret =>
      var sp := s.regs[SP];
      Next(Running, s.(pc := s.ram[sp], regs := s.regs[SP := Wrap(sp as int + 1)]))
    case Hlt =>
      Next(Halted, s.(pc := next))
  }

  /**
   * An instruction depends only on the operand bytes its width covers: an
   * operand byte the decode leaves unread (uninitialised in the C program)
   * cannot change its effect.
   */
  lemma ExecReadsOnlyItsOperands(op: Op, s: State, a: byte, b: byte, a': byte, b': byte, next: byte)
    requires Operands(op) >= 1 ==> a == a'
    requires Operands(op) == 2 ==> b == b'
    ensures Exec(op, s, a, b, next) == Exec(op, s, a', b', next)
  {
  }

  /** One cycle of the execution engine: fetch, decode the width, execute; an unknown opcode only advances the PC. */
  function Step(s: State): (r: Next)
    ensures r.post.fl == s.fl
    ensures (s.e ==> r.post.e) && (s.l ==> r.post.l) && (s.g ==> r.post.g)
    ensures r.status == Undefined ==> r.post == s
    ensures r.status == Halted <==> Fetch(s) == HLT
    ensures s.out <= r.post.out && |r.post.out| <= |s.out| + 1
    ensures r.status != Undefined && Sequential(Fetch(s)) ==> r.post.pc as int == (s.pc as int + Width(Fetch(s))) % 256
  {
    match Decode(Fetch(s))
    case None => Next(Running, s.(pc := Advance(s)))
    case Some(op) => Exec(op, s, OperandA(s), OperandB(s), Advance(s))
  }

  /**
   * At most `fuel` cycles of the run loop, which stops at HLT. When the fuel
   * runs out first, the status is still Running. No cycle changes FL or
   * clears a condition flag, and output is only ever appended to.
   */
  function Run(s: State, fuel: nat): (r: Next)
    ensures r.post.fl == s.fl
    ensures (s.e ==> r.post.e) && (s.l ==> r.post.l) && (s.g ==> r.post.g)
    ensures s.out <= r.post.out && |r.post.out| <= |s.out| + fuel
    ensures fuel == 0 ==> r == Next(Running, s)
    decreases fuel
  {
    if fuel == 0 then Next(Running, s)
    else
      var n := Step(s);
      if n.status == Running then Run(n.post, fuel - 1) else n
  }

  /**
   * The state after initialisation of the CPU held in `s`: PC, FL and the
   * flags cleared, registers 0..6 zero, the stack pointer at 0xF4, the
   * first eight RAM cells zero. The rest of RAM is left as it was.
   */
  function Init(s: State): (r: State)
    ensures r.pc == 0 && r.fl == 0 && !r.e && !r.l && !r.g
    ensures forall i :: 0 <= i < 8 && i != SP as int ==> r.regs[i] == 0
    ensures r.regs[SP] == StackTop
    ensures forall k :: 0 <= k < 8 ==> r.ram[k] == 0
    ensures forall k :: 8 <= k < 256 ==> r.ram[k] == s.ram[k]
    ensures r.out == s.out
  {
    State(seq(8, i => 0 as byte) + s.ram[8..], [0, 0, 0, 0, 0, 0, 0, StackTop], 0, 0, false, false, false, s.out)
  }

  /** The bytes one line of the program file contributes: none if its parse consumed nothing, else its value truncated to a byte. */
  function Cell(line: Option<nat>): seq<byte>
  {
    match line
    case None => []
    case Some(v) => [Wrap(v)]
  }

  /** The bytes the loader places, in order, for a file whose lines parse to `lines`. */
  function Placed(lines: seq<Option<nat>>): (bytes: seq<byte>)
    ensures |bytes| <= |lines|
  {
    if |lines| == 0 then [] else Placed(lines[..|lines| - 1]) + Cell(lines[|lines| - 1])
  }

  /** What the first `j` lines place is a prefix of what all of them place. */
  lemma {:induction false} PlacedPrefix(lines: seq<Option<nat>>, j: nat)
    requires j <= |lines|
    ensures Placed(lines[..j]) <= Placed(lines)
    decreases |lines|
  {
    if j == |lines| {
      assert lines[..j] == lines;
    } else {
      var n := |lines| - 1;
      assert lines[..n][..j] == lines[..j];
      PlacedPrefix(lines[..n], j);
    }
  }

  /** Line `i` adds its cell to what the lines before it place. */
  lemma PlacedNext(lines: seq<Option<nat>>, i: nat)
    requires i < |lines|
    ensures Placed(lines[..i + 1]) == Placed(lines[..i]) + Cell(lines[i])
    ensures |Placed(lines[..i + 1])| <= |Placed(lines)|
  {
    assert lines[..i + 1][..i] == lines[..i];
    PlacedPrefix(lines, i + 1);
  }

  /** The number of lines whose parse consumed something, counted from the first line. */
  function CountParsed(lines: seq<Option<nat>>): nat
  {
    if |lines| == 0 then 0 else (if lines[0].Some? then 1 else 0) + CountParsed(lines[1..])
  }

  /** One more line at the end adds one to the count exactly when its parse consumed something. */
  lemma {:induction false} CountParsedSnoc(lines: seq<Option<nat>>, line: Option<nat>)
    ensures CountParsed(lines + [line]) == CountParsed(lines) + |Cell(line)|
    decreases |lines|
  {
    if |lines| == 0 {
      assert lines + [line] == [line];
      assert [line][1..] == [];
    } else {
      assert (lines + [line])[1..] == lines[1..] + [line];
      CountParsedSnoc(lines[1..], line);
    }
  }

  /** The loader places one byte per line whose parse consumed something, and no others. */
  lemma {:induction false} PlacedLength(lines: seq<Option<nat>>)
    ensures |Placed(lines)| == CountParsed(lines)
    decreases |lines|
  {
    if |lines| > 0 {
      var n := |lines| - 1;
      PlacedLength(lines[..n]);
      CountParsedSnoc(lines[..n], lines[n]);
      assert lines[..n] + [lines[n]] == lines;
    }
  }

  /** The state after loading: the placed bytes at addresses 0, 1, 2, ..., everything else unchanged. */
  function Load(s: State, lines: seq<Option<nat>>): (r: State)
    requires |Placed(lines)| <= 256
    ensures r.ram[..|Placed(lines)|] == Placed(lines)
    ensures r.ram[|Placed(lines)|..] == s.ram[|Placed(lines)|..]
    ensures r.regs == s.regs && r.pc == s.pc && r.fl == s.fl && r.out == s.out
    ensures r.e == s.e && r.l == s.l && r.g == s.g
  {
    s.(ram := Placed(lines) + s.ram[|Placed(lines)|..])
  }
}
