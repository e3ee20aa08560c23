/**
 * What each instruction does to the machine, the round-trip laws of the
 * stack instructions, how bounded runs compose, and where the loader puts
 * each line of a program.
 */
module Properties {
  import opened Isa
  import opened Machine

  /** RAM cells other than `k` hold what they held. */
  predicate OtherCellsUnchanged(s: Memory, t: Memory, k: int)
  {
    forall j :: 0 <= j < 256 && j != k ==> t[j] == s[j]
  }

  /** The PC moved forward by `w` bytes, wrapping at 256. */
  predicate AdvancedBy(s: State, t: State, w: int)
  {
    t.pc as int == (s.pc as int + w) % 256
  }

  // ---------------------------------------------------------------------
  // One instruction at a time

  /** ADD stores the low byte of the sum in register A; nothing else but the PC changes. */
  lemma AddEffect(s: State)
    requires Fetch(s) == ADD && OperandA(s) < 8 && OperandB(s) < 8
    ensures var r, a, b := Step(s), OperandA(s), OperandB(s);
      r.status == Running
      && r.post.regs[a] as int == (s.regs[a] as int + s.regs[b] as int) % 256
      && OtherRegsUnchanged(s.regs, r.post.regs, a as int)
      && r.post.ram == s.ram && SameFlagsAndOutput(s, r.post) && AdvancedBy(s, r.post, 3)
  {
  }

  /** MUL stores the low byte of the product in register A; nothing else but the PC changes. */
  lemma MulEffect(s: State)
    requires Fetch(s) == MUL && OperandA(s) < 8 && OperandB(s) < 8
    ensures var r, a, b := Step(s), OperandA(s), OperandB(s);
      r.status == Running
      && r.post.regs[a] as int == (s.regs[a] as int * s.regs[b] as int) % 256
      && OtherRegsUnchanged(s.regs, r.post.regs, a as int)
      && r.post.ram == s.ram && SameFlagsAndOutput(s, r.post) && AdvancedBy(s, r.post, 3)
  {
  }

  /**
   * CMP sets E, L or G according to how register A compares with register
   * B, keeps every flag that was already set, and writes no register, no
   * memory and no output.
   */
  lemma CmpEffect(s: State)
    requires Fetch(s) == CMP && OperandA(s) < 8 && OperandB(s) < 8
    ensures var r, x, y := Step(s), s.regs[OperandA(s)], s.regs[OperandB(s)];
      r.status == Running
      && r.post.regs == s.regs && r.post.ram == s.ram && r.post.out == s.out && r.post.fl == s.fl
      && (x == y ==> r.post.e && r.post.l == s.l && r.post.g == s.g)
      && (x < y ==> r.post.l && r.post.e == s.e && r.post.g == s.g)
      && (x > y ==> r.post.g && r.post.e == s.e && r.post.l == s.l)
      && AdvancedBy(s, r.post, 3)
  {
  }

  /** From clear flags, CMP leaves exactly one of E, L, G set. */
  lemma CmpSetsExactlyOne(s: State)
    requires Fetch(s) == CMP && OperandA(s) < 8 && OperandB(s) < 8
    requires !s.e && !s.l && !s.g
    ensures var r := Step(s).post;
      (if r.e then 1 else 0) + (if r.l then 1 else 0) + (if r.g then 1 else 0) == 1
  {
  }

  /** LDI loads operand B into register A; nothing else but the PC changes. */
  lemma LdiEffect(s: State)
    requires Fetch(s) == LDI && OperandA(s) < 8
    ensures var r, a := Step(s), OperandA(s);
      r.status == Running
      && r.post.regs[a] == OperandB(s) && OtherRegsUnchanged(s.regs, r.post.regs, a as int)
      && r.post.ram == s.ram && SameFlagsAndOutput(s, r.post) && AdvancedBy(s, r.post, 3)
  {
  }

  /** PRN appends register A to the output and changes nothing else but the PC. */
  lemma PrnEffect(s: State)
    requires Fetch(s) == PRN && OperandA(s) < 8
    ensures var r := Step(s);
      r.status == Running
      && r.post.out == s.out + [s.regs[OperandA(s)]]
      && r.post.regs == s.regs && r.post.ram == s.ram
      && r.post.fl == s.fl && r.post.e == s.e && r.post.l == s.l && r.post.g == s.g
      && AdvancedBy(s, r.post, 2)
  {
  }

  /** HLT stops the loop; the PC still advances by one. */
  lemma HltEffect(s: State)
    requires Fetch(s) == HLT
    ensures var r := Step(s);
      r.status == Halted && r.post.regs == s.regs && r.post.ram == s.ram
      && SameFlagsAndOutput(s, r.post) && AdvancedBy(s, r.post, 1)
  {
  }

  /** An opcode outside the table is a no-op that still advances the PC by its decoded width. */
  lemma UnknownEffect(s: State)
    requires forall op: Op :: Encode(op) != Fetch(s)
    ensures var r := Step(s);
      r.status == Running && r.post.regs == s.regs && r.post.ram == s.ram
      && SameFlagsAndOutput(s, r.post) && AdvancedBy(s, r.post, Width(Fetch(s)))
  {
  }

  /**
   * PUSH decrements the stack pointer, wrapping, and then stores register A
   * at the new top; no other cell or register changes.
   */
  lemma PushEffect(s: State)
    requires Fetch(s) == PUSH && OperandA(s) < SP
    ensures var r, sp := Step(s), s.regs[SP];
      r.status == Running
      && r.post.regs[SP] as int == (sp as int - 1) % 256
      && r.post.ram[r.post.regs[SP]] == s.regs[OperandA(s)]
      && OtherCellsUnchanged(s.ram, r.post.ram, r.post.regs[SP] as int)
      && OtherRegsUnchanged(s.regs, r.post.regs, SP as int)
      && SameFlagsAndOutput(s, r.post) && AdvancedBy(s, r.post, 2)
  {
  }

  /**
   * POP loads the top of the stack into register A and increments the stack
   * pointer, wrapping; POP of the stack pointer itself leaves the loaded byte
   * there. Memory is not written.
   */
  lemma PopEffect(s: State)
    requires Fetch(s) == POP && OperandA(s) < 8
    ensures var r, a, sp := Step(s), OperandA(s), s.regs[SP];
      r.status == Running
      && r.post.regs[a] == s.ram[sp]
      && (a != SP ==> r.post.regs[SP] as int == (sp as int + 1) % 256)
      && (forall j :: 0 <= j < 8 && j != a as int && j != SP as int ==> r.post.regs[j] == s.regs[j])
      && r.post.ram == s.ram && SameFlagsAndOutput(s, r.post) && AdvancedBy(s, r.post, 2)
  {
  }

  /**
   * CALL pushes the address of the next instruction and jumps to the
   * address in register A (read after the push, so CALL of the stack
   * pointer jumps to the new top); the PC does not also advance.
   */
  lemma CallEffect(s: State)
    requires Fetch(s) == CALL && OperandA(s) < 8
    ensures var r, sp := Step(s), s.regs[SP];
      r.status == Running
      && r.post.regs[SP] as int == (sp as int - 1) % 256
      && OtherRegsUnchanged(s.regs, r.post.regs, SP as int)
      && r.post.ram[r.post.regs[SP]] as int == (s.pc as int + 2) % 256
      && OtherCellsUnchanged(s.ram, r.post.ram, r.post.regs[SP] as int)
      && r.post.pc == r.post.regs[OperandA(s)]
      && SameFlagsAndOutput(s, r.post)
  {
  }

  /** RET pops the PC from the stack; no register but the stack pointer and no memory changes. */
  lemma RetEffect(s: State)
    requires Fetch(s) == RET
    ensures var r, sp := Step(s), s.regs[SP];
      r.status == Running
      && r.post.pc == s.ram[sp]
      && r.post.regs[SP] as int == (sp as int + 1) % 256
      && OtherRegsUnchanged(s.regs, r.post.regs, SP as int)
      && r.post.ram == s.ram && SameFlagsAndOutput(s, r.post)
  {
  }

  /** How many of an instruction's operands name a register (LDI's second is an immediate value). */
  function RegisterOperands(op: Op): nat
  {
    match op
    case Add | Mul | Cmp => 2
    case Ldi | Prn | Push | Pop | Call => 1
    case Ret | Hlt => 0
  }

  /** A register operand outside 0..7, or PUSH of the stack pointer, is undefined: the model stops, changing nothing. */
  lemma UndefinedOperand(s: State)
    requires Decode(Fetch(s)).Some?
    requires var op := Decode(Fetch(s)).value;
      (RegisterOperands(op) >= 1 && OperandA(s) >= 8)
      || (RegisterOperands(op) == 2 && OperandB(s) >= 8)
      || (op == Push && OperandA(s) == SP)
    ensures Step(s) == Next(Undefined, s)
  {
    var op := Decode(Fetch(s)).value;
    assert Step(s) == Exec(op, s, OperandA(s), OperandB(s), Advance(s));
    match op {
      case Ldi | Prn | Hlt | Add | Mul | Cmp | Push | Pop | Call | Ret =>
    }
  }

  // ---------------------------------------------------------------------
  // Round trips

  /**
   * PUSH rn immediately followed by POP rm copies rn into rm; every other
   * register, the stack pointer included unless rm is R7 (which then holds
   * the popped byte), is as it was, and with rm == rn every register is
   * restored. The stack slot must not overlap the POP instruction about to
   * be fetched.
   */
  lemma PushPopRoundTrip(s: State, rn: byte, rm: byte)
    requires rn < SP && rm < 8
    requires Fetch(s) == PUSH && OperandA(s) == rn
    requires var p := Wrap(s.pc as int + 2);
      s.ram[p] == POP && s.ram[Wrap(p as int + 1)] == rm
    requires var slot := Wrap(s.regs[SP] as int - 1);
      slot != Wrap(s.pc as int + 2) && slot != Wrap(s.pc as int + 3)
    ensures var t := Step(Step(s).post);
      t.status == Running
      && t.post.regs == s.regs[rm := s.regs[rn]]
      && t.post.ram == s.ram[Wrap(s.regs[SP] as int - 1) := s.regs[rn]]
      && SameFlagsAndOutput(s, t.post) && AdvancedBy(s, t.post, 4)
  {
    var s1 := Step(s).post;
    assert Fetch(s1) == POP && OperandA(s1) == rm;
  }

  /** PUSH rn; POP rn restores rn and the stack pointer. */
  lemma PushPopRestores(s: State, rn: byte)
    requires rn < SP
    requires Fetch(s) == PUSH && OperandA(s) == rn
    requires var p := Wrap(s.pc as int + 2);
      s.ram[p] == POP && s.ram[Wrap(p as int + 1)] == rn
    requires var slot := Wrap(s.regs[SP] as int - 1);
      slot != Wrap(s.pc as int + 2) && slot != Wrap(s.pc as int + 3)
    ensures Step(Step(s).post).post.regs == s.regs
  {
    PushPopRoundTrip(s, rn, rn);
    assert s.regs[rn := s.regs[rn]] == s.regs;
  }

  /**
   * CALL followed by a RET as the first instruction at the call target
   * returns to the instruction after the CALL, with the stack pointer and
   * every register as before; the return address stays in the freed slot.
   */
  lemma CallRetRoundTrip(s: State)
    requires Fetch(s) == CALL && OperandA(s) < 8
    requires var slot := Wrap(s.regs[SP] as int - 1);
      var target := s.regs[SP := slot][OperandA(s)];
      target != slot && s.ram[target] == RET
    ensures var t := Step(Step(s).post);
      t.status == Running
      && t.post.pc as int == (s.pc as int + 2) % 256
      && t.post.regs == s.regs
      && t.post.ram == s.ram[Wrap(s.regs[SP] as int - 1) := Wrap(s.pc as int + 2)]
      && SameFlagsAndOutput(s, t.post)
  {
    var s1 := Step(s).post;
    assert Fetch(s1) == RET;
    assert s1.regs[SP := Wrap(s1.regs[SP] as int + 1)] == s.regs;
  }

  // ---------------------------------------------------------------------
  // Bounded runs

  /** Once the loop has stopped, more fuel changes nothing. */
  lemma {:induction false} RunStopped(s: State, n: nat, m: nat)
    requires n <= m && Run(s, n).status != Running
    ensures Run(s, m) == Run(s, n)
    decreases n
  {
    var t := Step(s);
    if t.status == Running {
      RunStopped(t.post, n - 1, m - 1);
    }
  }

  /** Running n + m cycles is running n cycles and then, if still running, m more. */
  lemma {:induction false} RunSplit(s: State, n: nat, m: nat)
    ensures Run(s, n + m) == (var r := Run(s, n); if r.status == Running then Run(r.post, m) else r)
    decreases n
  {
    if n > 0 {
      var t := Step(s);
      if t.status == Running {
        RunSplit(t.post, n - 1, m);
      }
    }
  }

  /**
   * A run that halts stopped on the cycle that fetched HLT: some cycle k was
   * still running with HLT at its PC, and its step is the run's result.
   */
  lemma {:induction false} RunHaltsAtHlt(s: State, n: nat)
    requires Run(s, n).status == Halted
    ensures exists k: nat :: (k < n && Run(s, k).status == Running
                               && Fetch(Run(s, k).post) == HLT && Step(Run(s, k).post) == Run(s, n))
    decreases n
  {
    var t := Step(s);
    if t.status == Running {
      RunHaltsAtHlt(t.post, n - 1);
      var k: nat :| k < n - 1 && Run(t.post, k).status == Running
        && Fetch(Run(t.post, k).post) == HLT && Step(Run(t.post, k).post) == Run(t.post, n - 1);
      assert Run(s, k + 1) == Run(t.post, k);
      assert Run(s, k + 1).status == Running && Fetch(Run(s, k + 1).post) == HLT
        && Step(Run(s, k + 1).post) == Run(s, n);
    } else {
      assert Run(s, 0) == Next(Running, s) && Run(s, 1) == t;
    }
  }

  // ---------------------------------------------------------------------
  // Loading

  /**
   * A line whose parse consumed something goes to the address equal to the
   * number of bytes the lines before it placed; a line that consumed
   * nothing takes no address.
   */
  lemma PlacedAt(lines: seq<Option<nat>>, j: nat)
    requires j < |lines|
    ensures lines[j].Some? ==>
      |Placed(lines[..j])| < |Placed(lines)| && Placed(lines)[|Placed(lines[..j])|] == Wrap(lines[j].value)
    ensures lines[j].None? ==> Placed(lines[..j + 1]) == Placed(lines[..j])
  {
    PlacedNext(lines, j);
    PlacedPrefix(lines, j + 1);
  }

  /** Every placed byte comes from a line whose parse consumed something, in order. */
  lemma {:induction false} PlacedFrom(lines: seq<Option<nat>>, k: nat)
    requires k < |Placed(lines)|
    ensures exists j :: (0 <= j < |lines| && lines[j].Some? && |Placed(lines[..j])| == k
      && Placed(lines)[k] == Wrap(lines[j].value))
    decreases |lines|
  {
    var n := |lines| - 1;
    var init := lines[..n];
    assert Placed(lines) == Placed(init) + Cell(lines[n]);
    if k < |Placed(init)| {
      PlacedFrom(init, k);
      var j :| 0 <= j < |init| && init[j].Some? && |Placed(init[..j])| == k
        && Placed(init)[k] == Wrap(init[j].value);
      assert init[..j] == lines[..j] && init[j] == lines[j];
      assert Placed(lines)[k] == Placed(init)[k];
      assert 0 <= j < |lines| && lines[j].Some? && |Placed(lines[..j])| == k
        && Placed(lines)[k] == Wrap(lines[j].value);
    } else {
      assert lines[n].Some? && Placed(lines)[k] == Wrap(lines[n].value);
      assert |Placed(lines[..n])| == k;
    }
  }

  /** After loading, line j's byte sits at the address PlacedAt gives it. */
  lemma LoadPlacesLine(s: State, lines: seq<Option<nat>>, j: nat)
    requires |Placed(lines)| <= 256 && j < |lines| && lines[j].Some?
    ensures |Placed(lines[..j])| < |Placed(lines)|
    ensures Load(s, lines).ram[|Placed(lines[..j])|] == Wrap(lines[j].value)
  {
    PlacedAt(lines, j);
    var r := Load(s, lines);
    assert r.ram[..|Placed(lines)|][|Placed(lines[..j])|] == r.ram[|Placed(lines[..j])|];
  }
}
