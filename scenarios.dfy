/**
 * Whole programs run from the state that initialisation and loading give,
 * whatever the CPU held before.
 */
module Scenarios {
  import opened Isa
  import opened Machine
  import Properties

  /** Initialise, then load the program. */
  function Boot(s: State, lines: seq<Option<nat>>): State
    requires |Placed(lines)| <= 256
  {
    Load(Init(s), lines)
  }

  /** A program of a single HLT stops after one cycle with the PC at 1 and no output. */
  lemma HltOnly(s: State, fuel: nat)
    requires fuel >= 1
    ensures var s0 := Boot(s, [Some(0x01)]);
      Step(s0).status == Halted && Step(s0).post.pc == 1
      && Run(s0, fuel) == Step(s0) && Run(s0, fuel).post.out == s.out
  {
    var s0 := Boot(s, [Some(0x01)]);
    assert Placed([Some(0x01)]) == [HLT];
    assert Fetch(s0) == HLT;
    Properties.RunStopped(s0, 1, fuel);
  }

  /** The bytes a program image places, listed out. */
  lemma PlacedLdiPrnHlt()
    ensures Placed([Some(0x82), Some(0x00), Some(0x28), None, Some(0x47), Some(0x00), Some(0x01)])
      == [LDI, 0, 40, PRN, 0, HLT]
  {
    var lines := [Some(0x82), Some(0x00), Some(0x28), None, Some(0x47), Some(0x00), Some(0x01)];
    PlacedNext(lines, 0); PlacedNext(lines, 1); PlacedNext(lines, 2); PlacedNext(lines, 3);
    PlacedNext(lines, 4); PlacedNext(lines, 5); PlacedNext(lines, 6);
    assert lines[..0] == [] && lines[..7] == lines;
  }

  lemma PlacedAddPrnHlt()
    ensures Placed([Some(0xA0), Some(0x00), Some(0x01), Some(0x47), Some(0x00), Some(0x01)])
      == [ADD, 0, 1, PRN, 0, HLT]
  {
    var lines := [Some(0xA0), Some(0x00), Some(0x01), Some(0x47), Some(0x00), Some(0x01)];
    PlacedNext(lines, 0); PlacedNext(lines, 1); PlacedNext(lines, 2);
    PlacedNext(lines, 3); PlacedNext(lines, 4); PlacedNext(lines, 5);
    assert lines[..0] == [] && lines[..6] == lines;
  }

  /** Three instructions, the third HLT, halt on the third cycle. */
  lemma RunThree(t: State, fuel: nat)
    requires fuel >= 3
    requires Step(t).status == Running && Step(Step(t).post).status == Running
    requires Fetch(Step(Step(t).post).post) == HLT
    ensures Run(t, fuel) == Step(Step(Step(t).post).post)
  {
    var t1 := Step(t).post;
    var t2 := Step(t1).post;
    assert Run(t2, 1) == Step(t2);
    assert Run(t1, 2) == Run(t2, 1);
    assert Run(t, 3) == Run(t1, 2);
    Properties.RunStopped(t, 3, fuel);
  }

  /** From PC 0 over LDI R0,40; PRN R0; HLT the output gains the line 40. */
  lemma RunLdiPrnHlt(t: State, fuel: nat)
    requires fuel >= 3 && t.pc == 0 && t.ram[..6] == [LDI, 0, 40, PRN, 0, HLT]
    ensures Run(t, fuel).status == Halted && Run(t, fuel).post.out == t.out + [40]
  {
    assert t.ram[0] == LDI && t.ram[1] == 0 && t.ram[2] == 40;
    assert t.ram[3] == PRN && t.ram[4] == 0 && t.ram[5] == HLT;
    Properties.LdiEffect(t);
    var t1 := Step(t).post;
    Properties.PrnEffect(t1);
    var t2 := Step(t1).post;
    Properties.HltEffect(t2);
    RunThree(t, fuel);
  }

  /** From PC 0 with R0 = R1 = 0, over ADD R0,R1; PRN R0; HLT the output gains the line 0. */
  lemma RunAddPrnHlt(t: State, fuel: nat)
    requires fuel >= 3 && t.pc == 0 && t.ram[..6] == [ADD, 0, 1, PRN, 0, HLT]
    requires t.regs[0] == 0 && t.regs[1] == 0
    ensures Run(t, fuel).status == Halted && Run(t, fuel).post.out == t.out + [0]
  {
    assert t.ram[0] == ADD && t.ram[1] == 0 && t.ram[2] == 1;
    assert t.ram[3] == PRN && t.ram[4] == 0 && t.ram[5] == HLT;
    Properties.AddEffect(t);
    var t1 := Step(t).post;
    Properties.PrnEffect(t1);
    var t2 := Step(t1).post;
    Properties.HltEffect(t2);
    RunThree(t, fuel);
  }

  /**
   * LDI R0,40; PRN R0; HLT prints 40. The fourth line is a comment: its
   * parse consumes nothing, so it takes no address.
   */
  lemma LdiPrnHlt(s: State, fuel: nat)
    requires fuel >= 3
    ensures var s0 := Boot(s, [Some(0x82), Some(0x00), Some(0x28), None, Some(0x47), Some(0x00), Some(0x01)]);
      Run(s0, fuel).status == Halted && Run(s0, fuel).post.out == s.out + [40]
  {
    PlacedLdiPrnHlt();
    RunLdiPrnHlt(Boot(s, [Some(0x82), Some(0x00), Some(0x28), None, Some(0x47), Some(0x00), Some(0x01)]), fuel);
  }

  /** ADD R0,R1 on freshly initialised registers, then PRN R0, then HLT prints 0. */
  lemma AddPrnHlt(s: State, fuel: nat)
    requires fuel >= 3
    ensures var s0 := Boot(s, [Some(0xA0), Some(0x00), Some(0x01), Some(0x47), Some(0x00), Some(0x01)]);
      Run(s0, fuel).status == Halted && Run(s0, fuel).post.out == s.out + [0]
  {
    PlacedAddPrnHlt();
    RunAddPrnHlt(Boot(s, [Some(0xA0), Some(0x00), Some(0x01), Some(0x47), Some(0x00), Some(0x01)]), fuel);
  }
}
