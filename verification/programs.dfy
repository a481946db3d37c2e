/** Whole programs run from a fresh CPU: the scenarios the system is meant to
    satisfy end to end. */
module Programs {
  import opened Machine
  import opened Cpu
  import Properties

  /** LDI R0,8; LDI R1,9; MUL R0,R1; PRN R0; HLT */
  const MulProgram: seq<int> := [LDI, 0, 8, LDI, 1, 9, MUL, 0, 1, PRN, 0, HLT]

  /** LDI R0,8; LDI R1,0; DIV R0,R1; PRN R0; HLT */
  const DivZeroProgram: seq<int> := [LDI, 0, 8, LDI, 1, 0, DIV, 0, 1, PRN, 0, HLT]

  /** LDI R0,42; PRN R0; HLT */
  const PrintProgram: seq<int> := [LDI, 0, 42, PRN, 0, HLT]

  /** Booting then running `program` with the given fuel. */
  function Execute(program: seq<int>, fuel: nat): (o: Result<Outcome>)
    ensures o.Ok? <==> |program| <= RamSize
    ensures o.Ok? && o.value.Halted? ==> !o.value.state.running && fuel > 0
    ensures o.Ok? && fuel == 0 ==> o.value.OutOfFuel?
  {
    var s :- Boot(program);
    Ok(RunCpu(s, fuel))
  }

  /** A program that is a single HLT halts after one step with no output. */
  lemma HaltOnly(fuel: nat)
    ensures Execute([HLT], fuel + 1).Ok?
    ensures var o := Execute([HLT], fuel + 1).value;
      o.Halted? && o.state.out == [] && o.state.pc == 1
  {
    var s := Boot([HLT]).value.(running := true);
    Properties.HltEndsRun(s, fuel);
  }

  /** Loading 42 into R0 and printing R0 prints exactly 42. */
  lemma LoadThenPrint()
    ensures Execute(PrintProgram, 3).Ok?
    ensures var o := Execute(PrintProgram, 3).value;
      o.Halted? && o.state.out == [42]
  {
    var s0 := Boot(PrintProgram).value.(running := true);
    Properties.LdiStep(s0);
    var s1 := Step(s0).value;
    Properties.PrnStep(s1);
    var s2 := Step(s1).value;
    Properties.HltStep(s2);
  }

  /** 8 times 9 prints 72 and the machine halts cleanly. */
  lemma MulPrints72()
    ensures Execute(MulProgram, 5).Ok?
    ensures var o := Execute(MulProgram, 5).value;
      o.Halted? && o.state.out == [72]
  {
    var s0 := Boot(MulProgram).value.(running := true);
    Properties.LdiStep(s0);
    var s1 := Step(s0).value;
    Properties.LdiStep(s1);
    var s2 := Step(s1).value;
    Properties.AddMulStep(s2);
    var s3 := Step(s2).value;
    assert s3.regs[0] == 72;
    Properties.PrnStep(s3);
    var s4 := Step(s3).value;
    Properties.HltStep(s4);
  }

  /** Dividing by a zero register stops the run with a divide-by-zero fault
      before the PRN after it, so nothing is printed. */
  lemma DivByZeroPrintsNothing(fuel: nat)
    ensures Execute(DivZeroProgram, fuel + 3).Ok?
    ensures var o := Execute(DivZeroProgram, fuel + 3).value;
      o == Faulted(DivByZero, o.state) && o.state.out == [] && o.state.pc == 6
  {
    var s0 := Boot(DivZeroProgram).value.(running := true);
    Properties.LdiStep(s0);
    var s1 := Step(s0).value;
    Properties.LdiStep(s1);
    var s2 := Step(s1).value;
    Properties.DivByZeroEndsRun(s2, fuel);
    assert Run(s0, fuel + 3) == Run(s2, fuel + 1);
  }
}
