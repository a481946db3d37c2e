/** The fetch/decode/dispatch loop of `CPU.run`.

    One step fetches the opcode at pc and the two cells after it, advances pc
    past the instruction, then sends ALU opcodes (bit 5 set) to the ALU and
    every other opcode to its branch-table handler. `Run` repeats steps until
    the running bit is clear, a fault occurs, or the fuel is spent. */
module Cpu {
  import opened Machine
  import Alu
  import Handlers

  /** The non-ALU entries of the branch table. The table also maps ADD, MUL,
      DIV and CMP to the ALU, but those opcodes have bit 5 set and are routed
      to the ALU before the table is consulted, so those entries are never
      looked up. */
  datatype Handler = Hlt | Ldi | Prn | Push | Pop | Jmp | Jeq | Jne

  /** How many operand bytes each handler uses. */
  function Uses(h: Handler): nat {
    match h
    case Hlt => 0
    case Ldi => 2
    case _ => 1
  }

  /** The branch-table lookup for a non-ALU opcode. Every entry's opcode has
      bit 5 clear, and its operand count (the top two bits) is exactly the
      number of operand bytes its handler uses, so the pc advance lands on the
      next instruction. */
  function BranchTable(ir: int): (h: Option<Handler>)
    ensures h.Some? <==> ir == HLT || ir == LDI || ir == PRN || ir == PUSH ||
                         ir == POP || ir == JMP || ir == JEQ || ir == JNE
    ensures h == Some(Hlt) <==> ir == HLT
    ensures h == Some(Ldi) <==> ir == LDI
    ensures h == Some(Prn) <==> ir == PRN
    ensures h == Some(Push) <==> ir == PUSH
    ensures h == Some(Pop) <==> ir == POP
    ensures h == Some(Jmp) <==> ir == JMP
    ensures h == Some(Jeq) <==> ir == JEQ
    ensures h == Some(Jne) <==> ir == JNE
    ensures h.Some? ==> !IsAluOp(ir) && 0 <= ir < 256
    ensures h.Some? ==> NumOperands(ir) == Uses(h.value)
  {
    if ir == HLT then Some(Hlt)
    else if ir == LDI then Some(Ldi)
    else if ir == PRN then Some(Prn)
    else if ir == PUSH then Some(Push)
    else if ir == POP then Some(Pop)
    else if ir == JMP then Some(Jmp)
    else if ir == JEQ then Some(Jeq)
    else if ir == JNE then Some(Jne)
    else None
  }

  /** Calling a branch-table handler with the two operand bytes. */
  function Invoke(h: Handler, s: State, a: int, b: int): (r: Result<State>)
    requires Valid(s)
    ensures h == Hlt ==> r.Ok?
    ensures r.Err? ==> r.fault == OutOfBounds
    ensures r.Ok? ==> Valid(r.value)
    ensures r.Ok? ==> r.value.flags == s.flags
    ensures r.Ok? && h != Hlt ==> r.value.running == s.running
    ensures r.Ok? && h != Prn ==> r.value.out == s.out
    ensures r.Ok? && !(h.Jmp? || h.Jeq? || h.Jne?) ==> r.value.pc == s.pc
  {
    match h
    case Hlt => Handlers.Hlt(s)
    case Ldi => Handlers.Ldi(s, a, b)
    case Prn => Handlers.Prn(s, a)
    case Push => Handlers.Push(s, a)
    case Pop => Handlers.Pop(s, a)
    case Jmp => Handlers.Jmp(s, a)
    case Jeq => Handlers.Jeq(s, a)
    case Jne => Handlers.Jne(s, a)
  }

  /** The instruction register and the two cells that follow it. */
  datatype Fetched = Fetched(ir: int, a: int, b: int)

  /** The pc and the two cells after it are all addresses. */
  predicate Fetchable(s: State) {
    Valid(s) && 0 <= s.pc && s.pc + 2 < RamSize
  }

  /** All three cells are read before decoding, whatever the opcode, so even
      a one-byte instruction in either of the last two cells faults. */
  function Fetch(s: State): (r: Result<Fetched>)
    requires Valid(s)
    ensures r.Ok? <==> Fetchable(s)
    ensures r.Err? ==> r.fault == OutOfBounds
    ensures r.Ok? ==> r.value == Fetched(s.ram[s.pc], s.ram[s.pc + 1], s.ram[s.pc + 2])
  {
    var ir :- RamRead(s, s.pc);
    var a :- RamRead(s, s.pc + 1);
    var b :- RamRead(s, s.pc + 2);
    Ok(Fetched(ir, a, b))
  }

  predicate IsJump(ir: int) {
    ir == JMP || ir == JEQ || ir == JNE
  }

  /** One iteration of the `run` loop. */
  function Step(s: State): (r: Result<State>)
    requires Valid(s)
    ensures r.Ok? ==> Valid(r.value) && Fetchable(s)
    ensures r.Ok? && !IsJump(s.ram[s.pc]) ==> r.value.pc == s.pc + 1 + NumOperands(s.ram[s.pc])
    ensures r.Ok? && s.ram[s.pc] != HLT ==> r.value.running == s.running
    ensures r.Ok? && s.ram[s.pc] != PRN ==> r.value.out == s.out
    ensures r.Ok? ==> s.out <= r.value.out
    ensures r.Ok? && s.ram[s.pc] != CMP ==> r.value.flags == s.flags
  {
    var i :- Fetch(s);
    var s1 := s.(pc := s.pc + 1 + NumOperands(i.ir));
    if IsAluOp(i.ir) then Alu.Apply(s1, i.ir, i.a, i.b)
    else match BranchTable(i.ir)
      case None => Err(Unsupported(i.ir))
      case Some(h) => Invoke(h, s1, i.a, i.b)
  }

  /** How a bounded run ends: the running bit was cleared, a step faulted
      (carrying the state at the start of that step, whose output is what was
      printed), or the fuel ran out with the machine still running. */
  datatype Outcome = Halted(state: State) | Faulted(fault: Fault, state: State) | OutOfFuel(state: State)

  /** The `while self.running` loop, bounded by `fuel` steps. */
  function Run(s: State, fuel: nat): (o: Outcome)
    requires Valid(s)
    ensures Valid(o.state)
    ensures !s.running ==> o == Halted(s)
    ensures o.Halted? ==> !o.state.running
    ensures o.OutOfFuel? ==> o.state.running
    ensures o.Faulted? ==> o.state.running && Step(o.state) == Err(o.fault)
    ensures s.out <= o.state.out
    decreases fuel
  {
    if !s.running then Halted(s)
    else if fuel == 0 then OutOfFuel(s)
    else match Step(s)
      case Err(f) => Faulted(f, s)
      case Ok(s') => Run(s', fuel - 1)
  }

  /** One turn of the loop that succeeds: a running machine with `fuel` steps
      left whose step yields `t` continues from `t` with `rest`, one less. */
  lemma RunUnfold(s: State, t: State, fuel: nat, rest: nat)
    requires Valid(s) && s.running && fuel == rest + 1 && Step(s) == Ok(t)
    ensures Valid(t) && Run(s, fuel) == Run(t, rest)
  {
    var before, after := Run(s, fuel), Run(t, rest);
    assert before == after;
  }

  /** One turn of the loop that fails: the run stops with that fault, in the
      state that attempted the step. */
  lemma RunUnfoldErr(s: State, f: Fault, fuel: nat)
    requires Valid(s) && s.running && fuel > 0 && Step(s) == Err(f)
    ensures Run(s, fuel) == Faulted(f, s)
  {
  }

  /** `CPU.run`: set the running bit, then loop. */
  function RunCpu(s: State, fuel: nat): (o: Outcome)
    requires Valid(s)
    ensures o.Halted? ==> fuel > 0 && !o.state.running
    ensures fuel == 0 ==> o == OutOfFuel(s.(running := true))
  {
    Run(s.(running := true), fuel)
  }

  /** The same loop written imperatively, as the source writes it. */
  method RunLoop(s0: State, fuel: nat) returns (o: Outcome)
    requires Valid(s0)
    ensures o == Run(s0, fuel)
  {
    var s := s0;
    var n := fuel;
    var fault: Option<Fault> := None;
    while n > 0 && s.running && fault.None?
      invariant Valid(s)
      invariant fault.None? ==> Run(s, n) == Run(s0, fuel)
      invariant fault.Some? ==> s.running && n > 0 && Faulted(fault.value, s) == Run(s0, fuel)
      decreases n, if fault.None? then 1 else 0
    {
      match Step(s) {
        case Err(f) =>
          RunUnfoldErr(s, f, n);
          fault := Some(f);
        case Ok(s') =>
          var n' := n - 1;
          RunUnfold(s, s', n, n');
          s, n := s', n';
      }
    }
    if fault.Some? {
      o := Faulted(fault.value, s);
    } else if !s.running {
      o := Halted(s);
    } else {
      o := OutOfFuel(s);
    }
  }
}
