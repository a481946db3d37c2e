/** The non-ALU instruction handlers: HLT, LDI, PRN, PUSH, POP, JMP, JEQ, JNE.

    Each receives the state whose pc the dispatcher has already advanced past
    the instruction, plus the two bytes that followed the opcode. */
module Handlers {
  import opened Machine

  /** HLT: clear the running bit and nothing else. */
  function Hlt(s: State): (r: Result<State>)
    requires Valid(s)
    ensures r.Ok? && Valid(r.value) && !r.value.running
    ensures r.value.(running := s.running) == s
  {
    Ok(s.(running := false))
  }

  /** LDI: load the immediate `b` into register `a`. */
  function Ldi(s: State, a: int, b: int): (r: Result<State>)
    requires Valid(s)
    ensures r.Ok? <==> IsReg(a)
    ensures r.Err? ==> r.fault == OutOfBounds
    ensures r.Ok? ==> Valid(r.value) && r.value == s.(regs := r.value.regs)
    ensures r.Ok? ==> r.value.regs[a] == b
    ensures r.Ok? ==> forall i :: 0 <= i < RegCount && i != a ==> r.value.regs[i] == s.regs[i]
  {
    if IsReg(a) then Ok(s.(regs := s.regs[a := b])) else Err(OutOfBounds)
  }

  /** PRN: emit the value of register `a`; the machine state is unchanged. */
  function Prn(s: State, a: int): (r: Result<State>)
    requires Valid(s)
    ensures r.Ok? <==> IsReg(a)
    ensures r.Err? ==> r.fault == OutOfBounds
    ensures r.Ok? ==> Valid(r.value) && r.value == s.(out := r.value.out)
    ensures r.Ok? ==> |r.value.out| == |s.out| + 1 && r.value.out[|s.out|] == s.regs[a]
    ensures r.Ok? ==> r.value.out[..|s.out|] == s.out
  {
    var v :- RegRead(s, a);
    Ok(s.(out := s.out + [v]))
  }

  /** PUSH: decrement the stack pointer, then store register `a` at the new
      stack pointer. The register is read after the decrement, so pushing the
      stack pointer itself stores its decremented value. */
  function Push(s: State, a: int): (r: Result<State>)
    requires Valid(s)
    ensures r.Ok? <==> IsReg(a) && IsAddr(s.regs[SP] - 1)
    ensures r.Err? ==> r.fault == OutOfBounds
    ensures r.Ok? ==> Valid(r.value)
    ensures r.Ok? ==> r.value == s.(regs := r.value.regs, ram := r.value.ram)
    ensures r.Ok? ==> r.value.regs[SP] == s.regs[SP] - 1
    ensures r.Ok? ==> forall i :: 0 <= i < RegCount && i != SP ==> r.value.regs[i] == s.regs[i]
    ensures r.Ok? ==> r.value.ram[s.regs[SP] - 1] == (if a == SP then s.regs[SP] - 1 else s.regs[a])
    ensures r.Ok? ==> forall i :: 0 <= i < RamSize && i != s.regs[SP] - 1 ==> r.value.ram[i] == s.ram[i]
  {
    var sp := s.regs[SP] - 1;
    var s1 := s.(regs := s.regs[SP := sp]);
    var v :- RegRead(s1, a);
    RamWrite(s1, sp, v)
  }

  /** POP: read the cell at the stack pointer into register `a`, then
      increment the stack pointer. Popping into the stack pointer therefore
      leaves it one above the popped value. */
  function Pop(s: State, a: int): (r: Result<State>)
    requires Valid(s)
    ensures r.Ok? <==> IsAddr(s.regs[SP]) && IsReg(a)
    ensures r.Err? ==> r.fault == OutOfBounds
    ensures r.Ok? ==> Valid(r.value) && r.value == s.(regs := r.value.regs)
    ensures r.Ok? && a != SP ==> r.value.regs[a] == s.ram[s.regs[SP]]
    ensures r.Ok? ==> r.value.regs[SP] == (if a == SP then s.ram[s.regs[SP]] else s.regs[SP]) + 1
    ensures r.Ok? ==> forall i :: 0 <= i < RegCount && i != SP && i != a ==> r.value.regs[i] == s.regs[i]
  {
    var v :- RamRead(s, s.regs[SP]);
    if !IsReg(a) then Err(OutOfBounds)
    else
      var s1 := s.(regs := s.regs[a := v]);
      Ok(s1.(regs := s1.regs[SP := s1.regs[SP] + 1]))
  }

  /** JMP: the pc becomes the value of register `a`. */
  function Jmp(s: State, a: int): (r: Result<State>)
    requires Valid(s)
    ensures r.Ok? <==> IsReg(a)
    ensures r.Err? ==> r.fault == OutOfBounds
    ensures r.Ok? ==> Valid(r.value) && r.value == s.(pc := s.regs[a])
  {
    var target :- RegRead(s, a);
    Ok(s.(pc := target))
  }

  /** JEQ: jump when the E flag is 1; otherwise the state is left exactly as
      is (and the register operand is never read). */
  function Jeq(s: State, a: int): (r: Result<State>)
    requires Valid(s)
    ensures s.flags[FlagE] != 1 ==> r == Ok(s)
    ensures s.flags[FlagE] == 1 ==> (r.Ok? <==> IsReg(a))
    ensures r.Err? ==> r.fault == OutOfBounds
    ensures s.flags[FlagE] == 1 && r.Ok? ==> r.value == s.(pc := s.regs[a])
  {
    if s.flags[FlagE] == 1 then Jmp(s, a) else Ok(s)
  }

  /** JNE: jump when the E flag is 0; otherwise the state is left exactly as is. */
  function Jne(s: State, a: int): (r: Result<State>)
    requires Valid(s)
    ensures s.flags[FlagE] != 0 ==> r == Ok(s)
    ensures s.flags[FlagE] == 0 ==> (r.Ok? <==> IsReg(a))
    ensures r.Err? ==> r.fault == OutOfBounds
    ensures s.flags[FlagE] == 0 && r.Ok? ==> r.value == s.(pc := s.regs[a])
  {
    if s.flags[FlagE] == 0 then Jmp(s, a) else Ok(s)
  }
}
