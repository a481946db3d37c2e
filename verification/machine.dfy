/** Machine state of the LS-8 style CPU and the memory and register primitives
    that every instruction is built from.

    Cells and registers hold unbounded integers: the Python original never
    truncates to a byte, so neither does this model.

    Index policy (a deliberate choice of this model): Python silently accepts a
    negative list index and counts it from the end. Here any address or register
    index outside its list, negative ones included, is an `OutOfBounds` fault. */
module Machine {

  const RamSize: int := 256
  const RegCount: int := 8
  const FlagCount: int := 8

  /** Register 7 is the stack pointer; it starts at 0xF4. */
  const SP: int := 7
  const StackTop: int := 0xF4

  /** Positions of the less-than, greater-than and equal flags in the flag list. */
  const FlagL: int := 5
  const FlagG: int := 6
  const FlagE: int := 7

  // Opcodes. The top two bits give the operand count, bit 5 marks an ALU operation.
  const HLT: int := 0x01
  const LDI: int := 0x82
  const PRN: int := 0x47
  const PUSH: int := 0x45
  const POP: int := 0x46
  const ADD: int := 0xA0
  const MUL: int := 0xA2
  const DIV: int := 0xA3
  const CMP: int := 0xA7
  const JMP: int := 0x54
  const JEQ: int := 0x55
  const JNE: int := 0x56

  /** Everything that ends a run other than HLT. `UndefinedName` is what the
      ALU as written raises for any opcode past ADD, because it compares
      against a name `AND` that is never defined. */
  datatype Fault = DivByZero | Unsupported(op: int) | OutOfBounds | UndefinedName

  datatype Option<T> = None | Some(value: T)

  datatype Result<T> = Ok(value: T) | Err(fault: Fault) {
    predicate IsFailure() { Err? }
    function PropagateFailure<U>(): Result<U>
      requires Err?
    {
      Err(fault)
    }
    function Extract(): T
      requires Ok?
    {
      value
    }
  }

  /** The CPU object: RAM, register file, flag list, program counter, the
      running bit, and everything PRN has printed so far. */
  datatype State = State(
    ram: seq<int>,
    regs: seq<int>,
    flags: seq<int>,
    pc: int,
    running: bool,
    out: seq<int>)

  /** The list sizes fixed at construction; no operation grows or shrinks them. */
  predicate Valid(s: State) {
    |s.ram| == RamSize && |s.regs| == RegCount && |s.flags| == FlagCount
  }

  predicate IsReg(r: int) { 0 <= r < RegCount }

  predicate IsAddr(a: int) { 0 <= a < RamSize }

  /** `IR >> 6`. Python's shift floors, and so does Dafny's division by a
      positive divisor, so this agrees with the source on negative cells too. */
  function NumOperands(ir: int): (n: int)
    ensures n * 64 <= ir < n * 64 + 64
    ensures 0 <= ir < 256 ==> 0 <= n <= 3
  {
    ir / 64
  }

  /** `((IR >> 5) & 1) == 1`: bit 5 of the opcode is set. */
  predicate IsAluOp(ir: int) {
    (ir / 32) % 2 == 1
  }

  /** Bit 5 is set exactly when the low six bits are at least 32, for every
      integer opcode, negative ones included (Python's `>>` and `&` act on
      the two's-complement form, whose low six bits are `ir % 64`). */
  lemma IsAluOpBit5(ir: int)
    ensures IsAluOp(ir) <==> 32 <= ir % 64
  {
    var q, r := ir / 64, ir % 64;
    var t := r / 32;
    assert 0 <= r - 32 * t < 32;
    assert ir == 32 * (2 * q + t) + (r - 32 * t);
    assert ir / 32 == 2 * q + t;
    assert (2 * q + t) % 2 == t;
  }

  /** A fresh CPU: zeroed RAM, zeroed registers except the stack pointer,
      zeroed flags, pc at 0. The source creates `running` only when `run`
      starts, so a fresh CPU is not running yet. */
  function Init(): (s: State)
    ensures Valid(s)
    ensures forall i :: 0 <= i < RamSize ==> s.ram[i] == 0
    ensures forall i :: 0 <= i < RegCount ==> s.regs[i] == (if i == SP then StackTop else 0)
    ensures forall i :: 0 <= i < FlagCount ==> s.flags[i] == 0
    ensures s.pc == 0 && !s.running && s.out == []
  {
    State(seq(RamSize, _ => 0), seq(RegCount, i => if i == SP then StackTop else 0),
          seq(FlagCount, _ => 0), 0, false, [])
  }

  /** A fresh CPU with a program image placed at address 0. The text parsing
      of the object file is not part of this model; a program longer than RAM
      fails on its first write past the end. */
  function Boot(program: seq<int>): (r: Result<State>)
    ensures r.Ok? <==> |program| <= RamSize
    ensures r.Ok? ==> Valid(r.value) && r.value.ram[..|program|] == program
    ensures r.Ok? ==> forall i :: |program| <= i < RamSize ==> r.value.ram[i] == 0
    ensures r.Ok? ==> r.value == Init().(ram := r.value.ram)
  {
    if |program| > RamSize then Err(OutOfBounds)
    else Ok(Init().(ram := program + seq(RamSize - |program|, _ => 0)))
  }

  /** `ram_read`: the cell at `addr`. */
  function RamRead(s: State, addr: int): (r: Result<int>)
    requires Valid(s)
    ensures r.Ok? <==> IsAddr(addr)
    ensures r.Err? ==> r.fault == OutOfBounds
    ensures r.Ok? ==> r.value == s.ram[addr]
  {
    if IsAddr(addr) then Ok(s.ram[addr]) else Err(OutOfBounds)
  }

  /** `ram_write`: store `v` at `addr`, touching no other cell and nothing else. */
  function RamWrite(s: State, addr: int, v: int): (r: Result<State>)
    requires Valid(s)
    ensures r.Ok? <==> IsAddr(addr)
    ensures r.Err? ==> r.fault == OutOfBounds
    ensures r.Ok? ==> Valid(r.value) && r.value == s.(ram := r.value.ram)
    ensures r.Ok? ==> r.value.ram[addr] == v
    ensures r.Ok? ==> forall i :: 0 <= i < RamSize && i != addr ==> r.value.ram[i] == s.ram[i]
  {
    if IsAddr(addr) then Ok(s.(ram := s.ram[addr := v])) else Err(OutOfBounds)
  }

  /** Reading a register operand. */
  function RegRead(s: State, r: int): (v: Result<int>)
    requires Valid(s)
    ensures v.Ok? <==> IsReg(r)
    ensures v.Err? ==> v.fault == OutOfBounds
    ensures v.Ok? ==> v.value == s.regs[r]
  {
    if IsReg(r) then Ok(s.regs[r]) else Err(OutOfBounds)
  }

  /** A read after a write sees the written value at the written address and
      the old value everywhere else. */
  lemma ReadAfterWrite(s: State, addr: int, v: int, addr': int)
    requires Valid(s) && IsAddr(addr)
    ensures RamRead(RamWrite(s, addr, v).value, addr') ==
            (if addr' == addr then Ok(v) else RamRead(s, addr'))
  {
  }
}
