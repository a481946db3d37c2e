# LS-8 CPU emulator, modelled in Dafny

This project models the interpreter of a small LS-8 style CPU: the `CPU` class
in `cpu.py`. The machine has 256 RAM cells, 8 registers and an 8-slot flag
list. Register 7 is the stack pointer and starts at 0xF4. Flag slots 5, 6 and 7
are L, G and E. There is also a program counter and a running bit.

Each step of `run` does four things:

1. It fetches the opcode at `pc` and the two cells after it.
2. It advances `pc` by `1 + (IR >> 6)`.
3. If bit 5 of the opcode is set, it hands the opcode to the ALU (MUL, ADD, CMP, DIV).
4. Otherwise it calls the opcode's branch-table handler (HLT, LDI, PRN, PUSH, POP, JMP, JEQ, JNE).

Every instruction is a pure function from `State` to `Result<State>`.
`Cpu.Step` is one iteration of the loop. `Cpu.Run` repeats it, bounded by fuel.
PRN output is collected in `State.out`. The source prints errors and exits; here
those become `Fault` values: `DivByZero`, `Unsupported(op)` and `OutOfBounds`.

Modules:

- `Machine` (machine.dfy): state, faults, opcodes, RAM access, boot image.
- `Alu` (alu.dfy): the ALU.
- `Handlers` (handlers.dfy): the branch-table handlers.
- `Cpu` (cpu.dfy): fetch, dispatch and the run loop.
- `Properties` (properties.dfy): step and run lemmas.
- `Programs` (programs.dfy): end-to-end scenarios.

Cells and registers are unbounded integers. An 8-bit CPU would usually wrap
ADD and MUL modulo 256. cpu.py:97 and cpu.py:113 do not, and the model follows
them. For example, 200 × 200 stays 40000.

By deliberate choice, any RAM address, register operand or stack pointer
outside its list is `OutOfBounds`. That includes negative ones, which Python
would silently count from the end of the list.

## Model

| member | source | states |
|---|---|---|
| Machine.Init | cpu.py:23-31 | a fresh CPU has 256 zero cells, registers all 0 except R7 = 0xF4, 8 zero flags, pc 0 and no output |
| Machine.Boot | cpu.py:60-78 | a program image is placed from address 0 with the rest of RAM zero and everything else as in a fresh CPU; an image longer than RAM fails |
| Machine.NumOperands | cpu.py:162 | `IR >> 6` is the floor of IR / 64, which is 0..3 for any byte |
| Machine.IsAluOpBit5 | cpu.py:166 | the ALU test `((IR >> 5) & 1) == 1` holds exactly when the low six bits of IR are at least 32, for every integer IR |
| Machine.RamRead | cpu.py:86-87 | reading an address inside RAM yields that cell; any other address is an out-of-bounds fault and no other kind |
| Machine.RamWrite | cpu.py:90-91 | writing changes exactly the addressed cell and nothing else in the state; any other address is an out-of-bounds fault |
| Machine.RegRead | cpu.py:180-181 | reading register operand r yields `registers[r]` when r is 0..7; any other operand is an out-of-bounds fault and no other kind |
| Machine.ReadAfterWrite | cpu.py:86-91 | a read after a write sees the written value at that address and the old value at every other address |
| Alu.Mul | cpu.py:96-97 | MUL stores the unbounded product in register a; all other registers and all other state are unchanged; it fails iff an operand is not a register, and then only out of bounds |
| Alu.Add | cpu.py:112-113 | ADD stores the unbounded sum in register a; all other registers and all other state are unchanged; it fails iff an operand is not a register, and then only out of bounds |
| Alu.Cmp | cpu.py:99-110 | after CMP, exactly one of L, G, E is 1: L iff a < b, G iff a > b, E iff they are equal; every other flag is 0 and nothing else changes; a bad operand is out of bounds |
| Alu.FloorDiv | cpu.py:124 | the quotient q satisfies the floor-division bounds for both signs of the divisor |
| Alu.Div | cpu.py:118-124 | a zero divisor (checked before the target register) is a divide-by-zero fault; any other failure is out of bounds; otherwise the target gets the floor quotient and nothing else changes |
| Alu.Apply | cpu.py:93-127 | the ALU never touches RAM, pc, running bit or output; only CMP changes flags and CMP leaves registers alone; any opcode besides the four is unsupported; the four fail only out of bounds or, for DIV alone, by dividing by zero |
| Alu.AluAsWritten | cpu.py:93-116 | as written, only MUL, CMP and ADD are executed; any other ALU opcode hits the undefined name `AND` |
| Alu.DivUnreachableAsWritten | cpu.py:115-124 | a DIV by a non-zero register fails as written but stores the floor quotient in the intended ALU |
| Handlers.Hlt | cpu.py:174-175 | HLT clears the running bit and changes nothing else |
| Handlers.Ldi | cpu.py:177-178 | LDI sets only register a, to the immediate b; a bad register is an out-of-bounds fault |
| Handlers.Prn | cpu.py:180-181 | PRN appends register a to the output, keeps the earlier output as prefix and changes no machine state; a bad register is out of bounds |
| Handlers.Push | cpu.py:183-192 | PUSH lowers R7 by one and writes register a (its new value when a is R7) to the new top cell; no other register or cell changes; it fails, only out of bounds, when the new top is outside RAM or a is not a register |
| Handlers.Pop | cpu.py:194-203 | POP loads the top cell into register a and raises R7 by one (to the popped value plus one when a is R7); RAM and other registers are unchanged; its only fault is out of bounds |
| Handlers.Jmp | cpu.py:205-216 | JMP sets pc to register a and changes nothing else; a bad register is out of bounds |
| Handlers.Jeq | cpu.py:218-229 | JEQ jumps iff flag E is 1; otherwise the state is exactly unchanged and the register is not read |
| Handlers.Jne | cpu.py:231-243 | JNE jumps iff flag E is 0; otherwise the state is exactly unchanged |
| Cpu.BranchTable | cpu.py:33-48 | HLT, LDI, PRN, PUSH, POP, JMP, JEQ and JNE each map to their own handler and no other opcode has an entry; every entry's opcode has bit 5 clear, and its top two bits equal the number of operand bytes the handler uses |
| Cpu.Invoke | cpu.py:172 | HLT never fails and every other handler fails only out of bounds; no handler changes flags; only HLT changes the running bit, only PRN the output, only the jumps pc |
| Cpu.Fetch | cpu.py:156-160 | fetching succeeds iff pc, pc+1 and pc+2 are all inside RAM, whatever the opcode, and yields those three cells; otherwise it is out of bounds |
| Cpu.Step | cpu.py:154-172 | a successful step had a fetchable pc; a non-jump moves pc to old pc + 1 + (IR >> 6); only HLT clears running, only PRN changes output (by extending it), only CMP changes flags |
| Cpu.Run | cpu.py:152-172 | a run stops exactly when the running bit is clear; a fault is reported with the state whose step failed; output only grows |
| Cpu.RunCpu | cpu.py:149-154 | `run` sets the running bit before the loop, so halting takes at least one step |
| Cpu.RunUnfold | cpu.py:154-172 | a running machine whose step succeeds continues the loop from the new state with one step less |
| Cpu.RunUnfoldErr | cpu.py:154-172 | a running machine whose step fails ends the run with that fault, in the state that tried the step |
| Cpu.RunLoop | cpu.py:149-172 | the imperative while-loop computes the same outcome as `Run` |
| Properties.StepDispatch | cpu.py:162-172 | bit 5 set goes to the ALU with the advanced pc; bit 5 clear goes to the table entry; no entry is an unsupported fault; an unfetchable pc is out of bounds |
| Properties.StepFaultKinds | cpu.py:156-172 | a failing step fails out of bounds, by dividing by zero (only for a DIV at pc), or as unsupported with the opcode at pc; the undefined-name error never arises |
| Properties.UnknownAluOpFaults | cpu.py:126-127 | an opcode routed to the ALU that is not MUL, CMP, ADD or DIV is a fault, not a no-op |
| Properties.CmpStep | cpu.py:99-110 | a CMP step sets exactly the flag matching the order of the two registers, clears all others, and leaves registers, RAM, output and running alone |
| Properties.JmpStep | cpu.py:205-216 | a JMP step overrides the pre-advanced pc with the register value and changes nothing else |
| Properties.JeqStep | cpu.py:218-229 | a JEQ step jumps iff E is 1, and otherwise falls through to pc + 2 |
| Properties.JneStep | cpu.py:231-243 | a JNE step jumps iff E is 0, and otherwise falls through to pc + 2 |
| Properties.LdiStep | cpu.py:177-178 | an LDI step changes only the target register and moves pc by 3 |
| Properties.PrnStep | cpu.py:180-181 | a PRN step appends the register to the output and moves pc by 2, nothing else |
| Properties.AddMulStep | cpu.py:96-113 | an ADD or MUL step changes only the target register, to the sum or product, and moves pc by 3 |
| Properties.HltStep | cpu.py:174-175 | an HLT step clears running and moves pc by 1, nothing else |
| Properties.PushStep | cpu.py:164-192 | a PUSH step is the PUSH handler on the first operand byte, run with pc already moved by two |
| Properties.PopStep | cpu.py:164-203 | a POP step is the POP handler on the first operand byte, run with pc already moved by two |
| Properties.PushThenPop | cpu.py:183-203 | PUSH r then POP r' gives r' the old value of r and restores R7; only r' and the cell below the old R7 differ |
| Properties.PushAllLayout | cpu.py:183-192 | after N pushes the j-th pushed value is j+1 cells below the old R7, R7 has dropped by N, and nothing outside the new stack cells changed |
| Properties.PopAllReads | cpu.py:194-203 | N pops read the N cells from R7 upward, in order, raise R7 by N and leave RAM alone |
| Properties.PushPopLifo | cpu.py:183-203 | N pushes then N pops return the pushed values in reverse order and restore R7 |
| Properties.RunUnfoldMore | cpu.py:154-172 | after a successful first step, a run from the old state with m + n fuel is a run from the new state with m - 1 + n |
| Properties.RunSplit | cpu.py:154-172 | m + n steps of fuel are m steps and then n more; a run that stopped within m steps is unaffected by the extra n |
| Properties.RunSplitStep | cpu.py:154-172 | the same split for a run whose first step succeeds, taken over from the state that step yields |
| Properties.RunMoreFuel | cpu.py:154-172 | a halted or faulted run gives the same outcome with any amount of extra fuel |
| Properties.HltEndsRun | cpu.py:154-175 | after an HLT step the loop ends at once, whatever fuel remains |
| Properties.DivByZeroEndsRun | cpu.py:118-121 | a DIV by a zero register ends the run with a divide-by-zero fault in the state that tried it |
| Programs.Execute | cpu.py:149-172 | booting succeeds iff the image fits RAM; a halted outcome is not running and took fuel |
| Programs.HaltOnly | cpu.py:174-175 | a program that is a single HLT halts after one step with no output |
| Programs.LoadThenPrint | cpu.py:177-181 | LDI R0,42; PRN R0; HLT prints exactly 42 and halts |
| Programs.MulPrints72 | cpu.py:96-97 | LDI R0,8; LDI R1,9; MUL R0,R1; PRN R0; HLT prints exactly 72 and halts |
| Programs.DivByZeroPrintsNothing | cpu.py:118-121 | dividing by a zero register faults before the PRN after it, so nothing is printed |

## Left out

- Loading from an object file (cpu.py:51-83) is not modelled: argument handling, file reading and binary-text parsing. `Machine.Boot` only places an already-parsed image at address 0.
- `trace` (cpu.py:129-147) is debug printing only. It also refers to a nonexistent `self.reg`.
- The unused `self.memory` list (cpu.py:26) is not modelled.
- Printing to stdout becomes appending to `State.out`.
- `sys.exit` and raised exceptions become `Fault` values. The error messages are not modelled.
- Alu.Div: the source's `/=` gives a float. The model uses floor division (Python's `//`), because floating point is out of scope.
- The `AND` branch (cpu.py:115-116) gets no opcode, because the source never defines one.
- The branch-table entries that map ADD, MUL, DIV and CMP to `alu` (cpu.py:39-44) are not modelled. Those opcodes have bit 5 set, so the dispatcher never looks them up.
- Machine.RamRead: a negative address is `OutOfBounds`. Python would read from the end of the list. The same holds for register operands, the stack pointer in PUSH/POP, and a jump target used as pc.
- Cpu.Run: the loop is bounded by fuel. A program that never halts ends as `OutOfFuel` rather than looping forever.
- Values that become floats after a source-level division are not modelled. Every cell and register is an integer.

## Findings

| source | as written | input that shows it | evidently intended | confidence | as-written member | corrected member |
|---|---|---|---|---|---|---|
| cpu.py:115-124 | after MUL, CMP and ADD the ALU compares IR with `AND`, a name that is never defined. So DIV, and every other ALU opcode, raises a NameError, and the DIV branch and the "Unsupported ALU operation" branch never run | `LDI R0,8; LDI R1,2; DIV R0,R1` (see `Alu.DivUnreachableAsWritten`) | DIV divides register a by register b, faulting on a zero divisor; other ALU opcodes are unsupported | not executed; high | Alu.AluAsWritten | Alu.Apply |
