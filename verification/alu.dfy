/** The arithmetic/logic unit: MUL, ADD, CMP and DIV on two register operands.

    Every operation here changes registers or flags only; RAM, the program
    counter, the running bit and the output are left alone. */
module Alu {
  import opened Machine

  /** Python's `//`: the quotient rounded toward minus infinity. */
  function FloorDiv(x: int, y: int): (q: int)
    requires y != 0
    ensures y > 0 ==> y * q <= x < y * q + y
    ensures y < 0 ==> y * q + y < x <= y * q
  {
    if y > 0 then x / y else (-x) / (-y)
  }

  /** MUL: `regs[a] *= regs[b]`, with no wrap-around. */
  function Mul(s: State, a: int, b: int): (r: Result<State>)
    requires Valid(s)
    ensures r.Ok? <==> IsReg(a) && IsReg(b)
    ensures r.Err? ==> r.fault == OutOfBounds
    ensures r.Ok? ==> Valid(r.value) && r.value == s.(regs := r.value.regs)
    ensures r.Ok? ==> r.value.regs[a] == s.regs[a] * s.regs[b]
    ensures r.Ok? ==> forall i :: 0 <= i < RegCount && i != a ==> r.value.regs[i] == s.regs[i]
  {
    var x :- RegRead(s, a);
    var y :- RegRead(s, b);
    Ok(s.(regs := s.regs[a := x * y]))
  }

  /** ADD: `regs[a] += regs[b]`, with no wrap-around. */
  function Add(s: State, a: int, b: int): (r: Result<State>)
    requires Valid(s)
    ensures r.Ok? <==> IsReg(a) && IsReg(b)
    ensures r.Err? ==> r.fault == OutOfBounds
    ensures r.Ok? ==> Valid(r.value) && r.value == s.(regs := r.value.regs)
    ensures r.Ok? ==> r.value.regs[a] == s.regs[a] + s.regs[b]
    ensures r.Ok? ==> forall i :: 0 <= i < RegCount && i != a ==> r.value.regs[i] == s.regs[i]
  {
    var x :- RegRead(s, a);
    var y :- RegRead(s, b);
    Ok(s.(regs := s.regs[a := x + y]))
  }

  /** The flag list with every entry cleared except position `k`. */
  function OnlyFlag(k: int): (f: seq<int>)
    requires 0 <= k < FlagCount
    ensures |f| == FlagCount && f[k] == 1
    ensures forall i :: 0 <= i < FlagCount && i != k ==> f[i] == 0
  {
    seq(FlagCount, i => if i == k then 1 else 0)
  }

  /** CMP: afterwards exactly one of L, G, E is set, and which one follows the
      order of the two register values; every other flag is clear. */
  function Cmp(s: State, a: int, b: int): (r: Result<State>)
    requires Valid(s)
    ensures r.Ok? <==> IsReg(a) && IsReg(b)
    ensures r.Err? ==> r.fault == OutOfBounds
    ensures r.Ok? ==> Valid(r.value) && r.value == s.(flags := r.value.flags)
    ensures r.Ok? ==> r.value.flags[FlagL] + r.value.flags[FlagG] + r.value.flags[FlagE] == 1
    ensures r.Ok? ==> (r.value.flags[FlagL] == 1 <==> s.regs[a] < s.regs[b])
    ensures r.Ok? ==> (r.value.flags[FlagG] == 1 <==> s.regs[a] > s.regs[b])
    ensures r.Ok? ==> (r.value.flags[FlagE] == 1 <==> s.regs[a] == s.regs[b])
    ensures r.Ok? ==> forall i :: 0 <= i < FlagCount ==> (r.value.flags[i] == 0 || r.value.flags[i] == 1)
    ensures r.Ok? ==> forall i :: 0 <= i < FlagL ==> r.value.flags[i] == 0
  {
    var x :- RegRead(s, a);
    var y :- RegRead(s, b);
    var k := if x < y then FlagL else if x > y then FlagG else FlagE;
    Ok(s.(flags := OnlyFlag(k)))
  }

  /** DIV as the source intends it. The divisor register is read (and checked)
      first; a zero divisor is fatal before the target register is touched.
      The source's `/=` yields a float; this model uses floor division. */
  function Div(s: State, a: int, b: int): (r: Result<State>)
    requires Valid(s)
    ensures r == Err(DivByZero) <==> IsReg(b) && s.regs[b] == 0
    ensures r.Ok? <==> IsReg(a) && IsReg(b) && s.regs[b] != 0
    ensures r.Err? && r != Err(DivByZero) ==> r.fault == OutOfBounds
    ensures r.Ok? ==> Valid(r.value) && r.value == s.(regs := r.value.regs)
    ensures r.Ok? && s.regs[b] > 0 ==>
              s.regs[b] * r.value.regs[a] <= s.regs[a] < s.regs[b] * r.value.regs[a] + s.regs[b]
    ensures r.Ok? && s.regs[b] < 0 ==>
              s.regs[b] * r.value.regs[a] + s.regs[b] < s.regs[a] <= s.regs[b] * r.value.regs[a]
    ensures r.Ok? ==> forall i :: 0 <= i < RegCount && i != a ==> r.value.regs[i] == s.regs[i]
  {
    var y :- RegRead(s, b);
    if y == 0 then Err(DivByZero)
    else
      var x :- RegRead(s, a);
      Ok(s.(regs := s.regs[a := FloorDiv(x, y)]))
  }

  predicate IsKnownAluOp(ir: int) {
    ir == MUL || ir == CMP || ir == ADD || ir == DIV
  }

  /** `alu(IR, a, b)` with DIV reachable, as the source evidently intends; any
      other opcode is an unsupported ALU operation. This is the ALU the rest of
      the model uses. */
  function Apply(s: State, ir: int, a: int, b: int): (r: Result<State>)
    requires Valid(s)
    ensures !IsKnownAluOp(ir) ==> r == Err(Unsupported(ir))
    ensures r.Err? && IsKnownAluOp(ir) ==> r.fault == OutOfBounds || r.fault == DivByZero
    ensures r.Err? && ir != DIV ==> r.fault != DivByZero
    ensures r.Ok? ==> Valid(r.value)
    ensures r.Ok? ==> r.value.ram == s.ram && r.value.pc == s.pc
    ensures r.Ok? ==> r.value.running == s.running && r.value.out == s.out
    ensures r.Ok? && ir != CMP ==> r.value.flags == s.flags
    ensures r.Ok? && ir == CMP ==> r.value.regs == s.regs
    ensures ir == DIV ==> (r == Err(DivByZero) <==> IsReg(b) && s.regs[b] == 0)
  {
    if ir == MUL then Mul(s, a, b)
    else if ir == CMP then Cmp(s, a, b)
    else if ir == ADD then Add(s, a, b)
    else if ir == DIV then Div(s, a, b)
    else Err(Unsupported(ir))
  }

  /** `alu(IR, a, b)` exactly as written: after MUL, CMP and ADD the source
      compares against the undefined name `AND`, so every other opcode,
      DIV included, ends with that error. */
  function AluAsWritten(s: State, ir: int, a: int, b: int): (r: Result<State>)
    requires Valid(s)
    ensures ir != MUL && ir != CMP && ir != ADD ==> r == Err(UndefinedName)
    ensures ir == MUL || ir == CMP || ir == ADD ==> r == Apply(s, ir, a, b)
  {
    if ir == MUL then Mul(s, a, b)
    else if ir == CMP then Cmp(s, a, b)
    else if ir == ADD then Add(s, a, b)
    else Err(UndefinedName)
  }

  /** The discrepancy: as written, a DIV by a non-zero register never divides,
      while the intended ALU stores the quotient. */
  lemma DivUnreachableAsWritten(s: State, a: int, b: int)
    requires Valid(s) && IsReg(a) && IsReg(b) && s.regs[b] != 0
    ensures AluAsWritten(s, DIV, a, b) == Err(UndefinedName)
    ensures Apply(s, DIV, a, b).Ok?
    ensures Apply(s, DIV, a, b).value.regs[a] == FloorDiv(s.regs[a], s.regs[b])
  {
  }
}
