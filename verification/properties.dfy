/** Properties of single steps and of whole runs: the pc advance and the jump
    override, dispatch, flag exclusivity after CMP, frame conditions, the
    stack's last-in-first-out behaviour, and how runs stop. */
module Properties {
  import opened Machine
  import Alu
  import Handlers
  import opened Cpu

  /** The state the dispatcher hands to the handler: pc moved past the
      instruction at the current pc. */
  function Advanced(s: State): State
    requires Valid(s) && 0 <= s.pc < RamSize
  {
    s.(pc := s.pc + 1 + NumOperands(s.ram[s.pc]))
  }

  // ---------------------------------------------------------------------------
  // Decode and dispatch

  /** An opcode with bit 5 set goes to the ALU with the advanced state; one
      with bit 5 clear goes to its branch-table handler; a non-ALU opcode with
      no entry is an unsupported-operation fault; and an unreadable pc faults
      before anything is decoded. */
  lemma StepDispatch(s: State)
    requires Valid(s)
    ensures !Fetchable(s) ==> Step(s) == Err(OutOfBounds)
    ensures Fetchable(s) && IsAluOp(s.ram[s.pc]) ==>
              Step(s) == Alu.Apply(Advanced(s), s.ram[s.pc], s.ram[s.pc + 1], s.ram[s.pc + 2])
    ensures Fetchable(s) && !IsAluOp(s.ram[s.pc]) && BranchTable(s.ram[s.pc]).Some? ==>
              Step(s) == Invoke(BranchTable(s.ram[s.pc]).value, Advanced(s), s.ram[s.pc + 1], s.ram[s.pc + 2])
    ensures Fetchable(s) && !IsAluOp(s.ram[s.pc]) && BranchTable(s.ram[s.pc]).None? ==>
              Step(s) == Err(Unsupported(s.ram[s.pc]))
  {
  }

  /** A step fails only with an out-of-bounds index, a divide-by-zero from
      DIV, or an unsupported opcode that is the one at pc; the undefined-name
      error of the ALU as written never arises. */
  lemma StepFaultKinds(s: State)
    requires Valid(s) && Step(s).Err?
    ensures var f := Step(s).fault;
      f == OutOfBounds || f == DivByZero || (Fetchable(s) && f == Unsupported(s.ram[s.pc]))
    ensures Step(s).fault == DivByZero ==> Fetchable(s) && s.ram[s.pc] == DIV
  {
    StepDispatch(s);
  }

  /** An ALU-routed opcode that is none of MUL, CMP, ADD, DIV is a fault,
      never a silent no-op. */
  lemma UnknownAluOpFaults(s: State)
    requires Fetchable(s) && IsAluOp(s.ram[s.pc]) && !Alu.IsKnownAluOp(s.ram[s.pc])
    ensures Step(s) == Err(Unsupported(s.ram[s.pc]))
  {
  }

  // ---------------------------------------------------------------------------
  // CMP

  /** After a CMP step exactly one of L, G, E is 1 and all other flags are 0;
      which one is set follows the order of the two registers; registers, RAM
      and the running bit are as before and pc moved past the three-byte
      instruction. */
  lemma CmpStep(s: State)
    requires Fetchable(s) && s.ram[s.pc] == CMP
    requires IsReg(s.ram[s.pc + 1]) && IsReg(s.ram[s.pc + 2])
    ensures Step(s).Ok?
    ensures var t := Step(s).value; var x := s.regs[s.ram[s.pc + 1]]; var y := s.regs[s.ram[s.pc + 2]];
      && (forall i :: 0 <= i < FlagCount ==> t.flags[i] == (if (i == FlagL && x < y) || (i == FlagG && x > y) || (i == FlagE && x == y) then 1 else 0))
      && t.regs == s.regs && t.ram == s.ram && t.out == s.out && t.running == s.running
      && t.pc == s.pc + 3
  {
    var t := Step(s).value;
    var x := s.regs[s.ram[s.pc + 1]];
    var y := s.regs[s.ram[s.pc + 2]];
    assert t == Alu.Cmp(Advanced(s), s.ram[s.pc + 1], s.ram[s.pc + 2]).value;
    forall i | 0 <= i < FlagCount
      ensures t.flags[i] == (if (i == FlagL && x < y) || (i == FlagG && x > y) || (i == FlagE && x == y) then 1 else 0)
    {
      if i < FlagL {
        assert t.flags[i] == 0;
      }
    }
  }

  // ---------------------------------------------------------------------------
  // Jumps

  /** JMP sets pc to the register's value, overriding the pre-advance; nothing
      else changes. */
  lemma JmpStep(s: State)
    requires Fetchable(s) && s.ram[s.pc] == JMP
    ensures Step(s).Ok? <==> IsReg(s.ram[s.pc + 1])
    ensures Step(s).Ok? ==> Step(s).value == s.(pc := s.regs[s.ram[s.pc + 1]])
  {
  }

  /** JEQ jumps exactly when the E flag is 1, and otherwise falls through to
      the next instruction two bytes on; it changes nothing but pc. */
  lemma JeqStep(s: State)
    requires Fetchable(s) && s.ram[s.pc] == JEQ
    ensures s.flags[FlagE] != 1 ==> Step(s) == Ok(s.(pc := s.pc + 2))
    ensures s.flags[FlagE] == 1 ==> (Step(s).Ok? <==> IsReg(s.ram[s.pc + 1]))
    ensures s.flags[FlagE] == 1 && Step(s).Ok? ==> Step(s).value == s.(pc := s.regs[s.ram[s.pc + 1]])
  {
  }

  /** JNE jumps exactly when the E flag is 0, and otherwise falls through. */
  lemma JneStep(s: State)
    requires Fetchable(s) && s.ram[s.pc] == JNE
    ensures s.flags[FlagE] != 0 ==> Step(s) == Ok(s.(pc := s.pc + 2))
    ensures s.flags[FlagE] == 0 ==> (Step(s).Ok? <==> IsReg(s.ram[s.pc + 1]))
    ensures s.flags[FlagE] == 0 && Step(s).Ok? ==> Step(s).value == s.(pc := s.regs[s.ram[s.pc + 1]])
  {
  }

  // ---------------------------------------------------------------------------
  // LDI, PRN, ADD, MUL, HLT as whole steps

  /** LDI changes only the target register (and pc, by three). */
  lemma LdiStep(s: State)
    requires Fetchable(s) && s.ram[s.pc] == LDI && IsReg(s.ram[s.pc + 1])
    ensures Step(s) == Ok(s.(pc := s.pc + 3, regs := s.regs[s.ram[s.pc + 1] := s.ram[s.pc + 2]]))
  {
  }

  /** PRN appends the register to the output and changes no machine state but pc. */
  lemma PrnStep(s: State)
    requires Fetchable(s) && s.ram[s.pc] == PRN && IsReg(s.ram[s.pc + 1])
    ensures Step(s) == Ok(s.(pc := s.pc + 2, out := s.out + [s.regs[s.ram[s.pc + 1]]]))
  {
  }

  /** ADD and MUL change only the target register, to the sum or product. */
  lemma AddMulStep(s: State)
    requires Fetchable(s) && (s.ram[s.pc] == ADD || s.ram[s.pc] == MUL)
    requires IsReg(s.ram[s.pc + 1]) && IsReg(s.ram[s.pc + 2])
    ensures var a := s.ram[s.pc + 1]; var x := s.regs[a]; var y := s.regs[s.ram[s.pc + 2]];
      Step(s) == Ok(s.(pc := s.pc + 3, regs := s.regs[a := if s.ram[s.pc] == ADD then x + y else x * y]))
  {
    var a := s.ram[s.pc + 1];
    var t := Step(s).value;
    assert t.regs == s.regs[a := t.regs[a]];
  }

  /** HLT clears the running bit and moves pc by one; nothing else changes. */
  lemma HltStep(s: State)
    requires Fetchable(s) && s.ram[s.pc] == HLT
    ensures Step(s) == Ok(s.(pc := s.pc + 1, running := false))
  {
  }

  // ---------------------------------------------------------------------------
  // The stack

  /** A PUSH step runs the PUSH handler on its operand, with pc moved by two. */
  lemma PushStep(s: State)
    requires Fetchable(s) && s.ram[s.pc] == PUSH
    ensures Step(s) == Handlers.Push(s.(pc := s.pc + 2), s.ram[s.pc + 1])
  {
  }

  /** A POP step runs the POP handler on its operand, with pc moved by two. */
  lemma PopStep(s: State)
    requires Fetchable(s) && s.ram[s.pc] == POP
    ensures Step(s) == Handlers.Pop(s.(pc := s.pc + 2), s.ram[s.pc + 1])
  {
  }

  /** PUSH r then POP r' (neither the stack pointer) moves old r into r' and
      restores the stack pointer; only r', the stack pointer's cell below and
      the stack pointer ever changed. */
  lemma PushThenPop(s: State, r: int, r': int)
    requires Valid(s) && IsReg(r) && IsReg(r') && r != SP && r' != SP
    requires IsAddr(s.regs[SP] - 1)
    ensures Handlers.Push(s, r).Ok?
    ensures Handlers.Pop(Handlers.Push(s, r).value, r').Ok?
    ensures var t := Handlers.Pop(Handlers.Push(s, r).value, r').value;
      && t.regs[r'] == s.regs[r] && t.regs[SP] == s.regs[SP]
      && (forall i :: 0 <= i < RegCount && i != r' ==> t.regs[i] == s.regs[i])
      && (forall i :: 0 <= i < RamSize && i != s.regs[SP] - 1 ==> t.ram[i] == s.ram[i])
      && t.flags == s.flags && t.pc == s.pc && t.out == s.out && t.running == s.running
  {
  }

  /** PUSH of each register in `rs`, in order. */
  function PushAll(s: State, rs: seq<int>): (r: Result<State>)
    requires Valid(s)
    ensures r.Ok? ==> Valid(r.value)
    decreases |rs|
  {
    if rs == [] then Ok(s)
    else
      var s1 :- Handlers.Push(s, rs[0]);
      PushAll(s1, rs[1..])
  }

  /** `n` POPs into register `d`, with the value each one read, in order. */
  function PopAll(s: State, n: nat, d: int): (r: Result<(State, seq<int>)>)
    requires Valid(s)
    ensures r.Ok? ==> Valid(r.value.0) && |r.value.1| == n
    decreases n
  {
    if n == 0 then Ok((s, []))
    else
      var v :- RamRead(s, s.regs[SP]);
      var s1 :- Handlers.Pop(s, d);
      var rest :- PopAll(s1, n - 1, d);
      Ok((rest.0, [v] + rest.1))
  }

  /** After pushing `rs`, the j-th pushed value sits j+1 cells below the old
      stack pointer, the stack pointer dropped by |rs|, and nothing outside the
      new stack cells or the stack pointer changed. */
  lemma {:induction false} PushAllLayout(s: State, rs: seq<int>)
    requires Valid(s)
    requires forall i :: 0 <= i < |rs| ==> 0 <= rs[i] < SP
    requires |rs| <= s.regs[SP] <= RamSize
    ensures PushAll(s, rs).Ok?
    ensures var t := PushAll(s, rs).value;
      && t.regs[SP] == s.regs[SP] - |rs|
      && (forall i :: 0 <= i < SP ==> t.regs[i] == s.regs[i])
      && (forall j :: 0 <= j < |rs| ==> t.ram[s.regs[SP] - 1 - j] == s.regs[rs[j]])
      && (forall i :: 0 <= i < RamSize && !(s.regs[SP] - |rs| <= i < s.regs[SP]) ==> t.ram[i] == s.ram[i])
      && t.flags == s.flags && t.pc == s.pc && t.out == s.out && t.running == s.running
    decreases |rs|
  {
    if rs != [] {
      var s1 := Handlers.Push(s, rs[0]).value;
      PushAllLayout(s1, rs[1..]);
      var t := PushAll(s, rs).value;
      assert t == PushAll(s1, rs[1..]).value;
      forall j | 0 <= j < |rs|
        ensures t.ram[s.regs[SP] - 1 - j] == s.regs[rs[j]]
      {
        if j > 0 {
          assert rs[1..][j - 1] == rs[j];
        }
      }
    }
  }

  /** Popping n times reads the n cells from the stack pointer upward, in
      order, and leaves the stack pointer n higher; RAM is untouched. */
  lemma {:induction false} PopAllReads(s: State, n: nat, d: int)
    requires Valid(s) && IsReg(d) && d != SP
    requires 0 <= s.regs[SP] && s.regs[SP] + n <= RamSize
    ensures PopAll(s, n, d).Ok?
    ensures var t, vs := PopAll(s, n, d).value.0, PopAll(s, n, d).value.1;
      && (forall k :: 0 <= k < n ==> vs[k] == s.ram[s.regs[SP] + k])
      && t.regs[SP] == s.regs[SP] + n && t.ram == s.ram
      && (forall i :: 0 <= i < RegCount && i != SP && i != d ==> t.regs[i] == s.regs[i])
    decreases n
  {
    if n > 0 {
      var s1 := Handlers.Pop(s, d).value;
      PopAllReads(s1, n - 1, d);
      var vs := PopAll(s, n, d).value.1;
      var rest := PopAll(s1, n - 1, d).value.1;
      assert vs == [s.ram[s.regs[SP]]] + rest;
      forall k | 0 < k < n
        ensures vs[k] == s.ram[s.regs[SP] + k]
      {
        assert vs[k] == rest[k - 1];
      }
    }
  }

  /** Last in, first out: N pushes followed by N pops return the pushed
      values in reverse order and restore the stack pointer. */
  lemma PushPopLifo(s: State, rs: seq<int>, d: int)
    requires Valid(s) && IsReg(d) && d != SP
    requires forall i :: 0 <= i < |rs| ==> 0 <= rs[i] < SP
    requires |rs| <= s.regs[SP] <= RamSize
    ensures PushAll(s, rs).Ok?
    ensures PopAll(PushAll(s, rs).value, |rs|, d).Ok?
    ensures var p := PopAll(PushAll(s, rs).value, |rs|, d).value; var t, vs := p.0, p.1;
      && (forall k :: 0 <= k < |rs| ==> vs[k] == s.regs[rs[|rs| - 1 - k]])
      && t.regs[SP] == s.regs[SP]
  {
    PushAllLayout(s, rs);
    var m := PushAll(s, rs).value;
    PopAllReads(m, |rs|, d);
    var vs := PopAll(m, |rs|, d).value.1;
    forall k | 0 <= k < |rs|
      ensures vs[k] == s.regs[rs[|rs| - 1 - k]]
    {
      assert m.regs[SP] + k == s.regs[SP] - 1 - (|rs| - 1 - k);
    }
  }

  // ---------------------------------------------------------------------------
  // Runs

  /** The same turn with `n` extra steps of fuel on both sides. */
  lemma RunUnfoldMore(s: State, t: State, m: nat, k: nat, n: nat)
    requires Valid(s) && s.running && m == k + 1 && Step(s) == Ok(t)
    ensures Valid(t) && Run(s, m + n) == Run(t, k + n)
  {
    var before, after := Run(s, m + n), Run(t, k + n);
    assert before == after;
  }

  /** What is left of a run after `n` more steps of fuel: a run that ran out
      of fuel resumes from where it stopped, any other outcome is final. */
  function Resume(o: Outcome, n: nat): (r: Outcome)
    requires Valid(o.state)
    ensures !o.OutOfFuel? ==> r == o
  {
    if o.OutOfFuel? then Run(o.state, n) else o
  }

  /** Splitting the fuel: running m steps and then n more is running m + n,
      and a run that ended within m steps ends the same way with more fuel. */
  lemma {:induction false} RunSplit(s: State, m: nat, n: nat)
    requires Valid(s)
    ensures Run(s, m + n) == Resume(Run(s, m), n)
    decreases m, 1
  {
    var whole, first := Run(s, m + n), Run(s, m);
    if !s.running {
      assert whole == Halted(s) && first == Halted(s);
    } else if m == 0 {
      assert first == OutOfFuel(s) && m + n == n;
    } else if Step(s).Err? {
      RunUnfoldErr(s, Step(s).fault, m + n);
      RunUnfoldErr(s, Step(s).fault, m);
      assert whole == first && !first.OutOfFuel?;
    } else {
      RunSplitStep(s, Step(s).value, m, m - 1, n);
    }
    assert whole == Resume(first, n);
  }

  /** The inductive case of `RunSplit`: the first step yields `t`, so a run
      from `s` with m steps of fuel is a run from `t` with k = m - 1, and the
      split at `t` carries over. */
  lemma {:induction false} RunSplitStep(s: State, t: State, m: nat, k: nat, n: nat)
    requires Valid(s) && s.running && Step(s) == Ok(t) && m == k + 1
    ensures Run(s, m + n) == Resume(Run(s, m), n)
    decreases m, 0
  {
    RunUnfoldMore(s, t, m, k, n);
    var whole, rest := Run(s, m + n), Run(t, k + n);
    assert whole == rest;
    RunUnfold(s, t, m, k);
    var first, restFirst := Run(s, m), Run(t, k);
    assert first == restFirst;
    RunSplit(t, k, n);
    assert whole == Resume(first, n);
  }

  /** A run that has stopped (halted or faulted) is unaffected by more fuel. */
  lemma RunMoreFuel(s: State, f: nat, k: nat)
    requires Valid(s) && !Run(s, f).OutOfFuel?
    ensures Run(s, f + k) == Run(s, f)
  {
    RunSplit(s, f, k);
  }

  /** An HLT ends the run at once: the next loop test sees the running bit
      clear, whatever fuel is left. */
  lemma HltEndsRun(s: State, fuel: nat)
    requires Fetchable(s) && s.running && s.ram[s.pc] == HLT
    ensures Run(s, fuel + 1) == Halted(s.(pc := s.pc + 1, running := false))
  {
    HltStep(s);
  }

  /** DIV by a zero register is fatal: the run ends with a divide-by-zero
      fault in the very state that attempted it, so no later instruction runs
      and nothing more is printed. */
  lemma DivByZeroEndsRun(s: State, fuel: nat)
    requires Fetchable(s) && s.running && s.ram[s.pc] == DIV
    requires IsReg(s.ram[s.pc + 2]) && s.regs[s.ram[s.pc + 2]] == 0
    ensures Run(s, fuel + 1) == Faulted(DivByZero, s)
  {
    StepDispatch(s);
  }
}
