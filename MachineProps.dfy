/** What the machine promises: how each instruction moves pc and the stack, that calls return
    where they were made, that output only grows, and how the step budget ends a run. */
module MachineProps {
  import opened Wrappers
  import opened Values
  import opened Generator
  import opened Machine

  predicate Advancing(op: Opcode)
  {
    op in {LOAD_CONST, LOAD_VAR, STORE_VAR, BINARY_OP, UNARY_OP, PRINT, INPUT, POP, FUNCTION_START, CALL_BUILTIN}
  }

  /** e succeeded with pc one past n and the call stack and halted flag of m. */
  predicate MovedOn(e: Exec, m: VmState, n: int)
  {
    e.outcome.Pass? ==> e.m.pc == Num(n + 1) && e.m.callStack == m.callStack && e.m.halted == m.halted
  }

  /** Every instruction other than the jumps, CALL, RETURN and HALT moves pc on by exactly one
      when it succeeds, and leaves the call stack and the halted flag alone. */
  lemma StepAdvances(m: VmState, i: Instr, n: int)
    requires m.pc == Num(n) && Advancing(i.opcode)
    ensures MovedOn(Step(m, i), m, n)
  {
    match i.opcode {
      case LOAD_CONST => DataAdvances(m, i, n);
      case LOAD_VAR => DataAdvances(m, i, n);
      case STORE_VAR => DataAdvances(m, i, n);
      case BINARY_OP => OperatorAdvances(m, i, n);
      case UNARY_OP => OperatorAdvances(m, i, n);
      case CALL_BUILTIN => BuiltinKeepsPc(m, i.arg);
      case PRINT => IOAdvances(m, i, n);
      case INPUT => IOAdvances(m, i, n);
      case POP => IOAdvances(m, i, n);
      case _ =>
    }
  }

  lemma IOAdvances(m: VmState, i: Instr, n: int)
    requires m.pc == Num(n) && i.opcode in {PRINT, INPUT, POP}
    ensures MovedOn(StepIO(m, i), m, n)
  {
  }

  lemma DataAdvances(m: VmState, i: Instr, n: int)
    requires m.pc == Num(n) && i.opcode in {LOAD_CONST, LOAD_VAR, STORE_VAR}
    ensures MovedOn(StepData(m, i), m, n)
  {
  }

  lemma OperatorAdvances(m: VmState, i: Instr, n: int)
    requires m.pc == Num(n) && i.opcode in {BINARY_OP, UNARY_OP}
    ensures MovedOn(StepOperator(m, i), m, n)
  {
  }

  lemma BuiltinKeepsPc(m: VmState, a: Arg)
    ensures var b := Builtin(m, a);
      b.m.pc == m.pc && b.m.callStack == m.callStack && b.m.halted == m.halted
  {
  }

  /** JUMP stores its operand in pc and changes nothing else. */
  lemma JumpSetsPc(m: VmState, a: Arg)
    ensures Step(m, Instr(JUMP, a, Line)) == Exec(m.(pc := a), Pass)
  {
  }

  /** JUMP_IF_FALSE and JUMP_IF_TRUE pop the condition, then jump to their operand when it is
      falsy (resp. truthy) and otherwise go on to the next instruction. */
  lemma ConditionalJump(m: VmState, i: Instr, s: seq<Value>, c: Value, n: int)
    requires i.opcode == JUMP_IF_FALSE || i.opcode == JUMP_IF_TRUE
    requires m.stack == s + [c] && m.pc == Num(n)
    ensures var jumps := if i.opcode == JUMP_IF_FALSE then !Truthy(c) else Truthy(c);
      Step(m, i) == Exec(m.(stack := s, pc := if jumps then i.arg else Num(n + 1)), Pass)
  {
    assert (s + [c])[..|s|] == s;
  }

  /** Popping what was pushed gives back the value and the machine as it was. */
  lemma PopPush(m: VmState, v: Value)
    ensures Popped(Pushed(m, v)) == Ok((m, v))
  {
    assert (m.stack + [v])[..|m.stack|] == m.stack;
  }

  /** Popping fails exactly on an empty stack, with "Stack underflow". */
  lemma PopUnderflow(m: VmState)
    ensures Popped(m).Err? <==> m.stack == []
    ensures Popped(m).Err? ==> Popped(m).msg == "Stack underflow"
    ensures Popped(m).Ok? ==> |Popped(m).value.0.stack| == |m.stack| - 1
  {
  }

  /** CALL saves the address after it and jumps; a RETURN made with that call stack and a value
      on top comes back to that address with the call stack as it was before the call, and the
      value still on top. */
  lemma CallThenReturn(m: VmState, a: Arg, n: int, r: VmState)
    requires m.pc == Num(n)
    requires r.callStack == Step(m, Instr(CALL, a, Line)).m.callStack && r.stack != []
    ensures Step(m, Instr(CALL, a, Line)) == Exec(m.(callStack := m.callStack + [n + 1], pc := a), Pass)
    ensures var e := Step(r, Instr(RETURN, NoArg, Line));
      e.outcome.Pass? && e.m.pc == Num(n + 1) && e.m.callStack == m.callStack && e.m.stack == r.stack
  {
    var k := |r.stack|;
    assert r.stack[..k - 1] + [r.stack[k - 1]] == r.stack;
    assert (m.callStack + [n + 1])[..|m.callStack|] == m.callStack;
  }

  /** RETURN outside any call halts the machine and pops nothing. */
  lemma ReturnAtTopHalts(m: VmState, a: Arg)
    requires m.callStack == []
    ensures Step(m, Instr(RETURN, a, Line)) == Exec(m.(halted := true), Pass)
  {
  }

  /** STORE_VAR pops the top into the slot; LOAD_VAR of the same slot pushes it back. */
  lemma StoreThenLoad(m: VmState, a: Arg, s: seq<Value>, v: Value, n: int)
    requires m.stack == s + [v] && m.pc == Num(n)
    ensures var e := Step(m, Instr(STORE_VAR, a, Line));
      e == Exec(m.(stack := s, variables := m.variables[a := v], pc := Num(n + 1)), Pass) &&
      Step(e.m, Instr(LOAD_VAR, a, Line)) == Exec(m.(variables := m.variables[a := v], pc := Num(n + 2)), Pass)
  {
    assert (s + [v])[..|s|] == s;
  }

  /** LOAD_VAR of a slot nothing was stored in raises and changes nothing. */
  lemma UndefinedVariable(m: VmState, a: Arg)
    requires a !in m.variables
    ensures Step(m, Instr(LOAD_VAR, a, Line)) == Exec(m, Fail("Undefined variable at index " + ArgStr(a)))
  {
  }

  /** INPUT pushes the first buffered line and removes it from the buffer, or pushes "" when the
      buffer is empty. */
  lemma InputDequeues(m: VmState, n: int)
    requires m.pc == Num(n)
    ensures var e := Step(m, Instr(INPUT, NoArg, Line));
      e.outcome.Pass? && e.m.pc == Num(n + 1) &&
      (m.inputBuffer == [] ==> e.m.stack == m.stack + [StrV("")] && e.m.inputBuffer == []) &&
      (m.inputBuffer != [] ==>
        e.m.stack == m.stack + [StrV(m.inputBuffer[0])] && [m.inputBuffer[0]] + e.m.inputBuffer == m.inputBuffer)
  {
  }

  /** The built-in input behaves as INPUT does, except that pc is left to CALL_BUILTIN. */
  lemma InputBuiltinAgrees(m: VmState, n: int)
    requires m.pc == Num(n)
    ensures Step(m, Instr(CALL_BUILTIN, Name("input"), Line)) == Step(m, Instr(INPUT, NoArg, Line))
  {
  }

  /** An opcode the machine does not know, or a built-in it does not know, raises. */
  lemma UnknownOpcodeOrBuiltin(m: VmState, name: string, a: Arg)
    requires WellFormedOpcode(Other(name))
    ensures Step(m, Instr(Other(name), a, Line)) == Exec(m, Fail("Unknown opcode: " + name))
    ensures a !in {Name("input"), Name("len"), Name("str"), Name("int"), Name("float")} ==>
      Step(m, Instr(CALL_BUILTIN, a, Line)) == Exec(m, Fail("Unknown built-in function: " + ArgStr(a)))
  {
  }

  /** Dividing by a value equal to 0 raises the wrapped "Division by zero" error, with both
      operands popped. */
  lemma DivideByZero(m: VmState, s: seq<Value>, l: Value, r: Value)
    requires m.stack == s + [l, r] && PyEq(r, IntV(0))
    ensures Step(m, Instr(BINARY_OP, Name("/"), Line)) ==
      Exec(m.(stack := s), Fail(BinaryFailure(l, "/", r, "Division by zero")))
  {
    DivisionByZero(l, r);
    TwoPopped(m, s, l, r);
    assert Step(m, Instr(BINARY_OP, Name("/"), Line)) == StepOperator(m, Instr(BINARY_OP, Name("/"), Line));
  }

  /** Popping twice from s + [l, r] yields r, then l, and leaves s. */
  lemma TwoPopped(m: VmState, s: seq<Value>, l: Value, r: Value)
    requires m.stack == s + [l, r]
    ensures Popped(m) == Ok((m.(stack := s + [l]), r))
    ensures Popped(m.(stack := s + [l])) == Ok((m.(stack := s), l))
  {
    assert (s + [l, r])[..|s| + 1] == s + [l];
    assert (s + [l])[..|s|] == s;
  }

  /** PRINT appends exactly the text of the popped value to the output. */
  lemma PrintAppends(m: VmState, s: seq<Value>, v: Value, n: int)
    requires m.stack == s + [v] && m.pc == Num(n)
    ensures Step(m, Instr(PRINT, NoArg, Line)) == Exec(m.(stack := s, output := m.output + [Str(v)], pc := Num(n + 1)), Pass)
  {
    assert (s + [v])[..|s|] == s;
  }

  /** `xs` extends `ys`. */
  predicate Extends(xs: seq<string>, ys: seq<string>)
  {
    |ys| <= |xs| && xs[..|ys|] == ys
  }

  /** Two states with the same output, instructions and constants. */
  predicate SameOutputAndCode(a: VmState, b: VmState)
  {
    a.output == b.output && a.instructions == b.instructions && a.constants == b.constants
  }

  lemma DataKeeps(m: VmState, i: Instr)
    requires i.opcode in {LOAD_CONST, LOAD_VAR, STORE_VAR}
    ensures SameOutputAndCode(StepData(m, i).m, m)
  {
  }

  lemma OperatorKeeps(m: VmState, i: Instr)
    requires i.opcode in {BINARY_OP, UNARY_OP}
    ensures SameOutputAndCode(StepOperator(m, i).m, m)
  {
  }

  lemma ControlKeeps(m: VmState, i: Instr)
    requires i.opcode in {JUMP, JUMP_IF_FALSE, JUMP_IF_TRUE, CALL, RETURN, HALT}
    ensures SameOutputAndCode(StepControl(m, i).m, m)
  {
  }

  lemma BuiltinKeeps(m: VmState, a: Arg)
    ensures SameOutputAndCode(Builtin(m, a).m, m)
  {
  }

  /** One instruction adds at most one line of output and never removes any, and it never
      touches the instructions or the constants. */
  lemma StepOutput(m: VmState, i: Instr)
    ensures var e := Step(m, i);
      Extends(e.m.output, m.output) && |e.m.output| <= |m.output| + 1 &&
      e.m.instructions == m.instructions && e.m.constants == m.constants
  {
    var e := Step(m, i);
    match i.opcode {
      case PRINT =>
        if m.stack != [] {
          assert e.m.output[..|m.output|] == m.output;
        }
      case CALL_BUILTIN => BuiltinKeeps(m, i.arg);
      case LOAD_CONST => DataKeeps(m, i);
      case LOAD_VAR => DataKeeps(m, i);
      case STORE_VAR => DataKeeps(m, i);
      case BINARY_OP => OperatorKeeps(m, i);
      case UNARY_OP => OperatorKeeps(m, i);
      case JUMP => ControlKeeps(m, i);
      case JUMP_IF_FALSE => ControlKeeps(m, i);
      case JUMP_IF_TRUE => ControlKeeps(m, i);
      case CALL => ControlKeeps(m, i);
      case RETURN => ControlKeeps(m, i);
      case HALT => ControlKeeps(m, i);
      case _ =>
    }
  }

  /** A run only adds output, at most one line per instruction it executes. */
  lemma {:induction false} RunOutput(m: VmState, count: int, max: int)
    ensures var (f, _) := Run(m, count, max);
      Extends(f.output, m.output) && |f.output| <= |m.output| + (if count < max then max - count else 0) &&
      f.instructions == m.instructions && f.constants == m.constants
    decreases max - count
  {
    if !m.halted && m.pc.Num? && m.pc.n < |m.instructions| && count < max {
      match Index(m.instructions, m.pc)
      case Err(_) =>
      case Ok(i) =>
        var e := Step(m, i);
        StepOutput(m, i);
        if e.outcome.Pass? {
          RunOutput(e.m, count + 1, max);
          var f := Run(e.m, count + 1, max).0;
          assert f.output[..|m.output|] == f.output[..|e.m.output|][..|m.output|];
        }
    }
  }

  /** Once max instructions have run, a machine that would go on raises "Execution limit
      exceeded"; so does one that halted on the last instruction the budget allowed. */
  lemma LimitReached(m: VmState, count: int, max: int)
    requires count >= max && m.pc.Num?
    ensures Run(m, count, max) == (m, Err(LimitExceeded))
  {
  }

  /** A run stops without error, not halted, when pc runs past the last instruction. */
  lemma RunsOffTheEnd(m: VmState, count: int, max: int)
    requires !m.halted && m.pc.Num? && m.pc.n >= |m.instructions| && count < max
    ensures Run(m, count, max) == (m, Ok(false))
  {
  }

  /** A HALT reached within the budget ends the run with True. */
  lemma HaltStops(m: VmState, count: int, max: int)
    requires !m.halted && m.pc.Num? && 0 <= m.pc.n < |m.instructions| && m.instructions[m.pc.n].opcode == HALT
    requires count + 1 < max
    ensures Run(m, count, max) == (m.(halted := true), Ok(true))
  {
    var i := m.instructions[m.pc.n];
    assert Step(m, i) == Exec(m.(halted := true), Pass);
  }

  /** With a budget of one instruction, even a program that is only HALT raises the limit
      error: the count reaches the limit before the flag is looked at. */
  lemma HaltOnLastStepStillFails(m: VmState)
    ensures var p := Loaded(m, [Instr(HALT, NoArg, Line)], []);
      Run(p, 0, 1).1 == Err(LimitExceeded) && Run(p, 0, 2).1 == Ok(true)
  {
    var p := Loaded(m, [Instr(HALT, NoArg, Line)], []);
    HaltStops(p, 0, 2);
    assert Step(p, Instr(HALT, NoArg, Line)) == Exec(p.(halted := true), Pass);
  }

  /** reset and load_bytecode start a run afresh: twice is the same as once, and the
      instructions, constants and input survive a reset. */
  lemma ResetIdempotent(m: VmState, code: seq<Instr>, pool: seq<Value>)
    ensures AfterReset(AfterReset(m)) == AfterReset(m)
    ensures AfterReset(m).instructions == m.instructions && AfterReset(m).constants == m.constants
    ensures AfterReset(m).inputBuffer == m.inputBuffer
    ensures Loaded(AfterReset(m), code, pool) == Loaded(m, code, pool)
  {
  }

  /** One step of the run loop: an instruction that passes hands on to the next iteration. */
  lemma RunStep(m: VmState, count: int, max: int, n: nat, i: Instr)
    requires !m.halted && m.pc == Num(n) && n < |m.instructions| && count < max
    requires m.instructions[n] == i && Step(m, i).outcome.Pass?
    ensures Run(m, count, max) == Run(Step(m, i).m, count + 1, max)
  {
  }

  /** An instruction that raises ends the run with the state it reached and its message. */
  lemma RunStops(m: VmState, count: int, max: int, n: nat, i: Instr)
    requires !m.halted && m.pc == Num(n) && n < |m.instructions| && count < max
    requires m.instructions[n] == i && Step(m, i).outcome.Fail?
    ensures Run(m, count, max) == (Step(m, i).m, Err(Step(m, i).outcome.msg))
  {
  }

  /** LOAD_CONST of an index inside the pool pushes that constant. */
  lemma LoadConstPushes(m: VmState, k: nat, n: int)
    requires k < |m.constants| && m.pc == Num(n)
    ensures Step(m, Instr(LOAD_CONST, Num(k), Line)) ==
      Exec(m.(stack := m.stack + [m.constants[k]], pc := Num(n + 1)), Pass)
  {
  }
}
