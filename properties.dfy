/// Properties of the machine model: how the resolver and the write path
/// agree, what each kind of instruction does to the state, the outcomes of
/// the dispatcher, and short programs run to completion.
module Properties {
  import opened Word16
  import opened Vm
  import Image

  // ---------------------------------------------------------------------
  // Operand resolution and the write path.

  /** Resolution and the write path accept and reject exactly the same
      operand words, with the same outcome. */
  lemma ResolveAgreesWithWrite(registers: seq<u16>, location: u16, word: u16)
    requires |registers| == RegisterCount
    ensures Resolve(registers, location).Ok? <==> Write(registers, location, word).Ok?
    ensures !Resolve(registers, location).Ok? ==>
              Resolve(registers, location).PropagateFailure<()>() ==
              Write(registers, location, word).PropagateFailure<()>()
  {
  }

  /** Reading a register operand after writing it gives the value written;
      every other operand resolves as before. */
  lemma ResolveAfterWrite(registers: seq<u16>, location: u16, word: u16, other: u16)
    requires |registers| == RegisterCount
    requires Modulus <= location && Write(registers, location, word).Ok?
    ensures Resolve(Write(registers, location, word).value, location) == Ok(word)
    ensures other != location ==>
              Resolve(Write(registers, location, word).value, other) == Resolve(registers, other)
  {
  }

  // ---------------------------------------------------------------------
  // The opcode table.

  /** Every opcode decodes from its code word, and only from it. */
  lemma OpcodeTable(op: Opcode, w: u16)
    ensures OpcodeOf(Code(op)) == Some(op)
    ensures OpcodeOf(w) == Some(op) ==> Code(op) == w
  {
  }

  // ---------------------------------------------------------------------
  // Dispatcher outcomes.

  /** Opcode 0 halts after moving past the opcode. */
  lemma HaltStep(m: Machine)
    requires m.Valid() && m.pc < MaxPc && m.memory[m.pc] == 0
    ensures Step(m) == (m.(pc := m.pc + 1), Err(Halted))
  {
  }

  /** Opcode 21 changes nothing but the program counter. */
  lemma NoopStep(m: Machine)
    requires m.Valid() && m.pc < MaxPc && m.memory[m.pc] == 21
    ensures Step(m) == (m.(pc := m.pc + 1), Ok(()))
  {
  }

  /** A code word above 21 is rejected after moving past it. */
  lemma BadOpcodeStep(m: Machine)
    requires m.Valid() && m.pc < MaxPc && m.memory[m.pc] > 21
    ensures Step(m) == (m.(pc := m.pc + 1), Err(BadOptcode))
  {
  }

  /** A fetch at the last address aborts. */
  lemma FetchAtLastAddress(m: Machine)
    requires m.Valid() && m.pc == MaxPc
    ensures Step(m) == (m, Panic(ProgramCounterOverflow))
  {
  }

  // ---------------------------------------------------------------------
  // Arithmetic.

  /** The operand words of a three-operand instruction at the program
      counter: destination register `d`, sources resolving to `b` and `c`. */
  ghost predicate Ternary(m: Machine, op: Opcode, d: nat, b: u16, c: u16)
    requires m.Valid()
  {
    m.pc as int + 3 < MaxPc && m.memory[m.pc] == Code(op) &&
    d < RegisterCount && m.memory[m.pc + 1] == Modulus + d &&
    Resolve(m.registers, m.memory[m.pc + 2]) == Ok(b) &&
    Resolve(m.registers, m.memory[m.pc + 3]) == Ok(c)
  }

  /** `set` copies the value of its second operand into its destination. */
  lemma SetStep(m: Machine, d: nat, v: u16)
    requires m.Valid() && m.pc as int + 2 < MaxPc && m.memory[m.pc] == 1
    requires d < RegisterCount && m.memory[m.pc + 1] == Modulus + d
    requires Resolve(m.registers, m.memory[m.pc + 2]) == Ok(v)
    ensures Step(m) == (m.(pc := m.pc + 3, registers := m.registers[d := v]), Ok(()))
  {
  }

  /** `eq` and `gt` store 1 when the comparison holds and 0 otherwise. */
  lemma CompareStep(m: Machine, op: Opcode, d: nat, b: u16, c: u16)
    requires m.Valid() && (op.Eq? || op.Gt?) && Ternary(m, op, d, b, c)
    ensures Step(m) ==
              (m.(pc := m.pc + 4,
                  registers := m.registers[d := if (if op.Eq? then b == c else b > c) then 1 else 0]),
               Ok(()))
  {
  }

  /** `add` stores the sum modulo 32768 in its destination and moves to the
      next instruction; nothing else changes. */
  lemma AddStep(m: Machine, d: nat, b: u16, c: u16)
    requires m.Valid() && Ternary(m, Add, d, b, c)
    ensures Step(m) == (m.(pc := m.pc + 4, registers := m.registers[d := (b + c) % Modulus]), Ok(()))
    ensures Step(m).0.registers[d] < Modulus
  {
  }

  /** `mult` stores the product modulo 32768. */
  lemma MultStep(m: Machine, d: nat, b: u16, c: u16)
    requires m.Valid() && Ternary(m, Mult, d, b, c)
    ensures Step(m) == (m.(pc := m.pc + 4, registers := m.registers[d := (b * c) % Modulus]), Ok(()))
    ensures Step(m).0.registers[d] < Modulus
  {
  }

  /** `mod` by zero aborts the interpreter, with nothing stored. */
  lemma ModByZeroStep(m: Machine, d: nat, b: u16)
    requires m.Valid() && Ternary(m, Mod, d, b, 0)
    ensures Step(m) == (m.(pc := m.pc + 4), Panic(RemainderByZero))
  {
  }

  /** `mod` by a non-zero value stores the remainder. */
  lemma ModStep(m: Machine, d: nat, b: u16, c: u16)
    requires m.Valid() && Ternary(m, Mod, d, b, c) && c != 0
    ensures Step(m) == (m.(pc := m.pc + 4, registers := m.registers[d := (b % c) % Modulus]), Ok(()))
  {
  }

  /** Every value `add`, `mult`, `mod`, `eq` and `gt` compute is below 32768;
      `and` and `or` keep values below 32768 there. */
  lemma ComputeBelowModulus(op: Opcode, b: u16, c: u16)
    requires op.IsBinary() && Compute(op, b, c).Ok?
    ensures !(op.And? || op.Or?) ==> Compute(op, b, c).value < Modulus
    ensures b < Modulus && c < Modulus ==> Compute(op, b, c).value < Modulus
  {
    if op.And? {
      assert WordAnd(b, c) <= b;
    }
  }

  /** `and` and `or` store the bitwise conjunction or disjunction of their
      resolved operands. */
  lemma AndOrStep(m: Machine, op: Opcode, d: nat, b: u16, c: u16)
    requires m.Valid() && (op.And? || op.Or?) && Ternary(m, op, d, b, c)
    ensures Step(m) ==
              (m.(pc := m.pc + 4, registers := m.registers[d := if op.And? then WordAnd(b, c) else WordOr(b, c)]),
               Ok(()))
  {
  }

  /** `not` stores the 15-bit complement; applying it twice gives back the
      value, and it stays below 32768 exactly when its operand does. */
  lemma NotStep(m: Machine, d: nat, b: u16)
    requires m.Valid() && m.pc as int + 2 < MaxPc && m.memory[m.pc] == 14
    requires d < RegisterCount && m.memory[m.pc + 1] == Modulus + d
    requires Resolve(m.registers, m.memory[m.pc + 2]) == Ok(b)
    ensures Step(m) == (m.(pc := m.pc + 3, registers := m.registers[d := WordNot(b)]), Ok(()))
    ensures WordNot(WordNot(b)) == b
    ensures b < Modulus <==> Step(m).0.registers[d] < Modulus
  {
    WordNotInvolution(b);
  }

  // ---------------------------------------------------------------------
  // The stack.

  /** `pop` on an empty stack fails before its operand is fetched. */
  lemma PopEmpty(m: Machine)
    requires m.Valid() && m.pc < MaxPc && m.memory[m.pc] == 3 && m.stack == []
    ensures Step(m) == (m.(pc := m.pc + 1), Err(StackUnderflow))
  {
  }

  /** `pop` removes the top before its destination is checked: a bad
      destination still shrinks the stack. */
  lemma PopBadDestination(m: Machine)
    requires m.Valid() && m.pc as int + 1 < MaxPc && m.memory[m.pc] == 3 && m.stack != []
    requires m.memory[m.pc + 1] > Modulus + RegisterCount
    ensures Step(m) == (m.(pc := m.pc + 2, stack := m.stack[..|m.stack| - 1]), Err(BadRegister))
  {
  }

  /** `push` appends the resolved value of its operand to the stack. */
  lemma PushStep(m: Machine, v: u16)
    requires m.Valid() && m.pc as int + 1 < MaxPc && m.memory[m.pc] == 2
    requires Resolve(m.registers, m.memory[m.pc + 1]) == Ok(v)
    ensures Step(m) == (m.(pc := m.pc + 2, stack := m.stack + [v]), Ok(()))
  {
  }

  /** `pop d` moves the top of the stack into register `d`. */
  lemma PopStep(m: Machine, d: nat)
    requires m.Valid() && m.pc as int + 1 < MaxPc && m.memory[m.pc] == 3 && m.stack != []
    requires d < RegisterCount && m.memory[m.pc + 1] == Modulus + d
    ensures Step(m) == (m.(pc := m.pc + 2, stack := m.stack[..|m.stack| - 1],
                           registers := m.registers[d := m.stack[|m.stack| - 1]]), Ok(()))
  {
  }

  /** `push a` followed by `pop d` copies the value of `a` into register `d`
      and leaves the stack as it was. */
  lemma PushThenPop(m: Machine, v: u16, d: nat)
    requires m.Valid() && m.pc as int + 3 < MaxPc
    requires m.memory[m.pc] == 2 && Resolve(m.registers, m.memory[m.pc + 1]) == Ok(v)
    requires m.memory[m.pc + 2] == 3 && d < RegisterCount && m.memory[m.pc + 3] == Modulus + d
    ensures Step(m) == (m.(pc := m.pc + 2, stack := m.stack + [v]), Ok(()))
    ensures Step(Step(m).0) == (m.(pc := m.pc + 4, registers := m.registers[d := v]), Ok(()))
  {
    var m1 := m.(pc := m.pc + 2, stack := m.stack + [v]);
    PushStep(m, v);
    assert m1.stack[..|m1.stack| - 1] == m.stack && m1.stack[|m1.stack| - 1] == v;
    PopStep(m1, d);
  }

  /** `call` pushes the address of the next instruction and jumps to the
      resolved target. */
  lemma CallStep(m: Machine, target: u16)
    requires m.Valid() && m.pc as int + 1 < MaxPc && m.memory[m.pc] == 17
    requires Resolve(m.registers, m.memory[m.pc + 1]) == Ok(target)
    ensures Step(m) == (m.(pc := target, stack := m.stack + [m.pc + 2]), Ok(()))
  {
  }

  /** `ret` jumps to the address on top of the stack and removes it. */
  lemma RetStep(m: Machine)
    requires m.Valid() && m.pc < MaxPc && m.memory[m.pc] == 18 && m.stack != []
    ensures Step(m) == (m.(pc := m.stack[|m.stack| - 1], stack := m.stack[..|m.stack| - 1]), Ok(()))
  {
  }

  /** `call` pushes the address after it and jumps; a `ret` at the target
      goes back there and restores the stack. */
  lemma CallThenRet(m: Machine, target: u16)
    requires m.Valid() && m.pc as int + 1 < MaxPc && m.memory[m.pc] == 17
    requires Resolve(m.registers, m.memory[m.pc + 1]) == Ok(target)
    requires target < MaxPc && m.memory[target] == 18
    ensures Step(m) == (m.(pc := target, stack := m.stack + [m.pc + 2]), Ok(()))
    ensures Step(Step(m).0) == (m.(pc := m.pc + 2), Ok(()))
  {
    var m1 := m.(pc := target, stack := m.stack + [m.pc + 2]);
    CallStep(m, target);
    assert m1.stack[..|m1.stack| - 1] == m.stack && m1.stack[|m1.stack| - 1] == m.pc + 2;
    RetStep(m1);
  }

  /** `ret` on an empty stack fails. */
  lemma RetEmpty(m: Machine)
    requires m.Valid() && m.pc < MaxPc && m.memory[m.pc] == 18 && m.stack == []
    ensures Step(m) == (m.(pc := m.pc + 1), Err(StackUnderflow))
  {
  }

  // ---------------------------------------------------------------------
  // Jumps.

  /** `jmp` moves the program counter to its resolved operand and changes
      nothing else. */
  lemma JmpStep(m: Machine, target: u16)
    requires m.Valid() && m.pc as int + 1 < MaxPc && m.memory[m.pc] == 6
    requires Resolve(m.registers, m.memory[m.pc + 1]) == Ok(target)
    ensures Step(m) == (m.(pc := target), Ok(()))
  {
  }

  /** `jt`/`jf` whose test says not to jump moves to the next instruction
      whatever its jump operand is, even one that names no register. */
  lemma BranchNotTaken(m: Machine, test: u16)
    requires m.Valid() && m.pc as int + 2 < MaxPc && m.memory[m.pc] in {7, 8}
    requires Resolve(m.registers, m.memory[m.pc + 1]) == Ok(test)
    requires (test != 0) != (m.memory[m.pc] == 7)
    ensures Step(m) == (m.(pc := m.pc + 3), Ok(()))
  {
  }

  /** `jt`/`jf` whose test says to jump goes to the resolved target, and a
      bad target is an error on this path only. */
  lemma BranchTaken(m: Machine, test: u16)
    requires m.Valid() && m.pc as int + 2 < MaxPc && m.memory[m.pc] in {7, 8}
    requires Resolve(m.registers, m.memory[m.pc + 1]) == Ok(test)
    requires (test != 0) == (m.memory[m.pc] == 7)
    ensures Resolve(m.registers, m.memory[m.pc + 2]).Ok? ==>
              Step(m) == (m.(pc := Resolve(m.registers, m.memory[m.pc + 2]).value), Ok(()))
    ensures m.memory[m.pc + 2] > Modulus + RegisterCount ==>
              Step(m) == (m.(pc := m.pc + 3), Err(BadRegister))
  {
  }

  // ---------------------------------------------------------------------
  // Input and output.

  /** `out` appends the low byte of its resolved operand to the output. */
  lemma OutStep(m: Machine, v: u16)
    requires m.Valid() && m.pc as int + 1 < MaxPc && m.memory[m.pc] == 19
    requires Resolve(m.registers, m.memory[m.pc + 1]) == Ok(v)
    ensures Step(m) == (m.(pc := m.pc + 2, output := m.output + [v % 0x100]), Ok(()))
  {
  }

  /** `in` at end of input stores 0; a failed read stops with `InputErr`
      after consuming that read; a byte read is stored. */
  lemma InStep(m: Machine, d: nat)
    requires m.Valid() && m.pc as int + 1 < MaxPc && m.memory[m.pc] == 20
    requires d < RegisterCount && m.memory[m.pc + 1] == Modulus + d
    ensures m.input == [] ==>
              Step(m) == (m.(pc := m.pc + 2, registers := m.registers[d := 0]), Ok(()))
    ensures m.input != [] && m.input[0].Failure? ==>
              Step(m) == (m.(pc := m.pc + 2, input := m.input[1..]), Err(InputErr(m.input[0].error)))
    ensures m.input != [] && m.input[0].Byte? ==>
              Step(m) == (m.(pc := m.pc + 2, input := m.input[1..],
                             registers := m.registers[d := m.input[0].value]), Ok(()))
  {
  }

  /** `later` has kept all the output `earlier` had written and has read
      only from the front of the input `earlier` still had. */
  ghost predicate Extends(earlier: Machine, later: Machine)
  {
    earlier.output <= later.output &&
    |later.input| <= |earlier.input| &&
    later.input == earlier.input[|earlier.input| - |later.input|..]
  }

  lemma ExtendsTransitive(a: Machine, b: Machine, c: Machine)
    requires Extends(a, b) && Extends(b, c)
    ensures Extends(a, c)
  {
    assert a.input[|a.input| - |c.input|..] == b.input[|b.input| - |c.input|..];
  }

  /** `later` differs from `earlier` by at most one byte appended to the
      output and at most one read outcome taken from the input. */
  ghost predicate StreamsAdvanceByOne(earlier: Machine, later: Machine)
  {
    (later.output == earlier.output ||
     (|later.output| == |earlier.output| + 1 && later.output[..|earlier.output|] == earlier.output)) &&
    (later.input == earlier.input || (earlier.input != [] && later.input == earlier.input[1..]))
  }

  /** Output only grows, by at most one byte per step, and at most one read
      outcome is consumed per step. */
  lemma StepStreams(m: Machine)
    requires m.Valid()
    ensures StreamsAdvanceByOne(m, Step(m).0)
  {
    if m.pc < MaxPc && m.memory[m.pc] <= 21 {
      var op := OpcodeOf(m.memory[m.pc]).value;
      OpcodeTable(op, m.memory[m.pc]);
      StepDecodes(m, op);
      ExecuteStreams(op, m.(pc := m.pc + 1));
    }
  }

  /** The stream part of StepStreams, once the opcode is known. */
  lemma ExecuteStreams(op: Opcode, m: Machine)
    requires m.Valid()
    ensures StreamsAdvanceByOne(m, Execute(op, m).0)
  {
    if op.FetchesFirst() {
      FetchThenApplyStreams(op, m);
    }
  }

  lemma FetchThenApplyStreams(op: Opcode, m: Machine)
    requires m.Valid() && op.FetchesFirst()
    ensures StreamsAdvanceByOne(m, FetchThenApply(op, m).0)
  {
    var (next, w) := Operands(m, Arity(op));
    if w.Ok? {
      ApplyStreams(op, w.value, next);
    }
  }

  /** The stream part of StepStreams for the opcodes that fetch first. */
  lemma ApplyStreams(op: Opcode, w: seq<u16>, m: Machine)
    requires m.Valid() && op.FetchesFirst() && |w| == Arity(op)
    ensures StreamsAdvanceByOne(m, Apply(op, w, m).0)
  {
  }

  /** A step of the kind StepStreams describes extends the machine. */
  lemma ExtendsByOne(a: Machine, b: Machine)
    requires StreamsAdvanceByOne(a, b)
    ensures Extends(a, b)
  {
  }

  /** Over a whole run the output written so far is kept and the input only
      shrinks from the front. */
  lemma RunStreams(m: Machine, fuel: nat)
    requires m.Valid()
    ensures Extends(m, Run(m, fuel).0)
  {
    var rel := (a: State, b: State) => Extends(a, b);
    forall a: State
      ensures rel(a, a)
    {
      assert a.input[|a.input| - |a.input|..] == a.input;
    }
    forall a: State
      ensures rel(a, Next(a).0)
    {
      StepStreams(a);
      ExtendsByOne(a, Next(a).0);
    }
    forall a: State, b: State, c: State | rel(a, b) && rel(b, c)
      ensures rel(a, c)
    {
      ExtendsTransitive(a, b, c);
    }
    IterateKeeps(Next, rel, m, fuel);
  }

  /** `rmem` reads the memory word at its resolved operand, any 16-bit
      address, into its destination register. */
  lemma RmemStep(m: Machine, d: nat, b: u16)
    requires m.Valid() && m.pc as int + 2 < MaxPc && m.memory[m.pc] == 15
    requires d < RegisterCount && m.memory[m.pc + 1] == Modulus + d
    requires Resolve(m.registers, m.memory[m.pc + 2]) == Ok(b)
    ensures Step(m) == (m.(pc := m.pc + 3, registers := m.registers[d := m.memory[b]]), Ok(()))
  {
  }

  /** `wmem` writes its resolved second operand to the memory word at its
      resolved first operand, any 16-bit address, and changes nothing else. */
  lemma WmemStep(m: Machine, a: u16, b: u16)
    requires m.Valid() && m.pc as int + 2 < MaxPc && m.memory[m.pc] == 16
    requires Resolve(m.registers, m.memory[m.pc + 1]) == Ok(a)
    requires Resolve(m.registers, m.memory[m.pc + 2]) == Ok(b)
    ensures Step(m) == (m.(pc := m.pc + 3, memory := m.memory[a := b]), Ok(()))
  {
  }

  /** Memory changes only through `wmem`. */
  lemma MemoryOnlyByWmem(m: Machine)
    requires m.Valid() && m.pc < MaxPc && m.memory[m.pc] != 16
    ensures Step(m).0.memory == m.memory
  {
  }

  // ---------------------------------------------------------------------
  // Runs.

  /** Once a run has stopped, more fuel changes nothing: no instruction
      executes after a terminal outcome. */
  lemma RunStaysStopped(m: Machine, j: nat, n: nat)
    requires m.Valid() && Run(m, j).1.IsFailure() && j <= n
    ensures Run(m, n) == Run(m, j)
  {
    IterateStaysStopped(Next, m, j, n);
  }

  /** A step that does not stop hands the rest of the run to the machine it
      produces. */
  lemma RunFront(m: Machine, next: Machine, n: nat)
    requires m.Valid() && Step(m) == (next, Ok(())) && 1 <= n
    ensures Run(m, n) == Run(next, n - 1)
  {
  }

  /** A step that stops ends every run that starts with it. */
  lemma RunStops(m: Machine, next: Machine, r: Result<()>, n: nat)
    requires m.Valid() && Step(m) == (next, r) && r.IsFailure() && 1 <= n
    ensures Run(m, n) == (next, r)
  {
  }

  /** A run of `n` steps that passes through `mid` after `j` of them without
      stopping is the run of the remaining `n - j` steps from `mid`. */
  lemma RunCompose(m: Machine, j: nat, n: nat, mid: Machine)
    requires m.Valid() && Run(m, j) == (mid, Ok(())) && j <= n
    ensures Run(m, n) == Run(mid, n - j)
  {
    IterateCompose(Next, m, j, n, mid);
  }

  /** Loading an encoded program into a fresh machine puts its words at
      address 0, with everything else zero and empty. */
  lemma BootEncoded(words: seq<u16>, input: seq<ReadOutcome>)
    requires |words| <= MemorySize
    ensures |Image.Encode(words)| / 2 <= MemorySize
    ensures Boot(Image.Encode(words), input).memory[..|words|] == words
    ensures forall i :: |words| <= i < MemorySize ==> Boot(Image.Encode(words), input).memory[i] == 0
    ensures Boot(Image.Encode(words), input) ==
              Initial(input).(memory := Boot(Image.Encode(words), input).memory)
  {
    Image.DecodeEncode(words);
  }

  /** A program that is a single `halt` stops with `Halted` and writes
      nothing. */
  lemma HaltOnlyProgram(input: seq<ReadOutcome>, fuel: nat)
    requires fuel >= 1
    ensures Run(Boot(Image.Encode([0]), input), fuel) ==
              (Boot(Image.Encode([0]), input).(pc := 1), Err(Halted))
    ensures Run(Boot(Image.Encode([0]), input), fuel).0.output == []
  {
    var m := Boot(Image.Encode([0]), input);
    BootEncoded([0], input);
    assert m.memory[0] == 0;
    HaltStep(m);
    RunStops(m, m.(pc := 1), Err(Halted), fuel);
  }

  /** set r0 5; add r0 r0 r0; eq r1 r0 10; out r0; halt */
  const DoublingProgram: seq<u16> :=
    [1, 32768, 5, 9, 32768, 32768, 32768, 4, 32769, 32768, 10, 19, 32768, 0]

  /** The words of the doubling program, as facts about a memory. */
  ghost predicate HoldsDoubling(memory: seq<u16>)
  {
    |memory| >= 14 &&
    memory[0] == 1 && memory[1] == 32768 && memory[2] == 5 &&
    memory[3] == 9 && memory[4] == 32768 && memory[5] == 32768 && memory[6] == 32768 &&
    memory[7] == 4 && memory[8] == 32769 && memory[9] == 32768 && memory[10] == 10 &&
    memory[11] == 19 && memory[12] == 32768 && memory[13] == 0
  }

  /** The doubling program from its `out r0`, with 10 in r0: the byte 10
      is written and the `halt` after it stops the run. */
  lemma DoublingOut(m: Machine, fuel: nat)
    requires m.Valid() && m.pc == 11 && HoldsDoubling(m.memory) && m.registers[0] == 10 && fuel >= 2
    ensures Run(m, fuel) == (m.(pc := 14, output := m.output + [10]), Err(Halted))
  {
    var m1 := m.(pc := 13, output := m.output + [10]);
    OutStep(m, 10);
    RunFront(m, m1, fuel);
    HaltRun(m1, fuel - 1);
  }

  /** The doubling program from its `eq r1 r0 10`, with 10 in r0. */
  lemma DoublingEq(m: Machine, fuel: nat)
    requires m.Valid() && m.pc == 7 && HoldsDoubling(m.memory) && m.registers[0] == 10 && fuel >= 3
    ensures Run(m, fuel) == (m.(pc := 14, registers := m.registers[1 := 1],
                                output := m.output + [10]), Err(Halted))
  {
    var m1 := m.(pc := 11, registers := m.registers[1 := 1]);
    CompareStep(m, Eq, 1, 10, 10);
    RunFront(m, m1, fuel);
    DoublingOut(m1, fuel - 1);
  }

  /** The doubling program from its `add r0 r0 r0`, with 5 in r0. */
  lemma DoublingAdd(m: Machine, fuel: nat)
    requires m.Valid() && m.pc == 3 && HoldsDoubling(m.memory) && m.registers[0] == 5 && fuel >= 4
    ensures Run(m, fuel) == (m.(pc := 14, registers := m.registers[0 := 10][1 := 1],
                                output := m.output + [10]), Err(Halted))
  {
    var m1 := m.(pc := 7, registers := m.registers[0 := 10]);
    AddStep(m, 0, 5, 5);
    RunFront(m, m1, fuel);
    DoublingEq(m1, fuel - 1);
  }

  lemma DoublingLoadedWords(memory: seq<u16>)
    requires |memory| >= |DoublingProgram| && memory[..|DoublingProgram|] == DoublingProgram
    ensures HoldsDoubling(memory)
  {
    var p := DoublingProgram;
    assert memory[0] == p[0] && memory[1] == p[1] && memory[2] == p[2];
    assert memory[3] == p[3] && memory[4] == p[4] && memory[5] == p[5] && memory[6] == p[6];
    assert memory[7] == p[7] && memory[8] == p[8] && memory[9] == p[9] && memory[10] == p[10];
    assert memory[11] == p[11] && memory[12] == p[12] && memory[13] == p[13];
  }

  /** `set` partway through a run. */
  lemma SetRun(m: Machine, d: nat, v: u16, fuel: nat)
    requires m.Valid() && m.pc as int + 2 < MaxPc && m.memory[m.pc] == 1
    requires d < RegisterCount && m.memory[m.pc + 1] == Modulus + d
    requires Resolve(m.registers, m.memory[m.pc + 2]) == Ok(v) && fuel >= 1
    ensures Run(m, fuel) == Run(m.(pc := m.pc + 3, registers := m.registers[d := v]), fuel - 1)
  {
    SetStep(m, d, v);
    RunFront(m, m.(pc := m.pc + 3, registers := m.registers[d := v]), fuel);
  }

  /** The doubling program leaves 10 in r0, confirms it with `eq` (r1 = 1),
      writes the byte 10 and halts after its fifth instruction, whatever
      budget of steps it is given beyond that. */
  lemma DoublingRun(m: Machine, fuel: nat)
    requires m.Valid() && m.pc == 0
    requires m.memory[..|DoublingProgram|] == DoublingProgram
    requires fuel >= 5
    ensures Run(m, fuel) == (m.(pc := 14, registers := m.registers[0 := 10][1 := 1],
                                output := m.output + [10]), Err(Halted))
  {
    DoublingLoadedWords(m.memory);
    var m1 := m.(pc := 3, registers := m.registers[0 := 5]);
    SetRun(m, 0, 5, fuel);
    DoublingAdd(m1, fuel - 1);
    assert m1.registers[0 := 10] == m.registers[0 := 10];
  }

  /** Three nested calls, each adding 1 to r0, then three returns:
         0: call 3      2: halt
         3: add r0 r0 1   7: call 10   9: ret
        10: add r0 r0 1  14: call 17  16: ret
        17: add r0 r0 1  21: ret */
  const NestedCallProgram: seq<u16> :=
    [17, 3, 0,
     9, 32768, 32768, 1, 17, 10, 18,
     9, 32768, 32768, 1, 17, 17, 18,
     9, 32768, 32768, 1, 18]

  /** `add r0 r0 1` below the wrap-around point increments r0. */
  lemma IncrementStep(m: Machine)
    requires m.Valid() && m.pc as int + 3 < MaxPc && m.registers[0] < Modulus - 1
    requires m.memory[m.pc] == 9 && m.memory[m.pc + 1] == 32768
    requires m.memory[m.pc + 2] == 32768 && m.memory[m.pc + 3] == 1
    ensures Step(m) == (m.(pc := m.pc + 4, registers := m.registers[0 := m.registers[0] + 1]), Ok(()))
  {
    var r0 := m.registers[0];
    assert (r0 + 1) % Modulus == r0 + 1;
    AddStep(m, 0, r0, 1);
  }

  /** The words of the nested-call program, as facts about a memory. */
  ghost predicate HoldsNestedCalls(memory: seq<u16>)
  {
    |memory| >= 22 &&
    memory[0] == 17 && memory[1] == 3 && memory[2] == 0 &&
    memory[3] == 9 && memory[4] == 32768 && memory[5] == 32768 && memory[6] == 1 &&
    memory[7] == 17 && memory[8] == 10 && memory[9] == 18 &&
    memory[10] == 9 && memory[11] == 32768 && memory[12] == 32768 && memory[13] == 1 &&
    memory[14] == 17 && memory[15] == 17 && memory[16] == 18 &&
    memory[17] == 9 && memory[18] == 32768 && memory[19] == 32768 && memory[20] == 1 &&
    memory[21] == 18
  }

  /** The nested-call program occupies the start of `memory`. */
  ghost predicate NestedLoaded(memory: seq<u16>)
  {
    |memory| >= |NestedCallProgram| && memory[..|NestedCallProgram|] == NestedCallProgram
  }

  lemma NestedLoadedWords(memory: seq<u16>)
    requires NestedLoaded(memory)
    ensures HoldsNestedCalls(memory)
  {
    var p := NestedCallProgram;
    assert memory[0] == p[0] && memory[1] == p[1] && memory[2] == p[2];
    assert memory[3] == p[3] && memory[4] == p[4] && memory[5] == p[5] && memory[6] == p[6];
    assert memory[7] == p[7] && memory[8] == p[8] && memory[9] == p[9];
    assert memory[10] == p[10] && memory[11] == p[11] && memory[12] == p[12] && memory[13] == p[13];
    assert memory[14] == p[14] && memory[15] == p[15] && memory[16] == p[16];
    assert memory[17] == p[17] && memory[18] == p[18] && memory[19] == p[19] && memory[20] == p[20];
    assert memory[21] == p[21];
  }

  /** `call` partway through a run: the rest of the run continues at the
      target with the return address pushed. */
  lemma CallRun(m: Machine, target: u16, fuel: nat)
    requires m.Valid() && m.pc as int + 1 < MaxPc && m.memory[m.pc] == 17
    requires Resolve(m.registers, m.memory[m.pc + 1]) == Ok(target) && fuel >= 1
    ensures Run(m, fuel) == Run(m.(pc := target, stack := m.stack + [m.pc + 2]), fuel - 1)
  {
    CallStep(m, target);
    RunFront(m, m.(pc := target, stack := m.stack + [m.pc + 2]), fuel);
  }

  /** `ret` partway through a run: the rest of the run continues from the
      return address. */
  lemma RetRun(m: Machine, fuel: nat)
    requires m.Valid() && m.pc < MaxPc && m.memory[m.pc] == 18 && m.stack != [] && fuel >= 1
    ensures Run(m, fuel) ==
              Run(m.(pc := m.stack[|m.stack| - 1], stack := m.stack[..|m.stack| - 1]), fuel - 1)
  {
    RetStep(m);
    RunFront(m, m.(pc := m.stack[|m.stack| - 1], stack := m.stack[..|m.stack| - 1]), fuel);
  }

  /** `add r0 r0 1` partway through a run. */
  lemma IncrementRun(m: Machine, fuel: nat)
    requires m.Valid() && m.pc as int + 3 < MaxPc && m.registers[0] < Modulus - 1
    requires m.memory[m.pc] == 9 && m.memory[m.pc + 1] == 32768
    requires m.memory[m.pc + 2] == 32768 && m.memory[m.pc + 3] == 1 && fuel >= 1
    ensures Run(m, fuel) ==
              Run(m.(pc := m.pc + 4, registers := m.registers[0 := m.registers[0] + 1]), fuel - 1)
  {
    IncrementStep(m);
    RunFront(m, m.(pc := m.pc + 4, registers := m.registers[0 := m.registers[0] + 1]), fuel);
  }

  /** `halt` ends every run that reaches it. */
  lemma HaltRun(m: Machine, fuel: nat)
    requires m.Valid() && m.pc < MaxPc && m.memory[m.pc] == 0 && fuel >= 1
    ensures Run(m, fuel) == (m.(pc := m.pc + 1), Err(Halted))
  {
    HaltStep(m);
    RunStops(m, m.(pc := m.pc + 1), Err(Halted), fuel);
  }

  /** The return addresses the nested-call program pushes, outermost first. */
  const NestedReturnAddresses: seq<u16> := [2, 9, 16]

  /** Unwinding with `k` return addresses left: each `ret` goes back to the
      `ret` after the call that pushed it, and the last one reaches the
      `halt` at address 2, with an empty stack. */
  lemma {:induction false} NestedAscend(m: Machine, k: nat, fuel: nat)
    requires m.Valid() && HoldsNestedCalls(m.memory) && k <= 3 && fuel >= k + 1
    requires m.stack == NestedReturnAddresses[..k]
    requires m.pc == if k == 3 then 21 else NestedReturnAddresses[k]
    ensures Run(m, fuel) == (m.(pc := 3, stack := []), Err(Halted))
    decreases k
  {
    if k == 0 {
      HaltRun(m, fuel);
    } else {
      var a := NestedReturnAddresses;
      assert m.stack[|m.stack| - 1] == a[k - 1] && m.stack[..|m.stack| - 1] == a[..k - 1];
      RetRun(m, fuel);
      NestedAscend(m.(pc := a[k - 1], stack := a[..k - 1]), k - 1, fuel - 1);
    }
  }

  /** Descending `depth` calls deep: the frame calls the next one; after
      the third call the returns unwind. */
  lemma {:induction false} NestedDescend(m: Machine, depth: nat, fuel: nat)
    requires m.Valid() && HoldsNestedCalls(m.memory) && depth <= 3
    requires m.pc == 7 * depth && m.registers[0] == depth
    requires m.stack == NestedReturnAddresses[..depth]
    requires fuel >= 2 * (3 - depth) + 4
    ensures Run(m, fuel) == (m.(pc := 3, stack := [], registers := m.registers[0 := 3]), Err(Halted))
    decreases 3 - depth, 1
  {
    if depth == 3 {
      NestedAscend(m, 3, fuel);
      assert m.registers[0 := 3] == m.registers;
    } else {
      var target: u16 := 7 * depth + 3;
      CallRun(m, target, fuel);
      assert m.stack + [m.pc + 2] == NestedReturnAddresses[..depth + 1];
      NestedCallee(m.(pc := target, stack := m.stack + [m.pc + 2]), depth, fuel - 1);
    }
  }

  /** Inside the callee of the call made `depth` frames deep: `add r0 r0 1`,
      then the next frame. */
  lemma {:induction false} NestedCallee(m: Machine, depth: nat, fuel: nat)
    requires m.Valid() && HoldsNestedCalls(m.memory) && depth < 3
    requires m.pc == 7 * depth + 3 && m.registers[0] == depth
    requires m.stack == NestedReturnAddresses[..depth + 1]
    requires fuel >= 2 * (3 - depth) + 3
    ensures Run(m, fuel) == (m.(pc := 3, stack := [], registers := m.registers[0 := 3]), Err(Halted))
    decreases 3 - depth, 0
  {
    var next := m.(pc := m.pc + 4, registers := m.registers[0 := depth + 1]);
    IncrementRun(m, fuel);
    NestedDescend(next, depth + 1, fuel - 1);
    assert next.registers[0 := 3] == m.registers[0 := 3];
  }

  /** Nested calls and returns are transparent: from an empty stack, r0 is
      incremented exactly three times, control comes back to the instruction
      after the outer call, and the stack is empty again. */
  lemma NestedCallRun(m: Machine, fuel: nat)
    requires m.Valid() && m.pc == 0 && m.registers[0] == 0 && m.stack == []
    requires m.memory[..|NestedCallProgram|] == NestedCallProgram
    requires fuel >= 10
    ensures Run(m, fuel) == (m.(pc := 3, registers := m.registers[0 := 3]), Err(Halted))
  {
    assert NestedLoaded(m.memory);
    NestedLoadedWords(m.memory);
    NestedDescend(m, 0, fuel);
  }

  /** `in r0; halt` at end of input stores 0 and runs on to the `halt`; with
      a failing read it stops at the `in`. */
  lemma InputRun(m: Machine, fuel: nat)
    requires m.Valid() && m.pc == 0 && fuel >= 2
    requires m.memory[0] == 20 && m.memory[1] == 32768 && m.memory[2] == 0
    ensures m.input == [] ==>
              Run(m, fuel) == (m.(pc := 3, registers := m.registers[0 := 0]), Err(Halted))
    ensures m.input != [] && m.input[0].Failure? ==>
              Run(m, fuel) == (m.(pc := 2, input := m.input[1..]), Err(InputErr(m.input[0].error)))
  {
    InStep(m, 0);
    if m.input == [] {
      var m1 := m.(pc := 2, registers := m.registers[0 := 0]);
      RunFront(m, m1, fuel);
      HaltStep(m1);
      RunStops(m1, m1.(pc := 3), Err(Halted), fuel - 1);
    } else if m.input[0].Failure? {
      RunStops(m, m.(pc := 2, input := m.input[1..]), Err(InputErr(m.input[0].error)), fuel);
    }
  }
}
