/// The Synacor machine as a value: its state, the operand resolver, the
/// write path, the opcode table and the effect of executing one
/// instruction. The imperative interpreter in module Interpreter is proved
/// to change its fields exactly as `Step` says.
module Vm {
  import opened Word16
  import Image

  /** The register file has exactly eight slots. */
  const RegisterCount: nat := 8

  /** Words of physical memory: far more than a 16-bit address can reach, so
      `rmem` and `wmem` never index out of bounds. */
  const MemorySize: nat := 0x1F_FFFF

  /** A fetch at this program counter overflows the counter. */
  const MaxPc: u16 := 0xFFFF

  /** The payload of a failed read from the input stream; the model carries
      it through to the `InputErr` outcome without interpreting it. */
  datatype IoError = IoError(description: string)

  /** What one attempt to read a byte of input yields. End of input is not
      one of these: it is an exhausted input sequence. */
  datatype ReadOutcome = Byte(value: u8) | Failure(error: IoError)

  /** The terminal outcomes the interpreter reports. */
  datatype SynacorErr =
    | Halted
    | BadRegister
    | StackUnderflow
    | BadOptcode
    | InputErr(error: IoError)

  /** Ways the interpreter process itself aborts: indexing the register file
      at 8, a remainder by zero, and incrementing the program counter past
      65535. */
  datatype PanicCause =
    | RegisterIndexOutOfBounds
    | RemainderByZero
    | ProgramCounterOverflow

  /** The interpreter's `Result<T, SynacorErr>`, extended with the panics;
      `:-` propagates both kinds of failure like `try!`. */
  datatype Result<T> = Ok(value: T) | Err(error: SynacorErr) | Panic(cause: PanicCause) {
    predicate IsFailure() {
      !Ok?
    }

    function PropagateFailure<U>(): Result<U>
      requires IsFailure()
    {
      if Err? then Err(error) else Panic(cause)
    }

    function Extract(): T
      requires Ok?
    {
      value
    }
  }

  /** The whole machine: register file, word memory, stack (top at the end),
      program counter, the bytes written so far and the input still to be
      read. */
  datatype Machine = Machine(
    registers: seq<u16>,
    memory: seq<u16>,
    stack: seq<u16>,
    pc: u16,
    output: seq<u8>,
    input: seq<ReadOutcome>)
  {
    predicate Valid() {
      |registers| == RegisterCount && |memory| == MemorySize
    }
  }

  /** A freshly constructed machine: everything zero and empty. */
  function Initial(input: seq<ReadOutcome>): (m: Machine)
    ensures m.Valid()
  {
    Machine(seq(RegisterCount, _ => 0), seq(MemorySize, _ => 0), [], 0, [], input)
  }

  /** Memory after loading an image over `memory`: the image's words from
      address 0, everything above them as it was. */
  function Load(memory: seq<u16>, bytes: seq<u8>): (r: seq<u16>)
    requires |bytes| / 2 <= |memory|
    ensures |r| == |memory|
    ensures forall i :: 0 <= i < |bytes| / 2 ==> r[i] == Image.LittleEndian(bytes[2 * i], bytes[2 * i + 1])
    ensures forall i :: |bytes| / 2 <= i < |memory| ==> r[i] == memory[i]
  {
    Image.Decode(bytes) + memory[|bytes| / 2..]
  }

  /** A fresh machine with `image` loaded: the state the run loop starts from. */
  function Boot(image: seq<u8>, input: seq<ReadOutcome>): (m: Machine)
    requires |image| / 2 <= MemorySize
    ensures m.Valid()
  {
    var m := Initial(input);
    m.(memory := Load(m.memory, image))
  }

  // ---------------------------------------------------------------------
  // Operand resolution and the write path.

  /** The value an operand word denotes: a literal below 32768, otherwise the
      register `location % 32768`. The guard lets register number 8 through,
      and the register file has no slot 8. */
  function Resolve(registers: seq<u16>, location: u16): (r: Result<u16>)
    requires |registers| == RegisterCount
    ensures location < Modulus ==> r == Ok(location)
    ensures Modulus <= location < Modulus + RegisterCount ==> r == Ok(registers[location - Modulus])
    ensures location == Modulus + RegisterCount ==> r == Panic(RegisterIndexOutOfBounds)
    ensures location > Modulus + RegisterCount ==> r == Err(BadRegister)
  {
    if location < Modulus then Ok(location)
    else
      var register := location % Modulus;
      if register > 8 then Err(BadRegister)
      else if register < |registers| then Ok(registers[register])
      else Panic(RegisterIndexOutOfBounds)
  }

  /** The register file after writing `word` to the destination operand
      `location`. A literal destination is accepted and ignored. */
  function Write(registers: seq<u16>, location: u16, word: u16): (r: Result<seq<u16>>)
    requires |registers| == RegisterCount
    ensures location < Modulus ==> r == Ok(registers)
    ensures Modulus <= location < Modulus + RegisterCount ==>
              r == Ok(registers[location - Modulus := word])
    ensures location == Modulus + RegisterCount ==> r == Panic(RegisterIndexOutOfBounds)
    ensures location > Modulus + RegisterCount ==> r == Err(BadRegister)
  {
    if location < Modulus then Ok(registers)
    else
      var register := location % Modulus;
      if register > 8 then Err(BadRegister)
      else if register < |registers| then Ok(registers[register := word])
      else Panic(RegisterIndexOutOfBounds)
  }

  /** The machine after the write path: only the register file changes, and
      only when the write succeeds. */
  function Store(m: Machine, location: u16, word: u16): (r: (Machine, Result<()>))
    requires m.Valid()
    ensures r.0.Valid() && r.0 == m.(registers := r.0.registers)
  {
    match Write(m.registers, location, word)
    case Ok(registers) => (m.(registers := registers), Ok(()))
    case Err(e) => (m, Err(e))
    case Panic(p) => (m, Panic(p))
  }

  // ---------------------------------------------------------------------
  // The opcode table.

  datatype Opcode =
    | Halt | Set | Push | Pop | Eq | Gt | Jmp | Jt | Jf | Add | Mult
    | Mod | And | Or | Not | Rmem | Wmem | Call | Ret | Out | In | Noop
  {
    /** The opcodes whose operands are all fetched before any of them is
        resolved. */
    predicate FetchesFirst() {
      !(Halt? || Noop? || Pop? || Ret? || Jt? || Jf?)
    }

    /** The three-operand opcodes that store a function of two values. */
    predicate IsBinary() {
      Eq? || Gt? || Add? || Mult? || Mod? || And? || Or?
    }
  }

  /** The code word of each opcode. */
  function Code(op: Opcode): (w: u16)
    ensures w <= 21
  {
    match op
    case Halt => 0   case Set => 1   case Push => 2  case Pop => 3
    case Eq => 4     case Gt => 5    case Jmp => 6   case Jt => 7
    case Jf => 8     case Add => 9   case Mult => 10 case Mod => 11
    case And => 12   case Or => 13   case Not => 14  case Rmem => 15
    case Wmem => 16  case Call => 17 case Ret => 18  case Out => 19
    case In => 20    case Noop => 21
  }

  datatype Option<T> = None | Some(value: T)

  /** Decoding a code word; words above 21 name no opcode. */
  function OpcodeOf(w: u16): (r: Option<Opcode>)
    ensures r.None? <==> w > 21
  {
    match w
    case 0 => Some(Halt)   case 1 => Some(Set)   case 2 => Some(Push)
    case 3 => Some(Pop)    case 4 => Some(Eq)    case 5 => Some(Gt)
    case 6 => Some(Jmp)    case 7 => Some(Jt)    case 8 => Some(Jf)
    case 9 => Some(Add)    case 10 => Some(Mult) case 11 => Some(Mod)
    case 12 => Some(And)   case 13 => Some(Or)   case 14 => Some(Not)
    case 15 => Some(Rmem)  case 16 => Some(Wmem) case 17 => Some(Call)
    case 18 => Some(Ret)   case 19 => Some(Out)  case 20 => Some(In)
    case 21 => Some(Noop)  case _ => None
  }

  /** Number of operand words an instruction reads when it completes. */
  function Arity(op: Opcode): nat
  {
    match op
    case Halt | Ret | Noop => 0
    case Push | Pop | Jmp | Call | Out | In => 1
    case Set | Jt | Jf | Not | Rmem | Wmem => 2
    case Eq | Gt | Add | Mult | Mod | And | Or => 3
  }

  // ---------------------------------------------------------------------
  // Executing one instruction.

  /** Fetch one word at the program counter and advance past it. */
  function Fetch(m: Machine): (r: (Machine, Result<u16>))
    requires m.Valid()
    ensures r.0 == m.(pc := r.0.pc)
  {
    if m.pc == MaxPc then (m, Panic(ProgramCounterOverflow))
    else (m.(pc := m.pc + 1), Ok(m.memory[m.pc]))
  }

  /** Fetch `n` consecutive operand words. A fetch at 65535 aborts, leaving
      the counter there. */
  function Operands(m: Machine, n: nat): (r: (Machine, Result<seq<u16>>))
    requires m.Valid()
    ensures r.0 == m.(pc := r.0.pc)
    ensures r.1.Ok? ==> |r.1.value| == n
  {
    if m.pc as int + n > MaxPc then (m.(pc := MaxPc), Panic(ProgramCounterOverflow))
    else (m.(pc := m.pc + n), Ok(m.memory[m.pc .. m.pc as int + n]))
  }

  /** Three operand words, as three fetches see them. */
  lemma OperandsThree(m: Machine)
    requires m.Valid()
    ensures m.pc as int + 3 > MaxPc ==> Operands(m, 3) == (m.(pc := MaxPc), Panic(ProgramCounterOverflow))
    ensures m.pc as int + 3 <= MaxPc ==>
              Operands(m, 3) == (m.(pc := m.pc + 3),
                                 Ok([m.memory[m.pc], m.memory[m.pc + 1], m.memory[m.pc + 2]]))
  {
    if m.pc as int + 3 <= MaxPc {
      assert m.memory[m.pc .. m.pc as int + 3] == [m.memory[m.pc], m.memory[m.pc + 1], m.memory[m.pc + 2]];
    }
  }

  /** The value a binary opcode stores for the resolved operands `b` and `c`. */
  function Compute(op: Opcode, b: u16, c: u16): (r: Result<u16>)
    requires op.IsBinary()
    ensures r.IsFailure() <==> op.Mod? && c == 0
    ensures r.IsFailure() ==> r == Panic(RemainderByZero)
    ensures r.Ok? && (op.Eq? || op.Gt?) ==> r.value <= 1
  {
    match op
    case Eq => Ok(if b == c then 1 else 0)
    case Gt => Ok(if b > c then 1 else 0)
    case Add => Ok(WordAdd(b, c))
    case Mult => Ok(WordMult(b, c))
    case Mod => if c == 0 then Panic(RemainderByZero) else Ok((b % c) % Modulus)
    case And => Ok(WordAnd(b, c))
    case Or => Ok(WordOr(b, c))
  }

  /** `set`, `not` and `rmem` on the fetched operand words `w`: store a
      value computed from the resolved second operand. */
  function ApplyUnary(op: Opcode, w: seq<u16>, m: Machine): (r: (Machine, Result<()>))
    requires m.Valid() && (op.Set? || op.Not? || op.Rmem?) && |w| == 2
    ensures r.0.Valid() && r.0 == m.(registers := r.0.registers)
    ensures Resolve(m.registers, w[1]).IsFailure() ==> r.0 == m
  {
    var b := Resolve(m.registers, w[1]);
    if b.IsFailure() then (m, b.PropagateFailure()) else
    var v := match op
      case Set => b.value
      case Not => WordNot(b.value)
      case Rmem => m.memory[b.value];
    Store(m, w[0], v)
  }

  /** `a := b op c` for the binary opcodes, on the fetched operands `w`. */
  function ApplyBinary(op: Opcode, w: seq<u16>, m: Machine): (r: (Machine, Result<()>))
    requires m.Valid() && op.IsBinary() && |w| == 3
    ensures r.0.Valid() && r.0 == m.(registers := r.0.registers)
    ensures r.1.Ok? ==> Resolve(m.registers, w[1]).Ok? && Resolve(m.registers, w[2]).Ok?
  {
    var b := Resolve(m.registers, w[1]);
    if b.IsFailure() then (m, b.PropagateFailure()) else
    var c := Resolve(m.registers, w[2]);
    if c.IsFailure() then (m, c.PropagateFailure()) else
    var v := Compute(op, b.value, c.value);
    if v.IsFailure() then (m, v.PropagateFailure()) else Store(m, w[0], v.value)
  }

  /** `push`, `jmp`, `call` and `out` on their fetched operand word. */
  function ApplySource(op: Opcode, location: u16, m: Machine): (r: (Machine, Result<()>))
    requires m.Valid() && (op.Push? || op.Jmp? || op.Call? || op.Out?)
    ensures r.0.registers == m.registers && r.0.memory == m.memory && r.0.input == m.input
    ensures r.1.Ok? <==> Resolve(m.registers, location).Ok?
    ensures r.1.IsFailure() ==> r.0 == m
  {
    var a := Resolve(m.registers, location);
    if a.IsFailure() then (m, a.PropagateFailure()) else
    match op
    case Push => (m.(stack := m.stack + [a.value]), Ok(()))
    case Jmp => (m.(pc := a.value), Ok(()))
    case Call => (m.(stack := m.stack + [m.pc], pc := a.value), Ok(()))
    case Out => (m.(output := m.output + [a.value % 0x100]), Ok(()))
  }

  /** `wmem a b` on its fetched operand words. */
  function ApplyWmem(w: seq<u16>, m: Machine): (r: (Machine, Result<()>))
    requires m.Valid() && |w| == 2
    ensures r.0.Valid() && r.0 == m.(memory := r.0.memory)
    ensures forall i :: 0 <= i < MemorySize && r.0.memory[i] != m.memory[i] ==>
              r.1.Ok? && Resolve(m.registers, w[0]) == Ok(i)
  {
    var a := Resolve(m.registers, w[0]);
    if a.IsFailure() then (m, a.PropagateFailure()) else
    var b := Resolve(m.registers, w[1]);
    if b.IsFailure() then (m, b.PropagateFailure()) else
    (m.(memory := m.memory[a.value := b.value]), Ok(()))
  }

  /** `in a` on its fetched operand word: the next input byte, 0 once the
      input is exhausted, and a failed read reported as it comes. */
  function ApplyIn(location: u16, m: Machine): (r: (Machine, Result<()>))
    requires m.Valid()
    ensures r.0.Valid() && r.0 == m.(registers := r.0.registers, input := r.0.input)
    ensures r.0.input == if m.input == [] then [] else m.input[1..]
  {
    if m.input == [] then Store(m, location, 0)
    else
      match m.input[0]
      case Failure(e) => (m.(input := m.input[1..]), Err(InputErr(e)))
      case Byte(x) => Store(m.(input := m.input[1..]), location, x)
  }

  /** Effect of an opcode whose operand words `w` have been fetched. */
  function Apply(op: Opcode, w: seq<u16>, m: Machine): (r: (Machine, Result<()>))
    requires m.Valid() && op.FetchesFirst() && |w| == Arity(op)
    ensures r.0.Valid()
  {
    match op
    case Set | Not | Rmem => ApplyUnary(op, w, m)
    case Eq | Gt | Add | Mult | Mod | And | Or => ApplyBinary(op, w, m)
    case Push | Jmp | Call | Out => ApplySource(op, w[0], m)
    case Wmem => ApplyWmem(w, m)
    case In => ApplyIn(w[0], m)
  }

  /** `jt` (when `onNonZero`) and `jf`: the jump operand is fetched after the
      test is resolved, and resolved only when the jump is taken. */
  function Branch(onNonZero: bool, m: Machine): (r: (Machine, Result<()>))
    requires m.Valid()
    ensures r.0 == m.(pc := r.0.pc)
  {
    var (m, a) := Fetch(m);
    if a.IsFailure() then (m, a.PropagateFailure()) else
    var test := Resolve(m.registers, a.value);
    if test.IsFailure() then (m, test.PropagateFailure()) else
    var (m, b) := Fetch(m);
    if b.IsFailure() then (m, b.PropagateFailure()) else
    if (test.value != 0) == onNonZero then
      var target := Resolve(m.registers, b.value);
      if target.IsFailure() then (m, target.PropagateFailure()) else (m.(pc := target.value), Ok(()))
    else (m, Ok(()))
  }

  /** `pop a`: the top is removed before the destination is fetched. */
  function PopInto(m: Machine): (r: (Machine, Result<()>))
    requires m.Valid()
    ensures r.0.Valid() && r.0 == m.(registers := r.0.registers, stack := r.0.stack, pc := r.0.pc)
    ensures m.stack == [] <==> r == (m, Err(StackUnderflow))
    ensures m.stack != [] ==> r.0.stack == m.stack[..|m.stack| - 1]
  {
    if m.stack == [] then (m, Err(StackUnderflow))
    else
      var top := m.stack[|m.stack| - 1];
      var (m, a) := Fetch(m.(stack := m.stack[..|m.stack| - 1]));
      if a.IsFailure() then (m, a.PropagateFailure()) else Store(m, a.value, top)
  }

  /** `ret`: jump to the address on top of the stack. */
  function Return(m: Machine): (r: (Machine, Result<()>))
    ensures r.0 == m.(stack := r.0.stack, pc := r.0.pc)
    ensures r.1.Ok? <==> m.stack != []
    ensures r.1.Ok? ==> r.0.stack + [r.0.pc] == m.stack
  {
    if m.stack == [] then (m, Err(StackUnderflow))
    else (m.(stack := m.stack[..|m.stack| - 1], pc := m.stack[|m.stack| - 1]), Ok(()))
  }

  /** The opcodes that fetch all their operands first. */
  function FetchThenApply(op: Opcode, m: Machine): (r: (Machine, Result<()>))
    requires m.Valid() && op.FetchesFirst()
    ensures r.0.Valid()
    ensures m.pc as int + Arity(op) > MaxPc ==> r == (m.(pc := MaxPc), Panic(ProgramCounterOverflow))
  {
    var (m, w) := Operands(m, Arity(op));
    if w.IsFailure() then (m, w.PropagateFailure()) else Apply(op, w.value, m)
  }

  /** Effect of opcode `op`, the program counter already past it. */
  function Execute(op: Opcode, m: Machine): (r: (Machine, Result<()>))
    requires m.Valid()
    ensures r.0.Valid()
  {
    match op
    case Halt => (m, Err(Halted))
    case Noop => (m, Ok(()))
    case Pop => PopInto(m)
    case Ret => Return(m)
    case Jt => Branch(true, m)
    case Jf => Branch(false, m)
    case _ => FetchThenApply(op, m)
  }

  /** A binary opcode fetches its three operands, then applies itself. */
  lemma ExecuteBinary(op: Opcode, m: Machine)
    requires m.Valid() && op.IsBinary()
    ensures m.pc as int + 3 > MaxPc ==> Execute(op, m) == (m.(pc := MaxPc), Panic(ProgramCounterOverflow))
    ensures m.pc as int + 3 <= MaxPc ==>
              Execute(op, m) == ApplyBinary(op, [m.memory[m.pc], m.memory[m.pc + 1], m.memory[m.pc + 2]],
                                            m.(pc := m.pc + 3))
  {
    OperandsThree(m);
  }

  /** One fetch-decode-execute step: `run_optcode`. */
  function Step(m: Machine): (r: (Machine, Result<()>))
    requires m.Valid()
    ensures r.0.Valid()
  {
    var (m, w) := Fetch(m);
    if w.IsFailure() then (m, w.PropagateFailure()) else
    match OpcodeOf(w.value)
    case None => (m, Err(BadOptcode))
    case Some(op) => Execute(op, m)
  }

  /** A step at a decodable opcode word executes that opcode from the next
      address. */
  lemma StepDecodes(m: Machine, op: Opcode)
    requires m.Valid() && m.pc < MaxPc && m.memory[m.pc] == Code(op)
    ensures Step(m) == Execute(op, m.(pc := m.pc + 1))
  {
    assert OpcodeOf(Code(op)) == Some(op);
  }

  // ---------------------------------------------------------------------
  // The run loop.

  /** A machine whose register file and memory have the allocated sizes. */
  type State = m: Machine | m.Valid() witness Initial([])

  /** `Step` on machines of the allocated sizes. */
  function Next(m: State): (State, Result<()>)
  {
    Step(m)
  }

  /** Up to `fuel` applications of `step`, stopping at the first outcome
      that is not `Ok`: the shape of the `main` loop, for any step. */
  function Iterate(step: State -> (State, Result<()>), s: State, fuel: nat): (State, Result<()>)
    decreases fuel
  {
    if fuel == 0 then (s, Ok(()))
    else
      var (next, r) := step(s);
      if r.IsFailure() then (next, r) else Iterate(step, next, fuel - 1)
  }

  /** Up to `fuel` steps, stopping at the first outcome that is not `Ok`:
      the `main` loop, bounded. */
  function Run(m: Machine, fuel: nat): (r: (Machine, Result<()>))
    requires m.Valid()
    ensures r.0.Valid()
  {
    Iterate(Next, m, fuel)
  }

  /** Once the loop has stopped, more fuel changes nothing. */
  lemma {:induction false} IterateStaysStopped(step: State -> (State, Result<()>), s: State, j: nat, n: nat)
    requires Iterate(step, s, j).1.IsFailure() && j <= n
    ensures Iterate(step, s, n) == Iterate(step, s, j)
    decreases j
  {
    var (next, r) := step(s);
    if !r.IsFailure() {
      IterateStaysStopped(step, next, j - 1, n - 1);
    }
  }

  /** Running to `mid` without stopping and then on from there is running
      from the start. */
  lemma {:induction false} IterateCompose(step: State -> (State, Result<()>), s: State, j: nat, n: nat, mid: State)
    requires Iterate(step, s, j) == (mid, Ok(())) && j <= n
    ensures Iterate(step, s, n) == Iterate(step, mid, n - j)
    decreases j
  {
    if j > 0 {
      var (next, r) := step(s);
      IterateCompose(step, next, j - 1, n - 1, mid);
    }
  }

  /** A relation that is reflexive, transitive and holds across every step
      holds between the start and the end of every run. */
  lemma {:induction false} IterateKeeps(step: State -> (State, Result<()>), rel: (State, State) -> bool, s: State, n: nat)
    requires forall a :: rel(a, a)
    requires forall a, b, c :: rel(a, b) && rel(b, c) ==> rel(a, c)
    requires forall a :: rel(a, step(a).0)
    ensures rel(s, Iterate(step, s, n).0)
    decreases n
  {
    if n > 0 {
      var (next, r) := step(s);
      assert rel(s, next);
      if !r.IsFailure() {
        IterateKeeps(step, rel, next, n - 1);
      }
    }
  }
}
