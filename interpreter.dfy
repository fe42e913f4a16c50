/// The interpreter object: a register file and a word memory updated in
/// place, a stack, a program counter, and the two character streams. Every
/// method is proved to change the object exactly as the value-level model
/// in module Vm says.
module Interpreter {
  import opened Word16
  import opened Vm
  import Image

  class Synacor {
    var registers: array<u16>
    var memory: array<u16>
    var stack: seq<u16>
    var programCounter: u16
    /** Bytes written by `out`, oldest first. */
    var output: seq<u8>
    /** Read outcomes still to come from the input stream. */
    var input: seq<ReadOutcome>

    ghost predicate Valid()
      reads this`registers, this`memory
    {
      registers.Length == RegisterCount && memory.Length == MemorySize
    }

    /** The machine this object currently represents. */
    ghost function State(): (m: Machine)
      reads this, registers, memory
      requires Valid()
      ensures m.Valid()
    {
      Machine(registers[..], memory[..], stack, programCounter, output, input)
    }

    /** `Synacor::new`, reading from the given input. */
    constructor (input: seq<ReadOutcome>)
      ensures Valid() && fresh(registers) && fresh(memory)
      ensures State() == Initial(input)
    {
      registers := new u16[RegisterCount](_ => 0);
      memory := new u16[MemorySize](_ => 0);
      stack := [];
      programCounter := 0;
      output := [];
      this.input := input;
    }

    /** `read_word_code`: the word at the program counter, which moves past it. */
    method ReadWordCode() returns (r: Result<u16>)
      requires Valid()
      modifies this`programCounter
      ensures old(programCounter) == MaxPc ==> programCounter == MaxPc && r == Panic(ProgramCounterOverflow)
      ensures old(programCounter) < MaxPc ==>
                programCounter == old(programCounter) + 1 && r == Ok(memory[old(programCounter)])
      ensures (State(), r) == Fetch(old(State()))
    {
      if programCounter == MaxPc {
        return Panic(ProgramCounterOverflow);
      }
      programCounter := programCounter + 1;
      r := Ok(memory[programCounter - 1]);
    }

    /** `write_word_data`: store `word` through the destination operand. */
    method WriteWordData(location: u16, word: u16) returns (r: Result<()>)
      requires Valid()
      modifies registers
      ensures (State(), r) == Store(old(State()), location, word)
    {
      if location < Modulus {
        return Ok(());
      }
      var register := location % Modulus;
      if register > 8 {
        return Err(BadRegister);
      }
      if register >= registers.Length {
        return Panic(RegisterIndexOutOfBounds);
      }
      registers[register] := word;
      r := Ok(());
    }

    /** `read_bytes_into_ram`: every complete little-endian pair of bytes
        becomes the word at half its byte offset. */
    method ReadBytesIntoRam(bytes: seq<u8>)
      requires Valid()
      requires |bytes| / 2 <= MemorySize
      modifies memory
      ensures memory[..] == Load(old(memory[..]), bytes)
    {
      var index := 0;
      while index + 1 < |bytes|
        invariant 0 <= index <= |bytes|
        invariant |bytes| > 0 ==> index < |bytes|
        invariant forall k :: 0 <= k < (index + 1) / 2 ==>
                    memory[k] == Image.LittleEndian(bytes[2 * k], bytes[2 * k + 1])
        invariant forall k :: (index + 1) / 2 <= k < memory.Length ==> memory[k] == old(memory[k])
      {
        if index % 2 == 1 {
          index := index + 1;
          continue;
        }
        var word: u16 := bytes[index + 1] as int * 0x100;
        word := word + bytes[index];
        memory[index / 2] := word;
        index := index + 1;
      }
      assert (index + 1) / 2 == |bytes| / 2;
    }

    /** `run_optcode`: execute the instruction at the program counter. */
    method RunOptcode() returns (r: Result<()>)
      requires Valid()
      modifies this`programCounter, this`stack, this`output, this`input, registers, memory
      ensures (State(), r) == Step(old(State()))
    {
      var opcode :- ReadWordCode();
      match opcode {
        case 0 => r := Err(Halted);
        case 1 => r := ExecSet();
        case 2 => r := ExecPush();
        case 3 => r := ExecPop();
        case 4 => r := ExecBinary(Eq);
        case 5 => r := ExecBinary(Gt);
        case 6 => r := ExecJmp();
        case 7 => r := ExecBranch(true);
        case 8 => r := ExecBranch(false);
        case 9 => r := ExecBinary(Add);
        case 10 => r := ExecBinary(Mult);
        case 11 => r := ExecBinary(Mod);
        case 12 => r := ExecBinary(And);
        case 13 => r := ExecBinary(Or);
        case 14 => r := ExecNot();
        case 15 => r := ExecRmem();
        case 16 => r := ExecWmem();
        case 17 => r := ExecCall();
        case 18 => r := ExecRet();
        case 19 => r := ExecOut();
        case 20 => r := ExecIn();
        case 21 => r := Ok(());
        case _ => r := Err(BadOptcode);
      }
    }

    /** `set a b` */
    method ExecSet() returns (r: Result<()>)
      requires Valid()
      modifies this`programCounter, registers
      ensures (State(), r) == Execute(Set, old(State()))
    {
      var writeReg :- ReadWordCode();
      var wordLoc :- ReadWordCode();
      var word :- Resolve(registers[..], wordLoc);
      r := WriteWordData(writeReg, word);
    }

    /** `push a` */
    method ExecPush() returns (r: Result<()>)
      requires Valid()
      modifies this`programCounter, this`stack
      ensures (State(), r) == Execute(Push, old(State()))
    {
      var location :- ReadWordCode();
      var word :- Resolve(registers[..], location);
      stack := stack + [word];
      r := Ok(());
    }

    /** `pop a`: the top is removed before the destination is fetched. */
    method ExecPop() returns (r: Result<()>)
      requires Valid()
      modifies this`programCounter, this`stack, registers
      ensures (State(), r) == Execute(Pop, old(State()))
    {
      if stack != [] {
        var word := stack[|stack| - 1];
        stack := stack[..|stack| - 1];
        var location :- ReadWordCode();
        r := WriteWordData(location, word);
      } else {
        r := Err(StackUnderflow);
      }
    }

    /** The arithmetic of the binary opcodes on resolved operands: 16-bit
        wrapping, then reduction mod 32768; `mod` by zero aborts. */
    static method ComputeWord(op: Opcode, b: u16, c: u16) returns (v: Result<u16>)
      requires op.IsBinary()
      ensures v == Compute(op, b, c)
    {
      var word: u16;
      match op {
        case Eq =>
          word := if b == c then 1 else 0;
        case Gt =>
          word := if b > c then 1 else 0;
        case Add =>
          word := WrappingAdd(b, c);
          word := word % Modulus;
        case Mult =>
          word := WrappingMul(b, c);
          word := word % Modulus;
        case Mod =>
          if c == 0 {
            return Panic(RemainderByZero);
          }
          word := b % c;
          word := word % Modulus;
        case And =>
          word := WordAnd(b, c);
        case Or =>
          word := WordOr(b, c);
      }
      v := Ok(word);
    }

    /** `eq`, `gt`, `add`, `mult`, `mod`, `and` and `or`: `a := b op c`. */
    method ExecBinary(op: Opcode) returns (r: Result<()>)
      requires Valid() && op.IsBinary()
      modifies this`programCounter, registers
      ensures (State(), r) == Execute(op, old(State()))
    {
      ghost var start := State();
      ExecuteBinary(op, start);
      var locationA :- ReadWordCode();
      var locationB :- ReadWordCode();
      var locationC :- ReadWordCode();
      assert State() == start.(pc := start.pc + 3);
      r := StoreBinary(op, locationA, locationB, locationC);
    }

    /** The part of a binary opcode after its operand words are read. */
    method StoreBinary(op: Opcode, locationA: u16, locationB: u16, locationC: u16) returns (r: Result<()>)
      requires Valid() && op.IsBinary()
      modifies registers
      ensures Valid()
      ensures (State(), r) == ApplyBinary(op, [locationA, locationB, locationC], old(State()))
    {
      var b :- Resolve(registers[..], locationB);
      var c :- Resolve(registers[..], locationC);
      var word :- ComputeWord(op, b, c);
      r := WriteWordData(locationA, word);
    }

    /** `jmp a` */
    method ExecJmp() returns (r: Result<()>)
      requires Valid()
      modifies this`programCounter
      ensures (State(), r) == Execute(Jmp, old(State()))
    {
      var location :- ReadWordCode();
      var jump :- Resolve(registers[..], location);
      programCounter := jump;
      r := Ok(());
    }

    /** `jt a b` (`onNonZero`) and `jf a b`. */
    method ExecBranch(onNonZero: bool) returns (r: Result<()>)
      requires Valid()
      modifies this`programCounter
      ensures (State(), r) == Execute(if onNonZero then Jt else Jf, old(State()))
    {
      var testLoc :- ReadWordCode();
      var test :- Resolve(registers[..], testLoc);
      var jumpLoc :- ReadWordCode();
      if (test != 0) == onNonZero {
        var jump :- Resolve(registers[..], jumpLoc);
        programCounter := jump;
      }
      r := Ok(());
    }

    /** `not a b` */
    method ExecNot() returns (r: Result<()>)
      requires Valid()
      modifies this`programCounter, registers
      ensures (State(), r) == Execute(Not, old(State()))
    {
      var locationA :- ReadWordCode();
      var locationB :- ReadWordCode();
      var b :- Resolve(registers[..], locationB);
      r := WriteWordData(locationA, WordNot(b));
    }

    /** `rmem a b`: the resolved `b` indexes memory directly. */
    method ExecRmem() returns (r: Result<()>)
      requires Valid()
      modifies this`programCounter, registers
      ensures (State(), r) == Execute(Rmem, old(State()))
    {
      var locationA :- ReadWordCode();
      var locationB :- ReadWordCode();
      var b :- Resolve(registers[..], locationB);
      var a := memory[b];
      r := WriteWordData(locationA, a);
    }

    /** `wmem a b`: the resolved `a` indexes memory directly. */
    method ExecWmem() returns (r: Result<()>)
      requires Valid()
      modifies this`programCounter, memory
      ensures (State(), r) == Execute(Wmem, old(State()))
    {
      var locationA :- ReadWordCode();
      var locationB :- ReadWordCode();
      var a :- Resolve(registers[..], locationA);
      var b :- Resolve(registers[..], locationB);
      memory[a] := b;
      r := Ok(());
    }

    /** `call a`: push the address of the next instruction, jump to `a`. */
    method ExecCall() returns (r: Result<()>)
      requires Valid()
      modifies this`programCounter, this`stack
      ensures (State(), r) == Execute(Call, old(State()))
    {
      var locationA :- ReadWordCode();
      var a :- Resolve(registers[..], locationA);
      stack := stack + [programCounter];
      programCounter := a;
      r := Ok(());
    }

    /** `ret`: pop the program counter. */
    method ExecRet() returns (r: Result<()>)
      requires Valid()
      modifies this`programCounter, this`stack
      ensures (State(), r) == Execute(Ret, old(State()))
    {
      if stack != [] {
        var jump := stack[|stack| - 1];
        stack := stack[..|stack| - 1];
        programCounter := jump;
        r := Ok(());
      } else {
        r := Err(StackUnderflow);
      }
    }

    /** `out a`: write the low byte of the resolved `a`. */
    method ExecOut() returns (r: Result<()>)
      requires Valid()
      modifies this`programCounter, this`output
      ensures (State(), r) == Execute(Out, old(State()))
    {
      var location :- ReadWordCode();
      var word :- Resolve(registers[..], location);
      output := output + [word % 0x100];
      r := Ok(());
    }

    /** `in a`: read one byte into `a`. A read at end of input succeeds
        without a byte and leaves the buffer's zero in place. */
    method ExecIn() returns (r: Result<()>)
      requires Valid()
      modifies this`programCounter, this`input, registers
      ensures (State(), r) == Execute(In, old(State()))
    {
      var locationA :- ReadWordCode();
      var charBuf: u8 := 0;
      if input != [] {
        var outcome := input[0];
        input := input[1..];
        match outcome {
          case Failure(err) =>
            return Err(InputErr(err));
          case Byte(x) =>
            charBuf := x;
        }
      }
      r := WriteWordData(locationA, charBuf);
    }
  }
}
