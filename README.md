# Synacor virtual machine interpreter, modelled in Dafny

This project models the interpreter for the Synacor virtual machine
(`src/main.rs`). It has five parts:

- **The machine.** It has eight 16-bit registers, a flat memory of 0x1FFFFF
  words, a stack of words and a 16-bit program counter. It also has an
  output stream and an input stream.
- **Operand resolution.** A word below 32768 is a literal. Otherwise
  `word % 32768` names a register.
- **The write path.** A value can be stored to a register operand.
  Writing to a literal operand does nothing and succeeds.
- **The loader.** A program image is a sequence of little-endian byte
  pairs.
- **The dispatcher.** It fetches one opcode and executes it. There are 22
  opcodes. Every terminal outcome is reported as a `SynacorErr`.

The project is in four modules:

- `Word16` (`word16.dfy`): the `u16`/`u8` word types and Rust's wrapping
  `+` and `*`. It also holds bitwise AND, OR and XOR, defined bit by bit,
  and the reduction modulo 32768 that the arithmetic opcodes apply.
- `Image` (`image.dfy`): the program image format, with decoding and
  encoding and their round trips.
- `Vm` (`vm.dfy`): the machine as a value.
  - `Resolve` and `Write` model the operand resolver and the write path.
  - `Fetch` models the code fetch.
  - `Step` models one `run_optcode`. `Execute` dispatches to one small
    function per kind of instruction.
  - `Run` is a bounded form of the `main` loop. It is built on a generic
    `Iterate`.
  - A Rust panic becomes a third kind of outcome, `Panic(cause)`, next to
    `Ok` and `Err(SynacorErr)`. Panics cover indexing register 8, `% 0`
    and incrementing the program counter past 65535.
- `Interpreter` (`interpreter.dfy`): the class `Synacor`.
  - It has the registers and memory as arrays, which are updated in
    place. The stack, program counter and streams are fields.
  - It has a method for each of `new`, `read_word_code`,
    `write_word_data`, `read_bytes_into_ram` and `run_optcode`.
    `read_word_data` reads the registers without changing anything, so it
    is the function `Vm.Resolve`, which the methods call on `registers[..]`.
  - Inside `run_optcode`, arms 0 and 21 and the default arm stay inline
    in `RunOptcode`. The seven three-operand arms share `ExecBinary`, and
    `jt`/`jf` share `ExecBranch`. Every other arm has its own method.
  - Each method is proved to leave the object in exactly the state, and
    return exactly the outcome, that the value model gives for the old
    state. For example, `RunOptcode` ensures
    `(State(), r) == Step(old(State()))`.
- `Properties` (`properties.dfy`): what the source promises, stated about
  the value model:
  - how the resolver and the write path agree;
  - each opcode's effect;
  - the stream discipline over whole runs;
  - three short programs run to completion.

Behaviour reproduced exactly from the code:

- **Register 8.** The register guard is `register > 8`, so operand 32776
  passes it and indexes a register file that has no slot 8. That is the
  `Panic(RegisterIndexOutOfBounds)` outcome. Operands 32777 and above are
  `BadRegister`.
- **Panics.** `mod` by zero is `Panic(RemainderByZero)`. A fetch at program
  counter 65535 is `Panic(ProgramCounterOverflow)`. The counter stays at
  65535.
- **Memory bounds.** Memory is larger than any 16-bit address, so `rmem`
  and `wmem` are never out of bounds.
- **`pop`.** It removes the top of the stack before it fetches its
  destination. On an empty stack it fails before fetching it.
- **`jt` and `jf`.** They resolve their jump operand only when the jump is
  taken.
- **End of input.** `in` at end of input stores 0 and succeeds, because
  `Read::read` returns `Ok(0)` and the zero-initialised buffer is stored.
  Only a failed read yields `InputErr`. This is what the code does, even
  though a stricter reading of the machine would treat end of input as an
  error.

## Model

| member | source | states |
|---|---|---|
| Word16.WrappingAdd | src/main.rs:166 | Rust `wrapping_add`: the sum when it fits in 16 bits, the sum minus 65536 otherwise |
| Word16.WrappingMul | src/main.rs:176 | Rust `wrapping_mul`: the product when it fits in 16 bits, otherwise a word congruent to it modulo 65536 |
| Word16.WordAdd | src/main.rs:164-168 | `add` stores `(b + c) mod 32768`: wrapping at 65536 first gives the same value |
| Word16.WordMult | src/main.rs:174-178 | `mult` stores `(b * c) mod 32768`: wrapping at 65536 first gives the same value |
| Word16.WrapThenReduce | src/main.rs:166-167 | reducing modulo 65536 before reducing modulo 32768 changes nothing |
| Word16.WordAnd | src/main.rs:194-197 | bitwise AND of two words is a word no larger than either operand |
| Word16.WordOr | src/main.rs:203-206 | bitwise OR of two words is a word at least as large as each operand, and below 32768 when both are |
| Word16.WordNot | src/main.rs:211-213 | `b ^ 0x7FFF` is below 32768 exactly when `b` is |
| Word16.WordNotInvolution | src/main.rs:212 | `not` applied twice gives back the operand |
| Image.LittleEndian | src/main.rs:67-69 | the loaded word has `byte1` as its low byte and `byte2` as its high byte |
| Image.Decode | src/main.rs:60-72 | an image gives one word per complete byte pair, word `i` built from bytes `2i` (low) and `2i+1` (high) |
| Image.Encode | src/main.rs:60-72 | the image of `n` words is `2n` bytes |
| Image.DecodeEncode | src/main.rs:60-72 | decoding an encoded image gives back its words |
| Image.EncodeDecode | src/main.rs:60-72 | encoding decoded words gives back the image without an odd trailing byte |
| Vm.Initial | src/main.rs:35-43 | a new machine has its register file and memory at their allocated sizes |
| Vm.Load | src/main.rs:60-72 | after loading, memory keeps its size, word `i < n/2` is the little-endian pair at bytes `2i`, `2i+1`, and every word from `n/2` on is unchanged |
| Vm.Boot | src/main.rs:271-272 | a new machine with an image loaded has its register file and memory at their allocated sizes |
| Vm.Resolve | src/main.rs:48-59 | a literal resolves to itself, 32768..32775 to that register, 32776 to an out-of-bounds panic, 32777 and above to `BadRegister` |
| Vm.Write | src/main.rs:73-85 | a literal destination leaves the registers as they were; 32768..32775 replaces exactly that register; 32776 panics; 32777 and above is `BadRegister` |
| Vm.Store | src/main.rs:73-85 | the write path changes nothing but the register file |
| Vm.Code | src/main.rs:86-264 | every opcode's code word is at most 21 |
| Vm.OpcodeOf | src/main.rs:86-264 | a code word names an opcode exactly when it is at most 21 |
| Vm.Fetch | src/main.rs:44-47 | a code fetch changes only the program counter |
| Vm.Operands | src/main.rs:44-47 | fetching `n` operand words changes only the program counter and yields `n` words |
| Vm.OperandsThree | src/main.rs:111-113 | three consecutive fetches yield the three words after the counter and move it by 3, or panic at the end of the address space |
| Vm.Compute | src/main.rs:110-207 | only `mod` by zero fails, and it fails by panicking; `eq` and `gt` compute 0 or 1 |
| Vm.ApplyUnary | src/main.rs:208-221 | `set`, `not` and `rmem` change nothing but the register file, and change nothing when the source operand does not resolve |
| Vm.ApplyBinary | src/main.rs:114-207 | a three-operand opcode changes nothing but the register file, and succeeds only when both source operands resolve |
| Vm.ApplySource | src/main.rs:95-100 | `push`, `jmp`, `call` and `out` never touch registers, memory or input; they succeed exactly when their operand resolves and change nothing otherwise |
| Vm.ApplyWmem | src/main.rs:222-229 | `wmem` changes nothing but memory, and a word changes only at the address its first operand resolves to, and only on success |
| Vm.ApplyIn | src/main.rs:251-260 | `in` changes only the register file and the input, and consumes exactly one read outcome unless the input is exhausted |
| Vm.PopInto | src/main.rs:101-109 | `pop` changes only registers, stack and counter; it underflows, changing nothing, exactly when the stack is empty, and otherwise removes the top |
| Vm.Return | src/main.rs:237-244 | `ret` changes only stack and counter; it succeeds exactly when the stack is non-empty, and then the counter is the old top |
| Vm.FetchThenApply | src/main.rs:110-113 | an opcode whose operand words run past address 65535 panics with the counter at 65535 |
| Vm.Apply | src/main.rs:86-264 | an instruction applied to its fetched operands keeps the register file and memory at their sizes |
| Vm.Branch | src/main.rs:136-159 | `jt` and `jf` change only the program counter |
| Vm.Execute | src/main.rs:86-264 | executing an opcode keeps the register file and memory at their sizes |
| Vm.ExecuteBinary | src/main.rs:110-207 | a three-operand opcode reads its three operand words, then resolves, computes and stores; it panics if the words run past address 65535 |
| Vm.Step | src/main.rs:86-264 | one dispatcher step keeps the register file and memory at their sizes |
| Vm.StepDecodes | src/main.rs:86-87 | a step at a valid code word executes that opcode with the counter past it |
| Vm.Run | src/main.rs:273-278 | a bounded run keeps the register file and memory at their sizes |
| Vm.IterateStaysStopped | src/main.rs:273-278 | the loop stops at the first non-`Ok` outcome, and more fuel changes nothing after that |
| Vm.IterateCompose | src/main.rs:273-278 | running to an intermediate machine and then on from it is the same run |
| Vm.IterateKeeps | src/main.rs:273-278 | a reflexive, transitive relation kept by every step holds between the start and the end of the loop |
| Interpreter.Synacor.constructor | src/main.rs:35-43 | the new object is the all-zero machine with an empty stack and the given input |
| Interpreter.Synacor.ReadWordCode | src/main.rs:44-47 | returns the word at the counter and moves past it; at 65535 it panics and leaves the counter |
| Interpreter.Synacor.WriteWordData | src/main.rs:73-85 | the object after the call and the result are those of the write path (`Vm.Store`) |
| Interpreter.Synacor.ReadBytesIntoRam | src/main.rs:60-72 | memory afterwards is `Load(old memory, bytes)`: the little-endian words from address 0, and the rest unchanged |
| Interpreter.Synacor.RunOptcode | src/main.rs:86-264 | the object after the call and the outcome are `Step` of the old state |
| Interpreter.Synacor.ExecSet | src/main.rs:89-94 | the object after the call and the outcome are `Execute(Set)` of the old state |
| Interpreter.Synacor.ExecPush | src/main.rs:95-100 | the object after the call and the outcome are `Execute(Push)` of the old state |
| Interpreter.Synacor.ExecPop | src/main.rs:101-109 | the object after the call and the outcome are `Execute(Pop)` of the old state |
| Interpreter.Synacor.ComputeWord | src/main.rs:110-207 | the value stored for resolved operands `b` and `c` is `Compute(op, b, c)` |
| Interpreter.Synacor.ExecBinary | src/main.rs:110-207 | the object after the call and the outcome are `Execute(op)` of the old state, for `eq`, `gt`, `add`, `mult`, `mod`, `and` and `or` |
| Interpreter.Synacor.StoreBinary | src/main.rs:114-118 | once the operand words are read, the object after the call and the outcome are `ApplyBinary` of the old state |
| Interpreter.Synacor.ExecJmp | src/main.rs:130-135 | the object after the call and the outcome are `Execute(Jmp)` of the old state |
| Interpreter.Synacor.ExecBranch | src/main.rs:136-159 | the object after the call and the outcome are `Execute(Jt)` or `Execute(Jf)` of the old state |
| Interpreter.Synacor.ExecNot | src/main.rs:208-214 | the object after the call and the outcome are `Execute(Not)` of the old state |
| Interpreter.Synacor.ExecRmem | src/main.rs:215-221 | the object after the call and the outcome are `Execute(Rmem)` of the old state |
| Interpreter.Synacor.ExecWmem | src/main.rs:222-229 | the object after the call and the outcome are `Execute(Wmem)` of the old state |
| Interpreter.Synacor.ExecCall | src/main.rs:230-236 | the object after the call and the outcome are `Execute(Call)` of the old state |
| Interpreter.Synacor.ExecRet | src/main.rs:237-244 | the object after the call and the outcome are `Execute(Ret)` of the old state |
| Interpreter.Synacor.ExecOut | src/main.rs:245-250 | the object after the call and the outcome are `Execute(Out)` of the old state |
| Interpreter.Synacor.ExecIn | src/main.rs:251-260 | the object after the call and the outcome are `Execute(In)` of the old state |
| Properties.ResolveAgreesWithWrite | src/main.rs:48-85 | the resolver and the write path accept exactly the same operand words and fail on the others with the same outcome |
| Properties.ResolveAfterWrite | src/main.rs:48-85 | after a register write, that register resolves to the value written and every other operand resolves as before |
| Properties.OpcodeTable | src/main.rs:86-264 | each opcode decodes from its code word and from no other |
| Properties.HaltStep | src/main.rs:88 | opcode 0 yields `Halted` with the counter moved by 1 and nothing else changed |
| Properties.NoopStep | src/main.rs:261 | opcode 21 changes nothing but the counter, moved by 1 |
| Properties.BadOpcodeStep | src/main.rs:262 | any code word above 21 yields `BadOptcode` with the counter moved by 1 |
| Properties.FetchAtLastAddress | src/main.rs:44-47 | a step at counter 65535 panics with nothing changed |
| Properties.SetStep | src/main.rs:89-94 | `set` stores the resolved value in its destination register, moves the counter by 3, and changes nothing else |
| Properties.CompareStep | src/main.rs:110-129 | `eq`/`gt` store 1 when the comparison holds and 0 otherwise, move the counter by 4, and change nothing else |
| Properties.AddStep | src/main.rs:160-169 | `add` stores `(b + c) mod 32768`, which is below 32768, moves the counter by 4, and changes nothing else |
| Properties.MultStep | src/main.rs:170-179 | `mult` stores `(b * c) mod 32768`, which is below 32768, moves the counter by 4, and changes nothing else |
| Properties.ModByZeroStep | src/main.rs:180-189 | `mod` with a zero divisor panics after reading its operands and stores nothing |
| Properties.ModStep | src/main.rs:180-189 | `mod` with a non-zero divisor stores `b mod c` and moves the counter by 4 |
| Properties.ComputeBelowModulus | src/main.rs:110-207 | `eq`, `gt`, `add`, `mult` and `mod` always compute a value below 32768; `and` and `or` do so when both operands are below 32768 |
| Properties.AndOrStep | src/main.rs:190-207 | `and`/`or` store the bitwise AND/OR of the resolved operands, move the counter by 4, and change nothing else |
| Properties.NotStep | src/main.rs:208-214 | `not` stores `b ^ 0x7FFF`, which is an involution and below 32768 exactly when `b` is |
| Properties.PopEmpty | src/main.rs:101-109 | `pop` on an empty stack is `StackUnderflow`, with the counter moved only past the opcode |
| Properties.PopBadDestination | src/main.rs:101-109 | `pop` to a bad register still removes the top of the stack before reporting `BadRegister` |
| Properties.PushStep | src/main.rs:95-100 | `push` appends the resolved value to the stack and moves the counter by 2 |
| Properties.PopStep | src/main.rs:101-109 | `pop` moves the top of the stack into its destination register and removes it |
| Properties.PushThenPop | src/main.rs:95-109 | `push` appends the resolved value; a following `pop` moves it to the destination register and restores the stack |
| Properties.CallStep | src/main.rs:230-236 | `call` pushes the old counter + 2 and jumps to the resolved target |
| Properties.RetStep | src/main.rs:237-244 | `ret` pops the top of the stack into the counter |
| Properties.CallThenRet | src/main.rs:230-244 | `call` followed by `ret` at the target restores the successor counter and the original stack |
| Properties.JmpStep | src/main.rs:130-135 | `jmp` sets the counter to its resolved operand and changes nothing else |
| Properties.RetEmpty | src/main.rs:237-244 | `ret` on an empty stack is `StackUnderflow` |
| Properties.BranchNotTaken | src/main.rs:136-159 | a branch not taken ends at the old counter + 3 whatever its jump operand, even a bad register |
| Properties.BranchTaken | src/main.rs:136-159 | a branch taken jumps to the resolved target; a bad-register target is `BadRegister` on this path |
| Properties.OutStep | src/main.rs:245-250 | `out` appends the low 8 bits of its resolved operand to the output |
| Properties.InStep | src/main.rs:251-260 | `in` stores 0 at end of input, stores a byte read, and stops with `InputErr` after a failed read, which it consumes |
| Properties.StepStreams | src/main.rs:86-264 | one step appends at most one character to the output and consumes at most one read from the input |
| Properties.RunStreams | src/main.rs:273-278 | over any run the output only grows and the input is consumed only from the front |
| Properties.RmemStep | src/main.rs:215-221 | `rmem` loads the memory word at its resolved operand, any 16-bit address including those of 32768 and above, into its destination register |
| Properties.WmemStep | src/main.rs:222-229 | `wmem` writes its resolved second operand to the memory word at its resolved first operand and changes nothing else |
| Properties.MemoryOnlyByWmem | src/main.rs:86-264 | only `wmem` changes memory |
| Properties.RunStaysStopped | src/main.rs:273-278 | no instruction executes after a terminal outcome |
| Properties.RunFront | src/main.rs:273-278 | a step that does not stop hands the rest of the run to the machine it produces |
| Properties.RunStops | src/main.rs:273-278 | a step with a terminal outcome ends the run with that outcome |
| Properties.RunCompose | src/main.rs:273-278 | a run through an intermediate machine is the concatenation of the two runs |
| Properties.BootEncoded | src/main.rs:60-72 | loading an encoded program into a new machine puts its words at address 0 and leaves the rest zero |
| Properties.HaltOnlyProgram | src/main.rs:271-278 | a program that is a single `halt` stops with `Halted` after one step and writes nothing |
| Properties.DoublingRun | src/main.rs:86-264 | `set r0 5; add r0 r0 r0; eq r1 r0 10; out r0; halt` leaves 10 in r0 and 1 in r1, writes the character 10 and halts |
| Properties.IncrementStep | src/main.rs:160-169 | `add r0 r0 1` below the wrap-around point increments r0 |
| Properties.NestedCallRun | src/main.rs:230-244 | three nested calls, each incrementing r0, then three returns: r0 is 3, control is back after the outer call, and the stack is empty |
| Properties.InputRun | src/main.rs:251-260 | `in r0; halt` at end of input stores 0 and halts; with a failed read it stops at the `in` with `InputErr` |

## Left out

- **`main`** (`src/main.rs:267-279`). Opening and reading `challenge.bin`
  is file I/O and is not modelled. The unbounded loop is `Vm.Run`, which
  takes a step budget (fuel). A run that has not stopped within its
  budget ends with `Ok(())`.
- **The `Display` impl for `SynacorErr`.** It is not modelled: it only
  formats messages for people.
- **Standard output.** It is the sequence `output` of characters written.
  `out` writes `word as u8 as char`. `print!` encodes that character as
  UTF-8, so a value of 128 or more reaches stdout as two bytes. The model
  records the character's value (`0..255`), not its UTF-8 bytes.
- **Standard input.** It is the sequence `input` of read outcomes still to
  come. Each outcome is a byte or a failure. End of input is the empty
  sequence.
  - An `io::Error` is carried as an opaque `IoError` value.
  - A read that the operating system interrupts is not modelled. Each
    `in` consumes exactly one outcome.
- **Rust panics.** They are outcomes (`Panic(cause)`), not process aborts.
  Nothing runs after one, which matches a panic ending the program.
- **Release builds.** `Vm.Fetch` takes the checked-overflow reading of
  `program_counter += 1`, which panics at 65535 with the counter left
  there. A release build panics as well. It wraps the counter to 0, and
  then `program_counter as usize - 1` (`src/main.rs:46`) underflows and
  the index is out of bounds. The two builds differ only in the counter
  left behind: 65535 in the model, 0 in a release build.
- Interpreter.Synacor.ReadBytesIntoRam: requires the image to fit in
  memory (at most 2 × 0x1FFFFF + 1 bytes). A longer image makes the source
  index memory out of bounds and panic, and that panic is not modelled.
- Vm.Boot: requires the same bound, for the same reason.
- Vm.Step: its contract states only that the sizes are kept. Each of the
  22 opcodes and the bad-opcode arm has a single-step lemma in
  `Properties` that gives the whole successor state. Those lemmas cover
  the successful paths and the error paths the source singles out.
  `Interpreter.Synacor.RunOptcode` is proved equal to `Vm.Step`.
- Vm.Execute: its contract is as weak as `Vm.Step`'s, for the same reason.
- Vm.Apply: its contract is as weak as `Vm.Step`'s, for the same reason.
- Vm.Run: its contract states only that the sizes are kept. Its behaviour
  is stated by `Properties.RunStreams`, the `Run*` lemmas and the program
  lemmas.
- **Registers.** They are `u16` values, a subset of `int`, not a
  bit-vector type. The bitwise operators are defined bit by bit on
  naturals.
