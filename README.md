# CHIP-8 emulator core in Dafny

This project models the virtual-machine core of a small CHIP-8 emulator
written in Rust (`chip8_core/src/lib.rs`). It has one `Emulator` object holding all
machine state:

- 4096 bytes of RAM, with the 80-byte hexadecimal font at address 0;
- sixteen 8-bit V registers and the I register;
- the program counter, which starts at 0x200;
- a 16-slot call stack with a stack pointer;
- a 64×32 boolean screen;
- 16 key flags;
- the delay and sound timers.

The model covers construction and reset, stack push and pop, and the
fetch-decode-execute cycle (`tick` = `fetch_opcode` followed by
`execute_opcode`). It also covers the 60 Hz timer tick. The core implements
only four opcodes: 0000 (NOP), 00E0 (CLS), 00EE (RET) and 1nnn (JP). Every
other opcode is a fault.

There are two modules:

- `Chip8Spec` (`chip8_spec.dfy`) describes the machine as a value. The
  `Machine` datatype is a snapshot of every field, and there is one pure
  function per operation: `Initial`, `Push`, `Pop`, `Fetch`, `Execute`, `Step`
  and `TickTimers`. The module also holds the nibble decoder `Nibbles`, the
  opcode decoder `Decode` with its inverse `Encode`, and the lemmas about these
  functions.
- `Chip8Core` (`chip8_core.dfy`) holds the class `Emulator`. Its fields are
  the fields of the Rust struct, and its fixed-size buffers are Dafny arrays
  updated in place. Each method of the class is proved to change the state
  (`Model()`) exactly as the matching `Chip8Spec` function says. The one
  exception is the state `Tick` leaves after an executor fault: `Step` then
  returns only the fault, so `Tick`'s contract gives that state as the result
  of `Fetch`.

Panics in the source are handled in two ways:

- `fetch_opcode`, `push` and `pop` get `requires` clauses. `fetch_opcode`
  indexes RAM at `pc` and `pc + 1`, `push` indexes the 16-slot stack, and
  `pop` decrements an unsigned stack pointer.
- `execute_opcode` and `tick` return an `Outcome` instead of panicking.
  `execute_opcode` returns `Fail(StackUnderflow)` for RET on an empty stack,
  where the source's `pop` would underflow. It returns
  `Fail(UnimplementedOpcode(op))` for every opcode the core does not
  implement. `tick` returns `Fail(MemoryOutOfBounds)` when the word at the
  program counter does not fit in RAM, and otherwise passes on the outcome of
  `execute_opcode`.

The source changes nothing before any of these panics. The one exception is
the fetch inside `tick`: it has already advanced the program counter by 2 when
the executor faults. The model keeps that advance.

The source writes the decoding with masks and shifts on 16-bit words
(`(opcode & 0xF000) >> 12`, `(high << 8) | low`, `opcode & 0xFFF`). The model
writes the same computations as division and remainder on bounded integers.
`u8` and `u16` are subset types of `int` with the ranges of the Rust types.

## Model

| member | source | states |
|---|---|---|
| Chip8Spec.Initial | chip8_core/src/lib.rs:44-59 | the initial state: program counter 0x200; RAM[0..80] is the font and all other RAM is 0; registers, I, stack, stack pointer and timers are 0; every key and pixel is false |
| Chip8Core.Emulator.constructor | chip8_core/src/lib.rs:44-59 | `new` produces fresh arrays, and its state is exactly `Initial()` |
| Chip8Core.Emulator.Reset | chip8_core/src/lib.rs:74-86 | `reset` overwrites every field in place, after which the state is exactly `Initial()` |
| Chip8Spec.Push | chip8_core/src/lib.rs:62-65 | requires a non-full stack; the stack pointer goes up by 1, the live stack gains the value on top, every other stack slot keeps its value, no other field changes, and 0 <= sp <= 16 still holds |
| Chip8Spec.Pop | chip8_core/src/lib.rs:68-71 | requires a non-empty stack; returns the top of the live stack, the stack pointer goes down by 1, the live stack loses its top, no other field changes |
| Chip8Spec.PopAfterPush | chip8_core/src/lib.rs:62-71 | pop right after push returns the pushed value and restores the stack pointer and the live stack |
| Chip8Core.Emulator.Push | chip8_core/src/lib.rs:62-65 | the in-place push on the stack array does exactly what `Chip8Spec.Push` says |
| Chip8Core.Emulator.Pop | chip8_core/src/lib.rs:68-71 | the in-place pop returns and leaves exactly what `Chip8Spec.Pop` says |
| Chip8Spec.Fetch | chip8_core/src/lib.rs:96-102 | requires pc + 1 < 4096; the word's high byte is RAM[pc] and its low byte is RAM[pc+1] (big-endian); the program counter goes up by exactly 2; nothing else changes |
| Chip8Core.Emulator.FetchOpcode | chip8_core/src/lib.rs:96-102 | `fetch_opcode` returns the word and leaves the state exactly as `Fetch` says |
| Chip8Spec.Nibbles | chip8_core/src/lib.rs:105-108 | each of the four extracted fields is < 16, and d1·4096 + d2·256 + d3·16 + d4 gives back the opcode |
| Chip8Spec.Combine | chip8_core/src/lib.rs:105-108 | recombining four nibbles gives a 16-bit word whose top and bottom fields are the first and last nibble |
| Chip8Spec.NibblesCombine | chip8_core/src/lib.rs:105-108 | splitting a recombined word gives back the same four nibbles |
| Chip8Spec.Decode | chip8_core/src/lib.rs:110-122 | the dispatch recognises exactly 0000, 00E0, 00EE and 1000-1FFF, and what it recognises encodes back to the same opcode; a jump target is a 12-bit address by its type |
| Chip8Spec.DecodeEncode | chip8_core/src/lib.rs:110-121 | decoding the opcode of any implemented instruction gives back that instruction |
| Chip8Spec.Execute | chip8_core/src/lib.rs:104-124 | NOP changes nothing. CLS turns every pixel off and changes nothing else. RET fails with StackUnderflow exactly when the stack is empty, and otherwise sets pc to the top entry and lowers sp by 1. 1nnn sets pc to nnn, which is below 4096. Every other opcode fails with UnimplementedOpcode(opcode). A successful step keeps the machine invariant |
| Chip8Core.Emulator.ExecuteOpcode | chip8_core/src/lib.rs:104-124 | the nibble match on the object returns the outcome of `Execute`, leaves its state on success, and leaves the state unchanged on a fault |
| Chip8Spec.Step | chip8_core/src/lib.rs:88-91 | a cycle fails with MemoryOutOfBounds exactly when pc + 1 >= 4096; a successful cycle keeps the invariant and changes only pc, sp and the screen |
| Chip8Core.Emulator.Tick | chip8_core/src/lib.rs:88-91 | `tick` reports the outcome of `Step`. On success the state is `Step`'s result. An out-of-bounds fetch changes nothing. An executor fault leaves only the fetch's advance of pc |
| Chip8Spec.StepNop | chip8_core/src/lib.rs:88-111 | two zero bytes at pc form a cycle that only advances pc by 2 |
| Chip8Spec.StepJump | chip8_core/src/lib.rs:96-121 | a 1nnn word at pc sets pc to nnn, overriding the advance made by the fetch |
| Chip8Spec.StepJumpToSelf | chip8_core/src/lib.rs:96-121 | a jump to its own address is a fixed point of the cycle |
| Chip8Spec.StepInitialEmptyProgram | chip8_core/src/lib.rs:44-59 | from the initial state with no program loaded, the first cycle is a NOP that moves pc to 0x202 |
| Chip8Spec.TickTimers | chip8_core/src/lib.rs:126-136 | each timer drops by exactly 1 if it was nonzero and stays 0 if it was 0; the tone is signalled exactly when the sound timer was 1; no other field changes |
| Chip8Core.Emulator.TickTimers | chip8_core/src/lib.rs:126-136 | `tick_timers` on the object returns the tone flag and leaves the state exactly as `Chip8Spec.TickTimers` says |
| Chip8Spec.RunTimersCountdown | chip8_core/src/lib.rs:126-136 | after n ticks each timer equals max(t − n, 0), nothing else has changed, and the tone has sounded exactly once if 1 <= sound <= n, otherwise never |

## Left out

- The `println!("Bing")` console output is modelled only as the boolean `tone` returned by `TickTimers`, because it is I/O.
- The message text of the `unimplemented!` panic is not modelled. The fault is the value `UnimplementedOpcode(opcode)`.
- The release-build behaviour of `pop` on an empty stack is not modelled: there the u16 stack pointer wraps before the stack index panics. The model follows the overflow-checked build and fails with `StackUnderflow` before changing anything.
- ROM loading, window and rendering, audio and keyboard polling are not part of this core. `keys` is only initialised here and never read, so it is a plain field.
- The real-time 60 Hz cadence of `tick_timers` compared with the instruction clock is a scheduling concern of the host and is not modelled.
- The opcodes the source does not implement (CALL, the skips, arithmetic, DRW, the key and timer loads, BCD and the rest) are not modelled as instructions; they are `UnimplementedOpcode` faults, as in the source.
- The stack push has no caller in the core, because the source has no CALL instruction. It is modelled as the source defines it.
