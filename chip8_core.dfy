/**
 * The CHIP-8 emulator as a mutable object: every field of the original
 * struct is a field here, the fixed-size arrays are Dafny arrays updated in
 * place, and each method is proved to change the state exactly as the
 * corresponding function of Chip8Spec says.
 */
module Chip8Core {
  import opened Chip8Spec

  class Emulator {
    var programCounter: u16
    const ram: array<u8>
    const screen: array<bool>
    const vReg: array<u8>
    var iReg: u16
    var stackPointer: u16
    const stack: array<u16>
    const keys: array<bool>
    var delayTimer: u8
    var soundTimer: u8

    /** The arrays have their fixed sizes and are distinct objects, and the
        stack pointer counts at most 16 used slots. */
    ghost predicate Valid()
      reads this
    {
      && ram.Length == RAM_SIZE
      && screen.Length == SCREEN_SIZE
      && vReg.Length == NUM_REGS
      && stack.Length == STACK_SIZE
      && keys.Length == NUM_KEYS
      && ram != vReg
      && screen != keys
      && stackPointer as nat <= STACK_SIZE
    }

    /** The abstract value of the emulator: a snapshot of all its fields. */
    ghost function Model(): (m: Machine)
      requires Valid()
      reads this, ram, screen, vReg, stack, keys
      ensures ValidMachine(m)
    {
      Machine(programCounter, ram[..], screen[..], vReg[..], iReg, stackPointer,
              stack[..], keys[..], delayTimer, soundTimer)
    }

    /** `new`: a machine in its initial state, font loaded at address 0. */
    constructor ()
      ensures Valid()
      ensures fresh(ram) && fresh(screen) && fresh(vReg) && fresh(stack) && fresh(keys)
      ensures Model() == Initial()
    {
      programCounter := START_ADDR;
      ram := new u8[RAM_SIZE](_ => 0);
      screen := new bool[SCREEN_SIZE](_ => false);
      vReg := new u8[NUM_REGS](_ => 0);
      iReg := 0;
      stackPointer := 0;
      stack := new u16[STACK_SIZE](_ => 0);
      keys := new bool[NUM_KEYS](_ => false);
      delayTimer := 0;
      soundTimer := 0;
      new;
      forall a | 0 <= a < FONTSET_SIZE {
        ram[a] := FONTSET[a];
      }
      assert ram[..] == Initial().ram;
    }

    /** `reset`: every field is overwritten in place with its initial value. */
    method Reset()
      requires Valid()
      modifies this, ram, screen, vReg, stack, keys
      ensures Valid()
      ensures Model() == Initial()
    {
      programCounter := START_ADDR;
      forall a | 0 <= a < ram.Length {
        ram[a] := 0;
      }
      forall k | 0 <= k < screen.Length {
        screen[k] := false;
      }
      forall r | 0 <= r < vReg.Length {
        vReg[r] := 0;
      }
      iReg := 0;
      stackPointer := 0;
      forall k | 0 <= k < stack.Length {
        stack[k] := 0;
      }
      forall k | 0 <= k < keys.Length {
        keys[k] := false;
      }
      delayTimer := 0;
      soundTimer := 0;
      forall a | 0 <= a < FONTSET_SIZE {
        ram[a] := FONTSET[a];
      }
      assert ram[..] == Initial().ram;
      assert screen[..] == Initial().screen;
      assert vReg[..] == Initial().v;
      assert stack[..] == Initial().stack;
      assert keys[..] == Initial().keys;
    }

    /** `push`: the caller must leave room on the stack. */
    method Push(value: u16)
      requires Valid() && stackPointer as nat < STACK_SIZE
      modifies this, stack
      ensures Valid()
      ensures Model() == Chip8Spec.Push(old(Model()), value)
    {
      stack[stackPointer] := value;
      stackPointer := stackPointer + 1;
    }

    /** `pop`: the caller must not pop an empty stack. */
    method Pop() returns (value: u16)
      requires Valid() && stackPointer > 0
      modifies this
      ensures Valid()
      ensures (value, Model()) == Chip8Spec.Pop(old(Model()))
    {
      stackPointer := stackPointer - 1;
      value := stack[stackPointer];
    }

    /** `fetch_opcode`: both bytes of the word must lie inside RAM. */
    method FetchOpcode() returns (opcode: u16)
      requires Valid() && programCounter as nat + 1 < RAM_SIZE
      modifies this
      ensures Valid()
      ensures (opcode, Model()) == Fetch(old(Model()))
    {
      var higherByte := ram[programCounter];
      var lowerByte := ram[programCounter + 1];
      opcode := higherByte as int * 0x100 + lowerByte;
      programCounter := programCounter + 2;
    }

    /** `execute_opcode`: dispatch on the four nibbles of the opcode. */
    method ExecuteOpcode(opcode: u16) returns (outcome: Outcome)
      requires Valid()
      modifies this, screen
      ensures Valid()
      ensures outcome == OutcomeOf(Execute(old(Model()), opcode))
      ensures Model() == if outcome.Pass? then Execute(old(Model()), opcode).value else old(Model())
    {
      match Nibbles(opcode)
      case (0, 0, 0, 0) =>
        outcome := Pass;
      case (0, 0, 0xE, 0) =>
        forall k | 0 <= k < screen.Length {
          screen[k] := false;
        }
        assert screen[..] == Blank();
        outcome := Pass;
      case (0, 0, 0xE, 0xE) =>
        if stackPointer == 0 {
          outcome := Fail(StackUnderflow);
        } else {
          programCounter := Pop();
          outcome := Pass;
        }
      case (1, _, _, _) =>
        programCounter := opcode % 0x1000;
        outcome := Pass;
      case _ =>
        outcome := Fail(UnimplementedOpcode(opcode));
    }

    /** `tick`: one fetch-decode-execute cycle. A fetch outside RAM changes
        nothing; a fault of the executor leaves the advance made by the fetch. */
    method Tick() returns (outcome: Outcome)
      requires Valid()
      modifies this, screen
      ensures Valid()
      ensures outcome == OutcomeOf(Step(old(Model())))
      ensures outcome.Pass? ==> Model() == Step(old(Model())).value
      ensures outcome == Fail(MemoryOutOfBounds) ==> Model() == old(Model())
      ensures outcome.Fail? && outcome != Fail(MemoryOutOfBounds) ==>
                Model() == Fetch(old(Model())).1
    {
      if programCounter as nat + 1 >= RAM_SIZE {
        return Fail(MemoryOutOfBounds);
      }
      var opcode := FetchOpcode();
      outcome := ExecuteOpcode(opcode);
    }

    /** `tick_timers`: count both timers down towards zero; `tone` stands for
        the console message printed when the sound timer expires. */
    method TickTimers() returns (tone: bool)
      requires Valid()
      modifies this
      ensures Valid()
      ensures (Model(), tone) == Chip8Spec.TickTimers(old(Model()))
    {
      tone := false;
      if delayTimer > 0 {
        delayTimer := delayTimer - 1;
      }
      if soundTimer > 0 {
        if soundTimer == 1 {
          tone := true;
        }
        soundTimer := soundTimer - 1;
      }
    }
  }
}
