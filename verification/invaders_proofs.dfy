/**
  Properties of the machine around the processor: what the shift register
  hands back through IN 3 after the game's OUT sequence, how the key
  handlers show through IN 1 and IN 2, where an interrupt sends the
  processor and how its return address comes back, and that the latches
  stay well formed along every run.
 */
module InvadersProofs {
  import opened Words
  import opened Cpu
  import opened Emulator
  import opened PortLatches
  import opened Invaders
  import Input

  /*---------------------------------------------------------------------
    Shift register
   ---------------------------------------------------------------------*/

  /** Two OUT 4 writes, first `x` then `y`, leave `y` in the high byte and
      `x` in the low byte, whatever the register held before. */
  lemma ShiftRegisterLoad(ports: Ports, s: State8080, x: u8, y: u8)
    ensures MachineOUT(4, MachineOUT(4, ports, s.(a := x)), s.(a := y)).shift_register
      == y * 0x100 + x
  {
    var p1 := MachineOUT(4, ports, s.(a := x));
    var p2 := MachineOUT(4, p1, s.(a := y));
    assert High(p1.shift_register) == x;
    PairOfHalves(p2.shift_register);
  }

  /** The game's use of the shift hardware: OUT 4 `x`, OUT 4 `y`, OUT 2
      `n`, IN 3 reads `y` shifted left by the low three bits of `n`, its
      vacated low bits filled from the top of `x`. Other ports' latches
      and the processor apart from A are left as they were. */
  lemma ShiftRegisterRead(ports: Ports, s: State8080, x: u8, y: u8, n: u8)
    ensures var p := MachineOUT(2, MachineOUT(4, MachineOUT(4, ports, s.(a := x)), s.(a := y)), s.(a := n));
      && p.shift_amount == n % 8
      && MachineIN(3, p, s).a == (y * Pow2(n % 8) + x / Pow2(8 - n % 8)) % 0x100
      && MachineIN(3, p, s) == s.(a := MachineIN(3, p, s).a)
  {
    var p2 := MachineOUT(4, MachineOUT(4, ports, s.(a := x)), s.(a := y));
    ShiftRegisterLoad(ports, s, x, y);
    assert High(p2.shift_register) == y && Low(p2.shift_register) == x;
  }

  /** With a shift amount of 0, IN 3 reads back the last byte written to
      port 4; with 8 bits of shift it would read the one before. */
  lemma ShiftRegisterReadUnshifted(ports: Ports, s: State8080, x: u8, y: u8)
    ensures var p := MachineOUT(2, MachineOUT(4, MachineOUT(4, ports, s.(a := x)), s.(a := y)), s.(a := 0));
      MachineIN(3, p, s).a == y
  {
    ShiftRegisterRead(ports, s, x, y, 0);
    assert Pow2(8) == 0x100 by {
      assert Pow2(1) == 2 && Pow2(2) == 4 && Pow2(3) == 8 && Pow2(4) == 16;
    }
  }

  /*---------------------------------------------------------------------
    Input latches through IN
   ---------------------------------------------------------------------*/

  /** The IN port that reads a latch. */
  function LatchPort(latch: Input.Latch): u8
  {
    match latch
    case Input1 => 1
    case Input2 => 2
  }

  /** IN on a latch's port puts the latch's byte into A. */
  lemma InReadsLatch(latch: Input.Latch, ports: Ports, s: State8080)
    ensures MachineIN(LatchPort(latch), ports, s).a == Input.Latched(ports, latch) as int
  {
  }

  /** A held key is visible to the game: after its press, IN on its latch's
      port reads the latch with the key's bit ORed in, and after its
      release the latch with that bit masked out. */
  lemma KeyVisibleThroughIn(key: Input.Key, ports: Ports, s: State8080)
    requires Input.ControlOf(key).Bound?
    ensures var c := Input.ControlOf(key);
      var port, x := LatchPort(c.latch), Input.Latched(ports, c.latch);
      && MachineIN(port, Input.KeyDown(key, ports), s).a == (x | c.mask) as int
      && MachineIN(port, Input.KeyUp(key, ports), s).a == (x & !c.mask) as int
  {
    var c := Input.ControlOf(key);
    InReadsLatch(c.latch, Input.KeyDown(key, ports), s);
    InReadsLatch(c.latch, Input.KeyUp(key, ports), s);
  }

  /*---------------------------------------------------------------------
    Interrupts
   ---------------------------------------------------------------------*/

  /** The 8080's RET: pop the return address the interrupt pushed (low
      byte at SP, high byte at SP+1) into PC. The interpreter has no case
      for it; it serves here as the reference the push is checked
      against. */
  function PopReturn(t: State8080): (r: State8080)
    requires t.sp + 1 < 0x1_0000
    ensures r.sp == Wrap16(t.sp + 2)
    ensures r == t.(pc := r.pc, sp := r.sp)
  {
    t.(pc := Pair(t.memory[t.sp + 1], t.memory[t.sp]), sp := Wrap16(t.sp + 2))
  }

  /** Returning from an interrupt restores PC and SP; only the two stack
      bytes and the interrupt-enable byte remain changed. */
  lemma InterruptThenReturn(s: State8080, n: int)
    requires s.sp >= 2
    requires -0x1000_0000 <= n < 0x1000_0000
    ensures var r := PopReturn(GenerateInterrupt(s, n));
      && r.pc == s.pc && r.sp == s.sp && r.int_enable == 0
      && r == s.(memory := r.memory, int_enable := 0)
      && forall i | 0 <= i < 0x1_0000 && i != s.sp - 1 && i != s.sp - 2 :: r.memory[i] == s.memory[i]
  {
  }

  /** The interrupt number toggles between 0 and 1 and returns after two
      toggles. */
  lemma ToggleAlternates(n: u8)
    ensures Toggle(Toggle(n)) == n
    ensures Toggle(0) == 1 && Toggle(1) == 0
  {
  }

  /** A firing interrupt with number 0 jumps to RST 1 (0x0008) and makes
      the next one number 1, which jumps to RST 2 (0x0010) and makes the
      next one number 0 again. */
  lemma InterruptVectors(s: State8080, clock: InterruptClock, ticks: nat)
    requires Fires(s, clock, ticks % 0x1_0000_0000) && s.sp >= 2
    requires clock.interrupt_num <= 1
    ensures var r := HandleInterrupt(s, clock, ticks);
      && (clock.interrupt_num == 0 ==> r.0.pc == 0x08 && r.1.interrupt_num == 1)
      && (clock.interrupt_num == 1 ==> r.0.pc == 0x10 && r.1.interrupt_num == 0)
  {
  }

  /** The interrupt check never fires within 16 ms of the previous one,
      also across a wrap of the 32-bit clock. */
  lemma NoInterruptWithin16ms(s: State8080, clock: InterruptClock, ticks: nat)
    requires Elapsed(clock.lastInterrupt, ticks % 0x1_0000_0000) <= 16
    ensures HandleInterrupt(s, clock, ticks) == (s, clock)
  {
  }

  /*---------------------------------------------------------------------
    Runs of the main loop
   ---------------------------------------------------------------------*/

  /** No implemented opcode enables interrupts and the processor starts
      with them disabled, so along any run from power-on the interrupt
      never fires: the clock keeps its first reading and interrupt number
      0. The latches stay well formed along the run. */
  lemma RunFromPowerOn(memory: Memory, ticks: nat, inputs: seq<(seq<Event>, nat)>)
    requires RunDefined(PowerOn(memory, ticks), inputs)
    ensures var r := Run(PowerOn(memory, ticks), inputs);
      r.Ok? ==>
        && r.value.cpu.int_enable == 0
        && r.value.clock == InterruptClock(ticks % 0x1_0000_0000, 0)
        && WellFormed(r.value.ports)
  {
  }

  /** The well-formed latches make IN 3 defined: after power-on the shift
      amount is always at most 7. */
  lemma WellFormedEnablesIn(s: State8080, ports: Ports)
    requires WellFormed(ports)
    requires s.memory[s.pc] == 0xdb && s.pc + 1 < 0x1_0000
    ensures StepDefined(s, ports)
  {
  }

  /** The run is the loop body applied once per input: one pass more is
      one iteration after the run, as long as the machine keeps running. */
  lemma {:induction false} RunExtends(m: Machine, inputs: seq<(seq<Event>, nat)>, last: (seq<Event>, nat))
    requires RunDefined(m, inputs + [last])
    ensures RunDefined(m, inputs)
    ensures var r := Run(m, inputs);
      r.Ok? && r.value.running ==>
        IterationDefined(r.value, last.0, last.1)
        && Run(m, inputs + [last]) == LoopIteration(r.value, last.0, last.1)
    decreases |inputs|
  {
    if |inputs| == 0 || !m.running {
      if |inputs| == 0 {
        assert inputs + [last] == [last];
        assert ([last])[1..] == [];
      }
    } else {
      assert (inputs + [last])[0] == inputs[0];
      assert (inputs + [last])[1..] == inputs[1..] + [last];
      match LoopIteration(m, inputs[0].0, inputs[0].1)
      case Ok(next) => RunExtends(next, inputs[1..], last);
      case UnimplementedInstruction(_) =>
    }
  }
}
