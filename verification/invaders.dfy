/**
  The Space Invaders machine around the processor: the cabinet's I/O
  ports and shift register, the interrupt the video hardware raises, and
  one pass of the main loop (key events, interrupt check, one instruction
  with IN and OUT handled by the machine rather than the interpreter).
 */
module Invaders {
  import opened Words
  import opened Cpu
  import opened Emulator
  import opened PortLatches
  import Input

  /*---------------------------------------------------------------------
    Ports
   ---------------------------------------------------------------------*/

  /** What holds of the latches from power-on to power-off: the shift
      amount has three bits, latch 0 is the constant 0x0E, bit 3 of latch 1
      is set and bit 7 clear, bits 3 and 7 of latch 2 are clear, and output
      latch 2 is never written. */
  predicate WellFormed(p: Ports)
  {
    && p.shift_amount < 8
    && p.input0 == 0x0E
    && p.input1 & 0x88 == 0x08
    && p.input2 & 0x88 == 0
    && p.output2 == 0
  }

  /** Power-on latches: the fixed bits of latches 0 and 1 set, no control
      held, the shift register and every output latch zero. */
  function InitPorts(): (p: Ports)
    ensures WellFormed(p)
    ensures p.input1 & !0x08 == 0 && p.input2 == 0
    ensures p.shift_register == 0 && p.shift_amount == 0
    ensures p.output3 == 0 && p.output5 == 0 && p.output6 == 0
  {
    Ports(input0 := 0x0E, input1 := 0x08, input2 := 0,
          output2 := 0, output3 := 0, output5 := 0, output6 := 0,
          shift_register := 0, shift_amount := 0)
  }

  /** 2^k. */
  function Pow2(k: nat): (r: nat)
    ensures r >= 1
  {
    if k == 0 then 1 else 2 * Pow2(k - 1)
  }

  /** 2^a * 2^b == 2^(a+b). */
  lemma {:induction false} Pow2Add(a: nat, b: nat)
    ensures Pow2(a) * Pow2(b) == Pow2(a + b)
    decreases a
  {
    if a > 0 {
      Pow2Add(a - 1, b);
      assert Pow2(a) * Pow2(b) == 2 * (Pow2(a - 1) * Pow2(b));
    }
  }

  /** Shifting the 16-bit register right by 8 - n and keeping 8 bits is
      shifting its high byte left by n and filling the vacated low bits
      from the top n bits of its low byte. */
  lemma ShiftedWindow(w: u16, n: nat)
    requires n <= 8
    ensures (w / Pow2(8 - n)) % 0x100 == (High(w) * Pow2(n) + Low(w) / Pow2(8 - n)) % 0x100
  {
    Pow2Add(n, 8 - n);
    assert Pow2(8) == 0x100 by {
      assert Pow2(1) == 2 && Pow2(2) == 4 && Pow2(4) == 16;
    }
    assert w == High(w) * 0x100 + Low(w);
    DivideWord(High(w), Low(w), Pow2(n), Pow2(8 - n));
  }

  /** IN: latches 0 to 2 are copied into A; port 3 yields the 8-bit window
      of the shift register that ends `shift_amount` bits below its top;
      any other port leaves the processor alone. A shift amount above 8
      would make the C shift count negative. */
  function MachineIN(port: u8, ports: Ports, s: State8080): (t: State8080)
    requires port == 3 ==> ports.shift_amount <= 8
    ensures t == s.(a := t.a)
    ensures port == 0 ==> t.a == ports.input0 as int
    ensures port == 1 ==> t.a == ports.input1 as int
    ensures port == 2 ==> t.a == ports.input2 as int
    ensures port == 3 ==>
      var w, n := ports.shift_register, ports.shift_amount;
      t.a == (High(w) * Pow2(n) + Low(w) / Pow2(8 - n)) % 0x100
    ensures port > 3 ==> t == s
  {
    match port
    case 0 => s.(a := ports.input0 as u8)
    case 1 => s.(a := ports.input1 as u8)
    case 2 => s.(a := ports.input2 as u8)
    case 3 =>
      ShiftedWindow(ports.shift_register, ports.shift_amount);
      s.(a := (ports.shift_register / Pow2(8 - ports.shift_amount)) % 0x100)
    case _ => s
  }

  /** OUT: port 2 sets the shift amount to the low three bits of A (output
      latch 2 itself is never written), port 4 shifts A into the top of the
      shift register while its old top byte moves to the bottom, ports 3, 5
      and 6 latch A; no output changes the input latches, and any other
      port changes nothing. */
  function MachineOUT(port: u8, ports: Ports, s: State8080): (r: Ports)
    ensures r.input0 == ports.input0 && r.input1 == ports.input1 && r.input2 == ports.input2
    ensures r.output2 == ports.output2
    ensures port == 2 ==> r == ports.(shift_amount := r.shift_amount)
    ensures port == 2 ==> r.shift_amount < 8 && (s.a - r.shift_amount) % 8 == 0
    ensures port == 4 ==> r == ports.(shift_register := r.shift_register)
    ensures port == 4 ==> High(r.shift_register) == s.a
    ensures port == 4 ==> Low(r.shift_register) == High(ports.shift_register)
    ensures port == 3 ==> r == ports.(output3 := s.a as bv8)
    ensures port == 5 ==> r == ports.(output5 := s.a as bv8)
    ensures port == 6 ==> r == ports.(output6 := s.a as bv8)
    ensures port !in {2, 3, 4, 5, 6} ==> r == ports
  {
    match port
    case 2 => ports.(shift_amount := s.a % 8)                       // a & 0x7
    case 3 => ports.(output3 := s.a as bv8)
    case 4 =>
      // (a << 8) | (shift_register >> 8): the two halves do not overlap
      ports.(shift_register := s.a * 0x100 + ports.shift_register / 0x100)
    case 5 => ports.(output5 := s.a as bv8)
    case 6 => ports.(output6 := s.a as bv8)
    case _ => ports
  }

  /*---------------------------------------------------------------------
    Interrupts
   ---------------------------------------------------------------------*/

  /** The interrupt the video hardware raises: push PC (high byte at
      SP-1, low byte at SP-2), point PC at the vector `8 * n` and disable
      interrupts. The pushes index memory at SP-1 and SP-2, so SP must be at
      least 2; `8 * n` is computed as a C `int`, so it must not overflow. */
  function GenerateInterrupt(s: State8080, n: int): (t: State8080)
    requires s.sp >= 2
    requires -0x1000_0000 <= n < 0x1000_0000
    ensures t.sp == s.sp - 2
    ensures Pair(t.memory[t.sp + 1], t.memory[t.sp]) == s.pc
    ensures forall i | 0 <= i < 0x1_0000 && i != t.sp && i != t.sp + 1 :: t.memory[i] == s.memory[i]
    ensures (t.pc - 8 * n) % 0x1_0000 == 0
    ensures 0 <= n < 0x2000 ==> t.pc == 8 * n
    ensures t.int_enable == 0
    ensures t == s.(memory := t.memory, sp := t.sp, pc := t.pc, int_enable := 0)
  {
    var memory := s.memory[s.sp - 1 := High(s.pc)][s.sp - 2 := Low(s.pc)];
    PairOfHalves(s.pc);
    s.(memory := memory, sp := s.sp - 2, pc := Wrap16(8 * n), int_enable := 0)
  }

  /** The clock value the interrupt handler keeps between calls, and which
      of the two mid-frame interrupts comes next (0 or 1). */
  datatype InterruptClock = InterruptClock(lastInterrupt: u32, interrupt_num: u8)

  /** Milliseconds since the last interrupt, as the `Uint32` subtraction
      computes them: modulo 2^32, so a wrapped clock still counts forward. */
  function Elapsed(lastInterrupt: u32, currentTime: u32): (d: u32)
    ensures lastInterrupt <= currentTime ==> d == currentTime - lastInterrupt
    ensures currentTime < lastInterrupt ==> d == currentTime + 0x1_0000_0000 - lastInterrupt
  {
    (currentTime - lastInterrupt) % 0x1_0000_0000
  }

  /** `n ^= 1` on a byte. */
  function Toggle(n: u8): (r: u8)
    ensures (r + n) % 2 == 1 && r / 2 == n / 2
  {
    if n % 2 == 0 then n + 1 else n - 1
  }

  /** Whether the handler raises an interrupt: interrupts are enabled and
      more than 16 ms have passed since the last one. */
  predicate Fires(s: State8080, clock: InterruptClock, currentTime: u32)
  {
    s.int_enable != 0 && Elapsed(clock.lastInterrupt, currentTime) > 16
  }

  /** The per-iteration interrupt check. `ticks` is the reading of the
      64-bit millisecond clock, kept in a `Uint32`. When it fires, the
      interrupt raised is number `interrupt_num + 1` (RST 1 at mid-screen,
      RST 2 at the end of the screen), the clock restarts from now and the
      next interrupt number alternates. */
  function HandleInterrupt(s: State8080, clock: InterruptClock, ticks: nat): (r: (State8080, InterruptClock))
    requires Fires(s, clock, ticks % 0x1_0000_0000) ==> s.sp >= 2
    ensures !Fires(s, clock, ticks % 0x1_0000_0000) ==> r == (s, clock)
    ensures s.int_enable == 0 ==> r == (s, clock)
    ensures Fires(s, clock, ticks % 0x1_0000_0000) ==>
      && r.0 == GenerateInterrupt(s, clock.interrupt_num + 1)
      && r.0.pc == 8 * (clock.interrupt_num + 1)
      && r.0.int_enable == 0
      && r.1.lastInterrupt == ticks % 0x1_0000_0000
      && r.1.interrupt_num == Toggle(clock.interrupt_num)
  {
    if s.int_enable == 0 then (s, clock)
    else
      var currentTime: u32 := ticks % 0x1_0000_0000;
      if Elapsed(clock.lastInterrupt, currentTime) > 16 then
        (GenerateInterrupt(s, clock.interrupt_num + 1),
         InterruptClock(currentTime, Toggle(clock.interrupt_num)))
      else (s, clock)
  }

  /*---------------------------------------------------------------------
    Main loop
   ---------------------------------------------------------------------*/

  /** When one step is defined: IN and OUT read their port byte after the
      opcode, IN 3 needs a shift amount of at most 8, and every other
      opcode needs what the interpreter needs. */
  predicate StepDefined(s: State8080, ports: Ports)
  {
    var opcode := s.memory[s.pc];
    if opcode == 0xdb || opcode == 0xd3 then
      && s.pc + 1 < 0x1_0000
      && (opcode == 0xdb && s.memory[s.pc + 1] == 3 ==> ports.shift_amount <= 8)
    else
      OperandsInMemory(s)
  }

  /** One instruction of the main loop: IN (0xdb) and OUT (0xd3) go to the
      machine's port handlers and advance PC by two; every other opcode goes
      to the interpreter, which may refuse it. */
  function MachineStep(s: State8080, ports: Ports): (r: Outcome<(State8080, Ports)>)
    requires StepDefined(s, ports)
    ensures s.memory[s.pc] in {0xdb, 0xd3} ==> r.Ok?
    ensures r.UnimplementedInstruction? <==> s.memory[s.pc] in {0x02, 0xfe, 0xff}
    ensures s.memory[s.pc] == 0xdb ==>
      r == Ok((MachineIN(s.memory[s.pc + 1], ports, s).(pc := Wrap16(s.pc + 2)), ports))
    ensures s.memory[s.pc] == 0xd3 ==>
      r == Ok((s.(pc := Wrap16(s.pc + 2)), MachineOUT(s.memory[s.pc + 1], ports, s)))
    ensures s.memory[s.pc] !in {0xdb, 0xd3} && r.Ok? ==>
      r.value.1 == ports && Emulate8080Op(s) == Ok(r.value.0)
    ensures r.Ok? ==> r.value.0.int_enable == s.int_enable
  {
    var opcode := s.memory[s.pc];
    if opcode == 0xdb then
      var port := s.memory[s.pc + 1];
      Ok((MachineIN(port, ports, s).(pc := Wrap16(s.pc + 2)), ports))
    else if opcode == 0xd3 then
      var port := s.memory[s.pc + 1];
      Ok((s.(pc := Wrap16(s.pc + 2)), MachineOUT(port, ports, s)))
    else
      match Emulate8080Op(s)
      case Ok(t) => Ok((t, ports))
      case UnimplementedInstruction(op) => UnimplementedInstruction(op)
  }

  /** The SDL events the loop reacts to. */
  datatype Event = QuitEvent | KeyDownEvent(key: Input.Key) | KeyUpEvent(key: Input.Key) | OtherEvent

  /** The latches after one event: key events go to the key handlers,
      every other event leaves them alone. */
  function HandleEvent(e: Event, ports: Ports): Ports
  {
    match e
    case KeyDownEvent(key) => Input.KeyDown(key, ports)
    case KeyUpEvent(key) => Input.KeyUp(key, ports)
    case _ => ports
  }

  /** A key event keeps the latches well formed: the key masks avoid the
      fixed bits 3 and 7. */
  lemma HandleEventPreservesWellFormed(e: Event, ports: Ports)
    ensures WellFormed(ports) ==> WellFormed(HandleEvent(e, ports))
  {
    if e.KeyDownEvent? || e.KeyUpEvent? {
      Input.FixedBitsPreserved(e.key, ports);
    }
  }

  /** Drains the event queue in order: key events go to the key handlers
      and a quit event clears the running flag; the events after a quit
      are still drained. */
  function PollEvents(events: seq<Event>, ports: Ports, running: bool): (r: (Ports, bool))
    ensures r.1 <==> running && QuitEvent !in events
    decreases |events|
  {
    if |events| == 0 then (ports, running)
    else
      var r := PollEvents(events[1..], HandleEvent(events[0], ports), running && !events[0].QuitEvent?);
      assert QuitEvent in events <==> events[0] == QuitEvent || QuitEvent in events[1..];
      r
  }

  /** Draining the queue changes only the two input latches, and keeps
      them well formed. */
  lemma {:induction false} PollEventsFrame(events: seq<Event>, ports: Ports, running: bool)
    ensures var r := PollEvents(events, ports, running).0;
      && r == ports.(input1 := r.input1, input2 := r.input2)
      && (WellFormed(ports) ==> WellFormed(r))
    decreases |events|
  {
    if |events| > 0 {
      var p := HandleEvent(events[0], ports);
      HandleEventPreservesWellFormed(events[0], ports);
      PollEventsFrame(events[1..], p, running && !events[0].QuitEvent?);
    }
  }

  /** A queue without key events leaves the latches as they were. */
  lemma {:induction false} PollEventsWithoutKeys(events: seq<Event>, ports: Ports, running: bool)
    requires forall e | e in events :: !e.KeyDownEvent? && !e.KeyUpEvent?
    ensures PollEvents(events, ports, running).0 == ports
    decreases |events|
  {
    if |events| > 0 {
      assert events[0] in events;
      assert forall e | e in events[1..] :: e in events;
      PollEventsWithoutKeys(events[1..], ports, running && !events[0].QuitEvent?);
    }
  }

  /** Everything the main loop keeps between iterations. */
  datatype Machine = Machine(cpu: State8080, ports: Ports, clock: InterruptClock, running: bool)

  /** The machine just before the loop: a zeroed processor (interrupts
      disabled, PC and SP zero) over the loaded memory, power-on latches,
      the clock read once and interrupt number 0. */
  function PowerOn(memory: Memory, ticks: nat): (m: Machine)
    ensures m.running
    ensures m.cpu == State8080(0, 0, 0, 0, 0, 0, 0, 0, 0, memory, ConditionCodes(false, false, false, false, false, 0), 0)
    ensures m.cpu.int_enable == 0 && m.cpu.pc == 0 && m.cpu.sp == 0
    ensures m.ports == InitPorts() && WellFormed(m.ports)
    ensures m.clock.interrupt_num == 0 && m.clock.lastInterrupt == ticks % 0x1_0000_0000
  {
    var cc := ConditionCodes(false, false, false, false, false, 0);
    var cpu := State8080(0, 0, 0, 0, 0, 0, 0, 0, 0, memory, cc, 0);
    Machine(cpu, InitPorts(), InterruptClock(ticks % 0x1_0000_0000, 0), true)
  }

  /** When one pass of the loop body is defined: the interrupt, if it
      fires, has room to push, and the instruction after it is defined. */
  predicate IterationDefined(m: Machine, events: seq<Event>, ticks: nat)
  {
    var polled := PollEvents(events, m.ports, m.running);
    && (Fires(m.cpu, m.clock, ticks % 0x1_0000_0000) ==> m.cpu.sp >= 2)
    && StepDefined(HandleInterrupt(m.cpu, m.clock, ticks).0, polled.0)
  }

  /** One pass of the loop body: drain the events, check for an interrupt
      at clock reading `ticks`, then run one instruction. */
  function LoopIteration(m: Machine, events: seq<Event>, ticks: nat): (r: Outcome<Machine>)
    requires IterationDefined(m, events, ticks)
    ensures r.Ok? ==> (r.value.running <==> m.running && QuitEvent !in events)
    ensures r.Ok? && WellFormed(m.ports) ==> WellFormed(r.value.ports)
    ensures m.cpu.int_enable == 0 && r.Ok? ==>
      r.value.cpu.int_enable == 0 && r.value.clock == m.clock
  {
    var polled := PollEvents(events, m.ports, m.running);
    var interrupted := HandleInterrupt(m.cpu, m.clock, ticks);
    match MachineStep(interrupted.0, polled.0)
    case Ok(next) =>
      PollEventsFrame(events, m.ports, m.running);
      StepPreservesWellFormed(interrupted.0, polled.0);
      Ok(Machine(next.0, next.1, interrupted.1, polled.1))
    case UnimplementedInstruction(op) => UnimplementedInstruction(op)
  }

  /** One instruction keeps the latches well formed: only OUT writes
      them, and it keeps the shift amount to three bits and never touches
      the input latches or output latch 2. */
  lemma StepPreservesWellFormed(s: State8080, ports: Ports)
    requires StepDefined(s, ports)
    ensures WellFormed(ports) && MachineStep(s, ports).Ok? ==>
      WellFormed(MachineStep(s, ports).value.1)
  {
  }

  /** Whether a run of the loop over the given (events, clock reading)
      inputs is defined from `m` on. The loop stops when the running flag
      is clear or the interpreter refuses an opcode. */
  predicate RunDefined(m: Machine, inputs: seq<(seq<Event>, nat)>)
    decreases |inputs|
  {
    if |inputs| == 0 || !m.running then true
    else
      && IterationDefined(m, inputs[0].0, inputs[0].1)
      && match LoopIteration(m, inputs[0].0, inputs[0].1)
         case Ok(next) => RunDefined(next, inputs[1..])
         case UnimplementedInstruction(_) => true
  }

  /** The main loop, one input per pass, until the inputs run out, the
      running flag is clear, or the interpreter refuses an opcode. */
  function Run(m: Machine, inputs: seq<(seq<Event>, nat)>): (r: Outcome<Machine>)
    requires RunDefined(m, inputs)
    ensures r.Ok? && WellFormed(m.ports) ==> WellFormed(r.value.ports)
    ensures r.Ok? && m.cpu.int_enable == 0 ==>
      r.value.cpu.int_enable == 0 && r.value.clock == m.clock
    decreases |inputs|
  {
    if |inputs| == 0 || !m.running then Ok(m)
    else
      match LoopIteration(m, inputs[0].0, inputs[0].1)
      case Ok(next) => Run(next, inputs[1..])
      case UnimplementedInstruction(op) => UnimplementedInstruction(op)
  }
}
