/**
  Properties of one interpreter step. Opcodes are named by the bit fields
  of the 8080 encoding (register field, pair field, operation field), an
  independent description of the same table the interpreter's switch
  spells out case by case; the lemmas below connect the two and state
  what a step does to registers, pairs, flags and PC.
 */
module EmulatorProofs {
  import opened Words
  import opened Cpu
  import opened Emulator

  /*---------------------------------------------------------------------
    The 8080 encoding
   ---------------------------------------------------------------------*/

  /** The three-bit register field: B C D E H L M A = 0..7. */
  function RegCode(r: Reg): (n: nat)
    ensures n < 8 && n != 6
  {
    match r
    case B => 0
    case C => 1
    case D => 2
    case E => 3
    case H => 4
    case L => 5
    case A => 7
  }

  /** The two-bit register-pair field: BC DE HL SP = 0..3. */
  function PairCode(rp: RegPair): (n: nat)
    ensures n < 4
  {
    match rp
    case BC => 0
    case DE => 1
    case HL => 2
    case SP => 3
  }

  /** The source field of an accumulator instruction; M is 6. */
  function OperandCode(src: Operand): (n: nat)
    ensures n < 8
  {
    match src
    case R(r) => RegCode(r)
    case M => 6
  }

  /** The operation field of the 0x80-0x9f block. */
  function AluCode(op: AluOp): (n: nat)
    ensures n < 4
  {
    match op
    case Add => 0
    case Adc => 1
    case Sub => 2
    case Sbb => 3
  }

  function OpInr(r: Reg): u8 { 0x04 + 8 * RegCode(r) }
  function OpDcr(r: Reg): u8 { 0x05 + 8 * RegCode(r) }
  function OpInx(rp: RegPair): u8 { 0x03 + 16 * PairCode(rp) }
  function OpDcx(rp: RegPair): u8 { 0x0b + 16 * PairCode(rp) }
  function OpDad(rp: RegPair): u8 { 0x09 + 16 * PairCode(rp) }
  function OpAlu(op: AluOp, src: Operand): u8 { 0x80 + 8 * AluCode(op) + OperandCode(src) }

  /** The interpreter's table agrees with the 8080 encoding for every
      INR and DCR opcode. */
  lemma DecodeIncrementDecrement(r: Reg)
    ensures Decode(OpInr(r)) == Inr(r)
    ensures Decode(OpDcr(r)) == Dcr(r)
  {
    match r {
      case B => case C => case D => case E => case H => case L => case A =>
    }
  }

  /** ... and for every INX, DCX and DAD opcode. */
  lemma DecodePairOperations(rp: RegPair)
    ensures Decode(OpInx(rp)) == Inx(rp)
    ensures Decode(OpDcx(rp)) == Dcx(rp)
    ensures Decode(OpDad(rp)) == Dad(rp)
  {
    match rp {
      case BC => case DE => case HL => case SP =>
    }
  }

  /** ... and for the whole 0x80-0x9f block of ADD, ADC, SUB and SBB. */
  lemma DecodeAccumulator(op: AluOp, src: Operand)
    ensures Decode(OpAlu(op, src)) == Alu(op, src)
  {
    match src {
      case M =>
        match op {
          case Add => case Adc => case Sub => case Sbb =>
        }
      case R(x) =>
        match op {
          case Add => match x { case B => case C => case D => case E => case H => case L => case A => }
          case Adc => match x { case B => case C => case D => case E => case H => case L => case A => }
          case Sub => match x { case B => case C => case D => case E => case H => case L => case A => }
          case Sbb => match x { case B => case C => case D => case E => case H => case L => case A => }
        }
    }
  }

  /** A step whose opcode decodes to `i` runs the case body of `i` and
      then advances PC by one. */
  lemma StepRuns(s: State8080, i: Instr)
    requires Decode(s.memory[s.pc]) == i && !i.Unimplemented?
    requires s.pc + OperandBytes(i) < 0x1_0000
    ensures OperandsInMemory(s)
    ensures Emulate8080Op(s) == Ok(Execute(i, s).(pc := Wrap16(Execute(i, s).pc + 1)))
  {
  }

  /** Bits 8-15 and bits 0-7 of a 17-bit sum make up the sum modulo 2^16. */
  lemma SplitSeventeenBits(n: int)
    requires 0 <= n < 0x2_0000
    ensures ((n / 0x100) % 0x100) * 0x100 + n % 0x100 == n % 0x1_0000
  {
    if n >= 0x1_0000 {
      var m := n - 0x1_0000;
      assert n / 0x100 == m / 0x100 + 0x100;
      assert n % 0x100 == m % 0x100;
    }
  }

  /** Decrementing a byte pair undoes incrementing it. */
  lemma IncrementThenDecrementBytes(hi: u8, lo: u8)
    ensures var w := IncBytes(hi, lo); DecBytes(w.0, w.1) == (hi, lo)
  {
    var w := IncBytes(hi, lo);
    if lo == 0xff {
      assert w == (Wrap8(hi + 1), 0);
      assert Wrap8(Wrap8(hi + 1) - 1) == hi;
    } else {
      assert w == (hi, lo + 1);
    }
  }

  /** The DAD case body: the 17-bit sum split into H, L and carry. */
  lemma ExecuteAddPair(s: State8080, rp: RegPair)
    ensures var t := Execute(Dad(rp), s);
      && GetPair(t, HL) == (GetPair(s, HL) + GetPair(s, rp)) % 0x1_0000
      && (t.cc.cy <==> GetPair(s, HL) + GetPair(s, rp) > 0xffff)
      && t.cc == s.cc.(cy := t.cc.cy)
      && UnchangedExcept(s, t, {H, L}) && t.pc == s.pc
  {
    var hl := GetPair(s, HL) + GetPair(s, rp);
    var t := Execute(Dad(rp), s);
    var hi, lo := (hl / 0x100) % 0x100, hl % 0x100;
    assert t == s.(h := hi, l := lo, cc := s.cc.(cy := hl > 0xffff));
    SplitSeventeenBits(hl);
    assert GetPair(t, HL) == hi * 0x100 + lo;
    assert forall q :: q !in {H, L} ==> Get(t, q) == Get(s, q);
  }

  /*---------------------------------------------------------------------
    One step, instruction by instruction
   ---------------------------------------------------------------------*/

  /** INR r on B, C, D, E, H, L or A: the register wraps up by one, zero
      and sign follow its new value, parity stays clear and carry is kept. */
  lemma StepIncrement(s: State8080, r: Reg)
    requires s.memory[s.pc] == OpInr(r)
    ensures OperandsInMemory(s) && Emulate8080Op(s).Ok?
    ensures var t := Emulate8080Op(s).value;
      && Get(t, r) == (Get(s, r) + 1) % 0x100
      && (t.cc.z <==> Get(t, r) == 0)
      && (t.cc.s <==> Get(t, r) >= 0x80)
      && !t.cc.p
      && t.cc.cy == s.cc.cy
      && UnchangedExcept(s, t, {r})
      && t.pc == Wrap16(s.pc + 1)
  {
    DecodeIncrementDecrement(r);
  }

  /** DCR r: the register wraps down by one, with the same flag rules. */
  lemma StepDecrement(s: State8080, r: Reg)
    requires s.memory[s.pc] == OpDcr(r)
    ensures OperandsInMemory(s) && Emulate8080Op(s).Ok?
    ensures var t := Emulate8080Op(s).value;
      && Get(t, r) == (Get(s, r) - 1) % 0x100
      && (t.cc.z <==> Get(t, r) == 0)
      && (t.cc.s <==> Get(t, r) >= 0x80)
      && !t.cc.p
      && t.cc.cy == s.cc.cy
      && UnchangedExcept(s, t, {r})
      && t.pc == Wrap16(s.pc + 1)
  {
    DecodeIncrementDecrement(r);
  }

  /** INX on BC, DE, HL or SP: the pair goes up by one modulo 2^16 and no
      flag changes. */
  lemma StepIncrementPair(s: State8080, rp: RegPair)
    requires s.memory[s.pc] == OpInx(rp)
    ensures OperandsInMemory(s) && Emulate8080Op(s).Ok?
    ensures var t := Emulate8080Op(s).value;
      && GetPair(t, rp) == (GetPair(s, rp) + 1) % 0x1_0000
      && t.cc == s.cc
      && (forall q :: q !in Halves(rp) ==> Get(t, q) == Get(s, q))
      && (rp != SP ==> t.sp == s.sp)
      && t.memory == s.memory && t.int_enable == s.int_enable
      && t.pc == Wrap16(s.pc + 1)
  {
    DecodePairOperations(rp);
    StepRuns(s, Inx(rp));
  }

  /** DCX on BC, DE or HL: the pair goes down by one modulo 2^16 and no
      flag changes. */
  lemma StepDecrementPair(s: State8080, rp: RegPair)
    requires rp != SP
    requires s.memory[s.pc] == OpDcx(rp)
    ensures OperandsInMemory(s) && Emulate8080Op(s).Ok?
    ensures var t := Emulate8080Op(s).value;
      && GetPair(t, rp) == (GetPair(s, rp) - 1) % 0x1_0000
      && t.cc == s.cc
      && UnchangedExcept(s, t, Halves(rp))
      && t.pc == Wrap16(s.pc + 1)
  {
    DecodePairOperations(rp);
    StepRuns(s, Dcx(rp));
  }

  /** DCX SP has no `break`: SP goes down by one and then the INR A case
      runs as well, incrementing A and recomputing zero, sign and parity. */
  lemma StepDecrementSp(s: State8080)
    requires s.memory[s.pc] == 0x3b
    ensures OperandsInMemory(s) && Emulate8080Op(s).Ok?
    ensures var t := Emulate8080Op(s).value;
      && t.sp == (s.sp - 1) % 0x1_0000
      && t.a == (s.a + 1) % 0x100
      && (t.cc.z <==> t.a == 0)
      && (t.cc.s <==> t.a >= 0x80)
      && !t.cc.p
      && t.cc.cy == s.cc.cy
      && (forall q :: q != A ==> Get(t, q) == Get(s, q))
      && t.memory == s.memory
      && t.pc == Wrap16(s.pc + 1)
  {
  }

  /** DAD on BC, DE, HL or SP: HL becomes HL + rp modulo 2^16, carry is set
      exactly when the sum needs 17 bits, and zero, sign and parity keep
      their values. */
  lemma StepAddPair(s: State8080, rp: RegPair)
    requires s.memory[s.pc] == OpDad(rp)
    ensures OperandsInMemory(s) && Emulate8080Op(s).Ok?
    ensures var t := Emulate8080Op(s).value;
      && GetPair(t, HL) == (GetPair(s, HL) + GetPair(s, rp)) % 0x1_0000
      && (t.cc.cy <==> GetPair(s, HL) + GetPair(s, rp) > 0xffff)
      && t.cc == s.cc.(cy := t.cc.cy)
      && UnchangedExcept(s, t, {H, L})
      && t.pc == Wrap16(s.pc + 1)
  {
    DecodePairOperations(rp);
    StepRuns(s, Dad(rp));
    ExecuteAddPair(s, rp);
  }

  /** DAD H doubles HL modulo 2^16. */
  lemma StepDoubleHl(s: State8080)
    requires s.memory[s.pc] == 0x29
    ensures OperandsInMemory(s) && Emulate8080Op(s).Ok?
    ensures GetPair(Emulate8080Op(s).value, HL) == (2 * GetPair(s, HL) as int) % 0x1_0000
  {
    assert OpDad(HL) == 0x29;
    StepAddPair(s, HL);
    var hl: int := GetPair(s, HL);
    assert hl + hl == 2 * hl;
  }

  /** ADD, ADC, SUB and SBB with a register or M (the byte HL addresses):
      A receives the sum or difference modulo 256, ADC and SBB take the
      carry in, and carry out is set exactly on overflow past 255 for the
      additions and exactly on a borrow for the subtractions. */
  lemma StepAccumulate(s: State8080, op: AluOp, src: Operand)
    requires s.memory[s.pc] == OpAlu(op, src)
    ensures OperandsInMemory(s) && Emulate8080Op(s).Ok?
    ensures var t := Emulate8080Op(s).value;
      var v := if src.M? then s.memory[Pair(s.h, s.l)] else Get(s, src.r);
      var cin := if op == Adc || op == Sbb then CarryIn(s.cc) else 0;
      && (op == Add || op == Adc ==>
            t.a == (s.a + v + cin) % 0x100 && (t.cc.cy <==> s.a + v + cin > 0xff))
      && (op == Sub || op == Sbb ==>
            t.a == (s.a - v - cin) % 0x100 && (t.cc.cy <==> s.a < v + cin))
      && (t.cc.z <==> t.a == 0)
      && (t.cc.s <==> t.a >= 0x80)
      && !t.cc.p
      && UnchangedExcept(s, t, {A})
      && t.pc == Wrap16(s.pc + 1)
  {
    DecodeAccumulator(op, src);
  }

  /** SUB A clears A, sets zero and clears carry, whatever A held. */
  lemma StepSubtractSelf(s: State8080)
    requires s.memory[s.pc] == 0x97
    ensures OperandsInMemory(s) && Emulate8080Op(s).Ok?
    ensures var t := Emulate8080Op(s).value;
      t.a == 0 && t.cc.z && !t.cc.cy && !t.cc.s
  {
    assert OpAlu(Sub, R(A)) == 0x97;
    DecodeAccumulator(Sub, R(A));
    StepRuns(s, Alu(Sub, R(A)));
    assert Execute(Alu(Sub, R(A)), s) == Accumulate(s, Sub, s.a);
  }

  /** ACI (at 0xc3), ADI and SUI combine A with the byte after the opcode,
      yet PC moves past the opcode only, so the next step fetches that
      immediate byte as an opcode. */
  lemma StepImmediate(s: State8080, op: AluOp)
    requires op != Sbb
    requires s.memory[s.pc] == (match op case Adc => 0xc3 case Add => 0xc6 case _ => 0xd6)
    requires s.pc + 1 < 0x1_0000
    ensures OperandsInMemory(s) && Emulate8080Op(s).Ok?
    ensures var t := Emulate8080Op(s).value;
      var v := s.memory[s.pc + 1];
      var cin := if op == Adc then CarryIn(s.cc) else 0;
      && (op != Sub ==> t.a == (s.a + v + cin) % 0x100 && (t.cc.cy <==> s.a + v + cin > 0xff))
      && (op == Sub ==> t.a == (s.a - v) % 0x100 && (t.cc.cy <==> s.a < v))
      && (t.cc.z <==> t.a == 0)
      && !t.cc.p
      && UnchangedExcept(s, t, {A})
      && t.pc == s.pc + 1
  {
    var i := AluImmediate(op);
    assert Decode(s.memory[s.pc]) == i by {
      match op {
        case Adc => case Add => case Sub =>
      }
    }
    StepRuns(s, i);
  }

  /** LXI B loads C from the byte after the opcode and B from the one after
      that, and PC moves past all three bytes. */
  lemma StepLoadBc(s: State8080)
    requires s.memory[s.pc] == 0x01
    requires s.pc + 2 < 0x1_0000
    ensures OperandsInMemory(s) && Emulate8080Op(s).Ok?
    ensures var t := Emulate8080Op(s).value;
      && GetPair(t, BC) == Pair(s.memory[s.pc + 2], s.memory[s.pc + 1])
      && t.cc == s.cc
      && UnchangedExcept(s, t, {B, C})
      && t.pc == (s.pc + 3) % 0x1_0000
  {
  }

  /** An opcode without a case, and NOP, only advance PC. */
  lemma StepWithoutCase(s: State8080)
    requires Decode(s.memory[s.pc]) in {NoCase, Nop}
    ensures OperandsInMemory(s)
    ensures Emulate8080Op(s) == Ok(s.(pc := Wrap16(s.pc + 1)))
  {
  }

  /** Whole classes of 8080 instructions have no case, and the
      interpreter steps over each of them as if it were a one-byte NOP:
      the MOV block with HLT (0x40-0x7f), the logical operations ANA, XRA,
      ORA and CMP (0xa0-0xbf), the conditional returns, jumps and calls
      (0xc0, 0xc2 and 0xc4 plus 8k), MVI (0x06 plus 8k), INR M and DCR M,
      CALL, RET, IN and OUT. */
  lemma UnhandledOpcodes()
    ensures forall op: u8 | 0x40 <= op < 0xc0 && !(0x80 <= op < 0xa0) :: Decode(op) == NoCase
    ensures forall k: u8 | k < 8 ::
      && Decode(0xc0 + 8 * k) == NoCase   // Rcc
      && Decode(0xc2 + 8 * k) == NoCase   // Jcc
      && Decode(0xc4 + 8 * k) == NoCase   // Ccc
      && Decode(0x06 + 8 * k) == NoCase   // MVI
    ensures Decode(0x34) == NoCase && Decode(0x35) == NoCase   // INR M, DCR M
    ensures Decode(0xcd) == NoCase && Decode(0xc9) == NoCase   // CALL, RET
    ensures Decode(0xdb) == NoCase && Decode(0xd3) == NoCase   // IN, OUT
  {
  }

  /*---------------------------------------------------------------------
    Two steps
   ---------------------------------------------------------------------*/

  /** DCX undoes INX on BC, DE and HL: the whole state comes back. */
  lemma DecrementUndoesIncrement(s: State8080, rp: RegPair)
    requires rp != SP
    ensures DecrementPair(IncrementPair(s, rp), rp) == s
  {
    match rp {
      case BC => IncrementThenDecrementBytes(s.b, s.c);
      case DE => IncrementThenDecrementBytes(s.d, s.e);
      case HL => IncrementThenDecrementBytes(s.h, s.l);
    }
  }

  /** DCR undoes INR on every register: the register, the other
      registers, SP, memory, PC and carry come back, while zero and sign
      now describe the restored value and parity stays clear. */
  lemma DecrementUndoesIncrementRegister(s: State8080, r: Reg)
    ensures var t := Decrement(Increment(s, r), r);
      && t == s.(cc := t.cc)
      && t.cc == s.cc.(z := Get(s, r) == 0, s := Get(s, r) >= 0x80, p := false)
  {
  }

  /** INX followed by DCX on BC, DE or HL gives back the state as it was,
      except that PC has moved past both opcodes. */
  lemma IncrementThenDecrementPair(s: State8080, rp: RegPair)
    requires rp != SP
    requires s.memory[s.pc] == OpInx(rp)
    requires s.memory[Wrap16(s.pc + 1)] == OpDcx(rp)
    ensures OperandsInMemory(s) && Emulate8080Op(s).Ok?
    ensures OperandsInMemory(Emulate8080Op(s).value)
    ensures Emulate8080Op(Emulate8080Op(s).value) == Ok(s.(pc := Wrap16(s.pc + 2)))
  {
    var s1 := s.(pc := Wrap16(s.pc + 1));
    var t := IncrementPair(s1, rp);
    DecodePairOperations(rp);
    StepRuns(s, Inx(rp));
    assert Execute(Inx(rp), s).(pc := s1.pc) == t;
    assert t.memory[t.pc] == OpDcx(rp);
    StepRuns(t, Dcx(rp));
    DecrementUndoesIncrement(s1, rp);
    assert Execute(Dcx(rp), t) == s1;
  }

  /** One INR step is the INR case body with PC one further on. */
  lemma IncrementStepIs(s: State8080, r: Reg)
    requires s.memory[s.pc] == OpInr(r)
    ensures OperandsInMemory(s)
    ensures Emulate8080Op(s) == Ok(Increment(s.(pc := Wrap16(s.pc + 1)), r))
  {
    DecodeIncrementDecrement(r);
    StepRuns(s, Inr(r));
  }

  /** One DCR step is the DCR case body with PC one further on. */
  lemma DecrementStepIs(s: State8080, r: Reg)
    requires s.memory[s.pc] == OpDcr(r)
    ensures OperandsInMemory(s)
    ensures Emulate8080Op(s) == Ok(Decrement(s.(pc := Wrap16(s.pc + 1)), r))
  {
    DecodeIncrementDecrement(r);
    StepRuns(s, Dcr(r));
  }

  /** INR does not read or write PC. */
  lemma IncrementIgnoresPc(s: State8080, r: Reg, x: u16)
    ensures Increment(s.(pc := x), r) == Increment(s, r).(pc := x)
  {
  }

  /** INR r followed by DCR r gives back every register, SP, memory and
      carry, with PC past both opcodes; zero and sign then describe the
      restored register and parity is clear. */
  lemma IncrementThenDecrementRegister(s: State8080, r: Reg)
    requires s.memory[s.pc] == OpInr(r)
    requires s.memory[Wrap16(s.pc + 1)] == OpDcr(r)
    ensures OperandsInMemory(s) && Emulate8080Op(s).Ok?
    ensures OperandsInMemory(Emulate8080Op(s).value)
    ensures var cc := s.cc.(z := Get(s, r) == 0, s := Get(s, r) >= 0x80, p := false);
      Emulate8080Op(Emulate8080Op(s).value) == Ok(s.(pc := Wrap16(s.pc + 2), cc := cc))
  {
    var s1, s2 := s.(pc := Wrap16(s.pc + 1)), s.(pc := Wrap16(s.pc + 2));
    var t := Increment(s1, r);
    IncrementStepIs(s, r);
    assert t.memory[t.pc] == OpDcr(r);
    DecrementStepIs(t, r);
    assert Wrap16(t.pc + 1) == s2.pc;
    IncrementIgnoresPc(s, r, s1.pc);
    IncrementIgnoresPc(s, r, s2.pc);
    assert t.(pc := s2.pc) == Increment(s2, r);
    DecrementUndoesIncrementRegister(s2, r);
    assert Get(s2, r) == Get(s, r);
  }

  /** DCX SP undoes INX SP on the stack pointer itself. */
  lemma DecrementSpUndoesIncrement(s: State8080)
    ensures DecrementPair(IncrementPair(s, SP), SP) == s
  {
    var t := IncrementPair(s, SP);
    assert t.sp == Wrap16(s.sp + 1);
    assert DecrementPair(t, SP).sp == s.sp by {
      if s.sp == 0xffff {
        assert t.sp == 0;
      } else {
        assert t.sp == s.sp + 1;
      }
    }
  }

  /** INX SP followed by DCX SP restores SP but, through the missing
      `break`, the pair acts as a single INR A: A goes up by one with
      zero, sign and parity recomputed, and nothing else changes. */
  lemma IncrementThenDecrementSp(s: State8080)
    requires s.memory[s.pc] == 0x33
    requires s.memory[Wrap16(s.pc + 1)] == 0x3b
    ensures OperandsInMemory(s) && Emulate8080Op(s).Ok?
    ensures OperandsInMemory(Emulate8080Op(s).value)
    ensures Emulate8080Op(Emulate8080Op(s).value) == Ok(Increment(s, A).(pc := Wrap16(s.pc + 2)))
  {
    var s1 := s.(pc := Wrap16(s.pc + 1));
    var t := IncrementPair(s1, SP);
    DecodePairOperations(SP);
    StepRuns(s, Inx(SP));
    assert Execute(Inx(SP), s).(pc := s1.pc) == t;
    assert t.memory[t.pc] == OpDcx(SP);
    StepRuns(t, Dcx(SP));
    DecrementSpUndoesIncrement(s1);
    assert Execute(Dcx(SP), t) == Increment(s1, A);
    assert Increment(s1, A) == Increment(s, A).(pc := s1.pc);
  }
}
