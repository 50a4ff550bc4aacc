/**
  The single-step interpreter: the flag helpers, the opcode table and one
  fetch-decode-execute step over the processor state.

  The step follows the switch of the C interpreter case by case, including
  its quirks, which are kept rather than corrected:
  - the parity helper is a stub that always answers 0, so P is never set;
  - DCX SP (0x3b) has no `break` and continues into INR A;
  - opcode 0xc3 is handled as ACI, although it is JMP on the 8080;
  - ACI, ADI and SUI read their immediate byte but advance PC by one only;
  - an opcode without a case is not an error: it only advances PC.
 */
module Emulator {
  import opened Words
  import opened Cpu

  /** Result of a step: the next state, or the opcode the interpreter
      refuses (the C code prints a message and exits the process). */
  datatype Outcome<T> = Ok(value: T) | UnimplementedInstruction(opcode: u8)

  /*---------------------------------------------------------------------
    Flags
   ---------------------------------------------------------------------*/

  /** Stub of the parity helper: it answers 0 for every byte. */
  function Parity(answer: u8): u8
  {
    0
  }

  /** Zero, sign, parity and carry from a 16-bit answer. */
  function SetFlags(cc: ConditionCodes, answer: u16): (r: ConditionCodes)
    ensures r.z <==> Low(answer) == 0
    ensures r.s <==> Low(answer) >= 0x80
    ensures !r.p
    ensures r.cy <==> answer > 0xff
    ensures r.ac == cc.ac && r.pad == cc.pad
  {
    cc.(z := answer % 0x100 == 0,            // answer & 0xff
        s := (answer / 0x80) % 2 == 1,       // answer & 0x80
        p := Parity(Low(answer)) % 2 == 1,   // one-bit field keeps bit 0
        cy := answer > 0xff)
  }

  /** Zero, sign and parity from an answer; carry is left alone. */
  function SetFlagsNoCarry(cc: ConditionCodes, answer: u16): (r: ConditionCodes)
    ensures r.z <==> Low(answer) == 0
    ensures r.s <==> Low(answer) >= 0x80
    ensures !r.p
    ensures r.cy == cc.cy && r.ac == cc.ac && r.pad == cc.pad
  {
    cc.(z := answer % 0x100 == 0,
        s := (answer / 0x80) % 2 == 1,
        p := Parity(Low(answer)) % 2 == 1)
  }

  /*---------------------------------------------------------------------
    Opcode table
   ---------------------------------------------------------------------*/

  /** The second operand of an accumulator instruction: a register, or
      M, the memory byte addressed by HL. */
  datatype Operand = R(r: Reg) | M

  datatype AluOp = Add | Adc | Sub | Sbb

  /** What each case of the interpreter's switch does. */
  datatype Instr =
    | Nop
    | LxiB                  // LXI B,d16
    | Unimplemented         // calls UnimplementedInstruction
    | Inx(rp: RegPair)
    | Dcx(rp: RegPair)      // Dcx(SP) falls through into INR A
    | Inr(r: Reg)
    | Dcr(r: Reg)
    | Dad(rp: RegPair)
    | Alu(op: AluOp, src: Operand)
    | AluImmediate(op: AluOp)  // operand is the byte after the opcode
    | NoCase                // the switch has no case for the opcode

  /** The switch of the interpreter, one line per `case` label, split by
      opcode range: 0x00-0x3f, the accumulator block 0x80-0x9f, and the
      immediate and error cases above it. 0x40-0x7f and 0xa0-0xbf have no
      case at all. */
  function Decode(opcode: u8): Instr
  {
    if opcode < 0x40 then DecodeLow(opcode)
    else if opcode < 0x80 then NoCase
    else if opcode < 0xa0 then DecodeAluBlock(opcode)
    else DecodeHigh(opcode)
  }

  /** The cases 0x00-0x3f: LXI B, INX, DCX, INR, DCR and DAD. */
  function DecodeLow(opcode: u8): Instr
    requires opcode < 0x40
  {
    match opcode
    case 0x00 => Nop
    case 0x01 => LxiB
    case 0x02 => Unimplemented
    case 0x03 => Inx(BC)
    case 0x04 => Inr(B)
    case 0x05 => Dcr(B)
    case 0x09 => Dad(BC)
    case 0x0b => Dcx(BC)
    case 0x0c => Inr(C)
    case 0x0d => Dcr(C)
    case 0x13 => Inx(DE)
    case 0x14 => Inr(D)
    case 0x15 => Dcr(D)
    case 0x19 => Dad(DE)
    case 0x1b => Dcx(DE)
    case 0x1c => Inr(E)
    case 0x1d => Dcr(E)
    case 0x23 => Inx(HL)
    case 0x24 => Inr(H)
    case 0x25 => Dcr(H)
    case 0x29 => Dad(HL)
    case 0x2b => Dcx(HL)
    case 0x2c => Inr(L)
    case 0x2d => Dcr(L)
    case 0x33 => Inx(SP)
    case 0x39 => Dad(SP)
    case 0x3b => Dcx(SP)
    case 0x3c => Inr(A)
    case 0x3d => Dcr(A)
    case _ => NoCase
  }

  /** The cases 0x80-0x9f: ADD, ADC, SUB and SBB on a register or M. */
  function DecodeAluBlock(opcode: u8): Instr
    requires 0x80 <= opcode < 0xa0
  {
    match opcode
    case 0x80 => Alu(Add, R(B))
    case 0x81 => Alu(Add, R(C))
    case 0x82 => Alu(Add, R(D))
    case 0x83 => Alu(Add, R(E))
    case 0x84 => Alu(Add, R(H))
    case 0x85 => Alu(Add, R(L))
    case 0x86 => Alu(Add, M)
    case 0x87 => Alu(Add, R(A))
    case 0x88 => Alu(Adc, R(B))
    case 0x89 => Alu(Adc, R(C))
    case 0x8a => Alu(Adc, R(D))
    case 0x8b => Alu(Adc, R(E))
    case 0x8c => Alu(Adc, R(H))
    case 0x8d => Alu(Adc, R(L))
    case 0x8e => Alu(Adc, M)
    case 0x8f => Alu(Adc, R(A))
    case 0x90 => Alu(Sub, R(B))
    case 0x91 => Alu(Sub, R(C))
    case 0x92 => Alu(Sub, R(D))
    case 0x93 => Alu(Sub, R(E))
    case 0x94 => Alu(Sub, R(H))
    case 0x95 => Alu(Sub, R(L))
    case 0x96 => Alu(Sub, M)
    case 0x97 => Alu(Sub, R(A))
    case 0x98 => Alu(Sbb, R(B))
    case 0x99 => Alu(Sbb, R(C))
    case 0x9a => Alu(Sbb, R(D))
    case 0x9b => Alu(Sbb, R(E))
    case 0x9c => Alu(Sbb, R(H))
    case 0x9d => Alu(Sbb, R(L))
    case 0x9e => Alu(Sbb, M)
    case 0x9f => Alu(Sbb, R(A))
    case _ => NoCase
  }

  /** The cases 0xa0-0xff: the immediate forms and two refused opcodes. */
  function DecodeHigh(opcode: u8): Instr
    requires 0xa0 <= opcode
  {
    match opcode
    case 0xc3 => AluImmediate(Adc)   // labelled ACI; JMP on the 8080
    case 0xc6 => AluImmediate(Add)   // ADI
    case 0xd6 => AluImmediate(Sub)   // SUI
    case 0xfe => Unimplemented
    case 0xff => Unimplemented
    case _ => NoCase
  }

  /** How many bytes after the opcode an instruction reads. */
  function OperandBytes(i: Instr): nat
  {
    match i
    case LxiB => 2
    case AluImmediate(_) => 1
    case _ => 0
  }

  /** The bytes the fetched instruction reads after its opcode lie inside
      memory: the C code indexes `opcode[1]` and `opcode[2]` without
      wrapping the address. */
  predicate OperandsInMemory(s: State8080)
  {
    s.pc + OperandBytes(Decode(s.memory[s.pc])) < 0x1_0000
  }

  /*---------------------------------------------------------------------
    Execution
   ---------------------------------------------------------------------*/

  /** `lo++; if (lo == 0) hi++;`: the pair, read as a word, goes up by one. */
  function IncBytes(hi: u8, lo: u8): (r: (u8, u8))
    ensures Pair(r.0, r.1) == Wrap16(Pair(hi, lo) + 1)
  {
    var lo' := Wrap8(lo + 1);
    (if lo' == 0 then Wrap8(hi + 1) else hi, lo')
  }

  /** `if (lo == 0) hi--; lo--;`: the pair, read as a word, goes down by one. */
  function DecBytes(hi: u8, lo: u8): (r: (u8, u8))
    ensures Pair(r.0, r.1) == Wrap16(Pair(hi, lo) - 1)
  {
    (if lo == 0 then Wrap8(hi - 1) else hi, Wrap8(lo - 1))
  }

  /** INX: the pair, read as a word, goes up by one modulo 2^16; the
      other registers, SP unless it is the pair, and the flags are kept. */
  function IncrementPair(s: State8080, rp: RegPair): (t: State8080)
    ensures GetPair(t, rp) == (GetPair(s, rp) + 1) % 0x1_0000
    ensures forall q :: q !in Halves(rp) ==> Get(t, q) == Get(s, q)
    ensures rp != SP ==> t.sp == s.sp
    ensures t.cc == s.cc && t.memory == s.memory && t.int_enable == s.int_enable && t.pc == s.pc
  {
    match rp
    case BC => var w := IncBytes(s.b, s.c); s.(b := w.0, c := w.1)
    case DE => var w := IncBytes(s.d, s.e); s.(d := w.0, e := w.1)
    case HL => var w := IncBytes(s.h, s.l); s.(h := w.0, l := w.1)
    case SP => s.(sp := Wrap16(s.sp + 1))
  }

  /** DCX: the pair, read as a word, goes down by one modulo 2^16; the
      other registers, SP unless it is the pair, and the flags are kept. */
  function DecrementPair(s: State8080, rp: RegPair): (t: State8080)
    ensures GetPair(t, rp) == (GetPair(s, rp) - 1) % 0x1_0000
    ensures forall q :: q !in Halves(rp) ==> Get(t, q) == Get(s, q)
    ensures rp != SP ==> t.sp == s.sp
    ensures t.cc == s.cc && t.memory == s.memory && t.int_enable == s.int_enable && t.pc == s.pc
  {
    match rp
    case BC => var w := DecBytes(s.b, s.c); s.(b := w.0, c := w.1)
    case DE => var w := DecBytes(s.d, s.e); s.(d := w.0, e := w.1)
    case HL => var w := DecBytes(s.h, s.l); s.(h := w.0, l := w.1)
    case SP => s.(sp := Wrap16(s.sp - 1))
  }

  /** The value an accumulator instruction combines with A. */
  function ReadOperand(s: State8080, src: Operand): u8
  {
    match src
    case R(r) => Get(s, r)
    case M => s.memory[Pair(s.h, s.l)]
  }

  /** The 16-bit `answer` of an accumulator instruction. The operands are
      promoted to `int`, so a subtraction that borrows is negative until it
      is stored back into the `uint16_t`. */
  function AluAnswer(op: AluOp, a: u8, v: u8, cc: ConditionCodes): u16
  {
    match op
    case Add => a + v
    case Adc => a + v + CarryIn(cc)
    case Sub => Wrap16(a - v)
    case Sbb => Wrap16(a - v - CarryIn(cc))
  }

  /** The carry an accumulator instruction adds or subtracts: the carry
      flag for ADC and SBB, nothing for ADD and SUB. */
  function CarryTerm(op: AluOp, cc: ConditionCodes): nat
  {
    if op == Adc || op == Sbb then CarryIn(cc) else 0
  }

  /** `SetFlags(answer); a = answer & 0xff;`. An addition leaves the sum
      modulo 256 in A with carry set exactly when the sum exceeds a byte;
      a subtraction leaves the difference modulo 256 with carry set exactly
      when it borrows. Only A and the flags change. */
  function Accumulate(s: State8080, op: AluOp, v: u8): (t: State8080)
    ensures op == Add || op == Adc ==>
      && t.a == (s.a + v + CarryTerm(op, s.cc)) % 0x100
      && (t.cc.cy <==> s.a + v + CarryTerm(op, s.cc) > 0xff)
    ensures op == Sub || op == Sbb ==>
      && t.a == (s.a - v - CarryTerm(op, s.cc)) % 0x100
      && (t.cc.cy <==> s.a < v + CarryTerm(op, s.cc))
    ensures t.cc.z <==> t.a == 0
    ensures t.cc.s <==> t.a >= 0x80
    ensures !t.cc.p && t.cc.ac == s.cc.ac && t.cc.pad == s.cc.pad
    ensures t == s.(a := t.a, cc := t.cc)
  {
    LowOfWrap16(s.a - v - CarryTerm(op, s.cc));
    var answer := AluAnswer(op, s.a, v, s.cc);
    s.(cc := SetFlags(s.cc, answer), a := Low(answer))
  }

  /** INR r: the register goes up by one modulo 256; zero, sign and
      parity follow the new value and carry keeps its value. */
  function Increment(s: State8080, r: Reg): (t: State8080)
    ensures Get(t, r) == (Get(s, r) + 1) % 0x100
    ensures t.cc.z <==> Get(t, r) == 0
    ensures t.cc.s <==> Get(t, r) >= 0x80
    ensures !t.cc.p && t.cc.cy == s.cc.cy && t.cc.ac == s.cc.ac && t.cc.pad == s.cc.pad
    ensures UnchangedExcept(s, t, {r}) && t.pc == s.pc
  {
    var v := Wrap8(Get(s, r) + 1);
    Set(s, r, v).(cc := SetFlagsNoCarry(s.cc, v))
  }

  /** DCR r: the register goes down by one modulo 256; zero, sign and
      parity follow the new value and carry keeps its value. */
  function Decrement(s: State8080, r: Reg): (t: State8080)
    ensures Get(t, r) == (Get(s, r) - 1) % 0x100
    ensures t.cc.z <==> Get(t, r) == 0
    ensures t.cc.s <==> Get(t, r) >= 0x80
    ensures !t.cc.p && t.cc.cy == s.cc.cy && t.cc.ac == s.cc.ac && t.cc.pad == s.cc.pad
    ensures UnchangedExcept(s, t, {r}) && t.pc == s.pc
  {
    var v := Wrap8(Get(s, r) - 1);
    Set(s, r, v).(cc := SetFlagsNoCarry(s.cc, v))
  }

  /** The body of one case of the switch, before the final `pc += 1`. */
  function Execute(i: Instr, s: State8080): State8080
    requires !i.Unimplemented?
    requires s.pc + OperandBytes(i) < 0x1_0000
  {
    match i
    case Nop => s
    case NoCase => s
    case LxiB =>
      s.(c := s.memory[s.pc + 1], b := s.memory[s.pc + 2], pc := Wrap16(s.pc + 2))
    case Inx(rp) => IncrementPair(s, rp)
    // no `break` after `sp--`: DCX SP continues with the INR A case
    case Dcx(rp) => if rp == SP then Increment(DecrementPair(s, SP), A) else DecrementPair(s, rp)
    case Inr(r) => Increment(s, r)
    case Dcr(r) => Decrement(s, r)
    case Dad(rp) =>
      // the sum is kept in a uint32_t, so it does not wrap
      var hl := Pair(s.h, s.l) + GetPair(s, rp);
      s.(h := (hl / 0x100) % 0x100, l := hl % 0x100, cc := s.cc.(cy := hl > 0xffff))
    case Alu(op, src) => Accumulate(s, op, ReadOperand(s, src))
    case AluImmediate(op) => Accumulate(s, op, s.memory[s.pc + 1])
  }

  /** One call of the interpreter: fetch the opcode at PC, run its case,
      then advance PC by one (LXI B has already added two more). */
  function Emulate8080Op(s: State8080): (r: Outcome<State8080>)
    requires OperandsInMemory(s)
    ensures r.UnimplementedInstruction? <==> s.memory[s.pc] in {0x02, 0xfe, 0xff}
    ensures r.UnimplementedInstruction? ==> r.opcode == s.memory[s.pc]
    ensures r.Ok? ==> r.value.pc == Wrap16(s.pc + if s.memory[s.pc] == 0x01 then 3 else 1)
    ensures r.Ok? ==> r.value.memory == s.memory && r.value.int_enable == s.int_enable
    ensures r.Ok? ==> r.value.cc.ac == s.cc.ac && r.value.cc.pad == s.cc.pad
    ensures r.Ok? ==> (r.value.cc.p ==> s.cc.p)
  {
    var opcode := s.memory[s.pc];
    var instr := Decode(opcode);
    if instr.Unimplemented? then
      UnimplementedInstruction(opcode)
    else
      var t := Execute(instr, s);
      Ok(t.(pc := Wrap16(t.pc + 1)))
  }
}
