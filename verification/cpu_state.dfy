/**
  The processor state of the emulator: seven byte registers, the stack
  pointer, the program counter, the condition-code bit-field, the
  interrupt-enable byte and the 64 KiB memory the state points to.
 */
module Cpu {
  import opened Words

  /** The condition-code bit-field: zero, sign, parity, carry, auxiliary
      carry and three padding bits. Every one-bit field is a `bool`. */
  datatype ConditionCodes = ConditionCodes(
    z: bool,
    s: bool,
    p: bool,
    cy: bool,
    ac: bool,
    pad: bv3)

  /** The 0x10000-byte buffer the machine allocates for the processor. */
  type Memory = m: seq<u8> | |m| == 0x1_0000 witness seq(0x1_0000, _ => 0)

  datatype State8080 = State8080(
    a: u8,
    b: u8,
    c: u8,
    d: u8,
    e: u8,
    h: u8,
    l: u8,
    sp: u16,
    pc: u16,
    memory: Memory,
    cc: ConditionCodes,
    int_enable: u8)

  /** The byte registers an instruction can name. */
  datatype Reg = B | C | D | E | H | L | A

  /** The register pairs, with SP standing in for itself. */
  datatype RegPair = BC | DE | HL | SP

  function Get(s: State8080, r: Reg): u8
  {
    match r
    case B => s.b
    case C => s.c
    case D => s.d
    case E => s.e
    case H => s.h
    case L => s.l
    case A => s.a
  }

  /** Writes one byte register; every other register and field keeps its value. */
  function Set(s: State8080, r: Reg, v: u8): (t: State8080)
    ensures Get(t, r) == v
    ensures forall q :: q != r ==> Get(t, q) == Get(s, q)
    ensures t.sp == s.sp && t.pc == s.pc && t.memory == s.memory
    ensures t.cc == s.cc && t.int_enable == s.int_enable
  {
    match r
    case B => s.(b := v)
    case C => s.(c := v)
    case D => s.(d := v)
    case E => s.(e := v)
    case H => s.(h := v)
    case L => s.(l := v)
    case A => s.(a := v)
  }

  /** A register pair read as a 16-bit value, high register first. */
  function GetPair(s: State8080, rp: RegPair): u16
  {
    match rp
    case BC => Pair(s.b, s.c)
    case DE => Pair(s.d, s.e)
    case HL => Pair(s.h, s.l)
    case SP => s.sp
  }

  /** The two byte registers of a pair; SP is not made of byte registers. */
  function Halves(rp: RegPair): set<Reg>
  {
    match rp
    case BC => {B, C}
    case DE => {D, E}
    case HL => {H, L}
    case SP => {}
  }

  /** The carry bit-field read as the number 0 or 1. */
  function CarryIn(cc: ConditionCodes): (n: nat)
    ensures n <= 1 && (n == 1 <==> cc.cy)
  {
    if cc.cy then 1 else 0
  }

  /** Registers outside `changed`, SP, memory and the interrupt-enable
      byte are the same in `s` and `t`. PC and flags are not compared. */
  predicate UnchangedExcept(s: State8080, t: State8080, changed: set<Reg>)
  {
    && (forall q :: q !in changed ==> Get(t, q) == Get(s, q))
    && t.sp == s.sp
    && t.memory == s.memory
    && t.int_enable == s.int_enable
  }
}
