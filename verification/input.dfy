/**
  Keyboard to cabinet-control mapping. A key press sets one bit of input
  latch 1 or 2 and the release of the same key clears it; any other key is
  ignored.
 */
module Input {
  import opened PortLatches

  /** The keys the handlers recognise, by SDL key code, and every other key. */
  datatype Key =
    | SdlkC        // coin
    | SdlkReturn   // 2P start
    | Sdlk1        // 1P start
    | SdlkSpace    // 1P shoot
    | SdlkA        // 1P left
    | SdlkD        // 1P right
    | SdlkUp       // 2P shoot
    | SdlkLeft     // 2P left
    | SdlkRight    // 2P right
    | Unmapped

  datatype Latch = Input1 | Input2

  /** The cabinet control a key drives: a bit (as a mask) of one input latch. */
  datatype Control = Unbound | Bound(latch: Latch, mask: bv8)

  /** The port map of the cabinet: coin, starts and player 1 on latch 1,
      player 2's shoot, left and right on latch 2. */
  function ControlOf(key: Key): Control
  {
    match key
    case SdlkC => Bound(Input1, 0x01)
    case SdlkReturn => Bound(Input1, 0x02)
    case Sdlk1 => Bound(Input1, 0x04)
    case SdlkSpace => Bound(Input1, 0x10)
    case SdlkA => Bound(Input1, 0x20)
    case SdlkD => Bound(Input1, 0x40)
    case SdlkUp => Bound(Input2, 0x10)
    case SdlkLeft => Bound(Input2, 0x20)
    case SdlkRight => Bound(Input2, 0x40)
    case Unmapped => Unbound
  }

  function Latched(p: Ports, latch: Latch): bv8
  {
    match latch
    case Input1 => p.input1
    case Input2 => p.input2
  }

  function OtherLatch(latch: Latch): Latch
  {
    match latch
    case Input1 => Input2
    case Input2 => Input1
  }

  /** Only the two key-driven latches differ between `p` and `q`. */
  predicate SameExceptInputs(p: Ports, q: Ports)
  {
    q == p.(input1 := q.input1, input2 := q.input2)
  }

  /** `x |= mask` */
  function Set(x: bv8, mask: bv8): bv8
  {
    x | mask
  }

  /** `x &= ~mask` */
  function Clear(x: bv8, mask: bv8): bv8
  {
    x & !mask
  }

  /** Setting puts the mask's bits in; the bits outside the mask keep
      their values. */
  lemma SetBits(x: bv8, m: bv8)
    ensures Set(x, m) & m == m && Set(x, m) & !m == x & !m
  {
  }

  /** Clearing takes the mask's bits out; the bits outside the mask keep
      their values. */
  lemma ClearBits(x: bv8, m: bv8)
    ensures Clear(x, m) & m == 0 && Clear(x, m) & !m == x & !m
  {
  }

  /** Setting twice is setting once, and clearing after setting is
      clearing alone. */
  lemma SetAbsorbs(x: bv8, m: bv8)
    ensures Set(Set(x, m), m) == Set(x, m)
    ensures Clear(Set(x, m), m) == Clear(x, m)
  {
  }

  /** Bits disjoint from the mask are untouched by setting and clearing. */
  lemma DisjointBitsUntouched(x: bv8, m: bv8, f: bv8)
    requires m & f == 0
    ensures Set(x, m) & f == x & f && Clear(x, m) & f == x & f
  {
  }

  /** `p` with one latch replaced by `v`. */
  function WithLatch(p: Ports, latch: Latch, v: bv8): Ports
  {
    match latch
    case Input1 => p.(input1 := v)
    case Input2 => p.(input2 := v)
  }

  /** Key press: ORs the key's mask into the key's latch and leaves the
      other latch and every other field alone; an unmapped key changes
      nothing. */
  function KeyDown(key: Key, ports: Ports): (r: Ports)
    ensures SameExceptInputs(ports, r)
    ensures ControlOf(key).Unbound? ==> r == ports
    ensures ControlOf(key).Bound? ==>
      var c := ControlOf(key);
      && Latched(r, c.latch) == Set(Latched(ports, c.latch), c.mask)
      && Latched(r, OtherLatch(c.latch)) == Latched(ports, OtherLatch(c.latch))
  {
    match ControlOf(key)
    case Unbound => ports
    case Bound(latch, mask) => WithLatch(ports, latch, Set(Latched(ports, latch), mask))
  }

  /** Key release: clears, in the same latch, exactly the mask the press
      of that key sets; an unmapped key changes nothing. */
  function KeyUp(key: Key, ports: Ports): (r: Ports)
    ensures SameExceptInputs(ports, r)
    ensures ControlOf(key).Unbound? ==> r == ports
    ensures ControlOf(key).Bound? ==>
      var c := ControlOf(key);
      && Latched(r, c.latch) == Clear(Latched(ports, c.latch), c.mask)
      && Latched(r, OtherLatch(c.latch)) == Latched(ports, OtherLatch(c.latch))
  {
    match ControlOf(key)
    case Unbound => ports
    case Bound(latch, mask) => WithLatch(ports, latch, Clear(Latched(ports, latch), mask))
  }

  /** The bits a press and a release leave in a latch, stated once for
      any latch and mask: the mask's bits set (cleared), the rest as in
      `ports`. */
  lemma LatchBits(ports: Ports, down: Ports, up: Ports, latch: Latch, m: bv8)
    requires Latched(down, latch) == Set(Latched(ports, latch), m)
    requires Latched(up, latch) == Clear(Latched(ports, latch), m)
    ensures Latched(down, latch) & m == m
    ensures Latched(down, latch) & !m == Latched(ports, latch) & !m
    ensures Latched(up, latch) & m == 0
    ensures Latched(up, latch) & !m == Latched(ports, latch) & !m
  {
    var x := Latched(ports, latch);
    SetBits(x, m);
    ClearBits(x, m);
  }

  /** After a press the key's bit is set and every other bit of its latch
      is as before; after a release the bit is clear, the rest as before. */
  lemma PressAndReleaseBits(key: Key, ports: Ports)
    requires ControlOf(key).Bound?
    ensures var c := ControlOf(key);
      && Latched(KeyDown(key, ports), c.latch) & c.mask == c.mask
      && Latched(KeyDown(key, ports), c.latch) & !c.mask == Latched(ports, c.latch) & !c.mask
      && Latched(KeyUp(key, ports), c.latch) & c.mask == 0
      && Latched(KeyUp(key, ports), c.latch) & !c.mask == Latched(ports, c.latch) & !c.mask
  {
    var c := ControlOf(key);
    LatchBits(ports, KeyDown(key, ports), KeyUp(key, ports), c.latch, c.mask);
  }

  /** Every mask is a single bit, and none is bit 3 (0x08) or bit 7 (0x80). */
  lemma MasksAreSingleFreeBits(key: Key)
    requires ControlOf(key).Bound?
    ensures var m := ControlOf(key).mask;
      m != 0 && m & (m - 1) == 0 && m & 0x88 == 0
  {
  }

  /** Two different keys never drive the same bit: on a shared latch their
      masks are disjoint. */
  lemma ControlsAreDisjoint(k1: Key, k2: Key)
    ensures var c1, c2 := ControlOf(k1), ControlOf(k2);
      k1 != k2 && c1.Bound? && c2.Bound? && c1.latch == c2.latch ==> c1.mask & c2.mask == 0
  {
    match k1 {
      case SdlkC => case SdlkReturn => case Sdlk1 => case SdlkSpace => case SdlkA =>
      case SdlkD => case SdlkUp => case SdlkLeft => case SdlkRight => case Unmapped =>
    }
  }

  /** Player-2 controls live on latch 2, every other mapped key on latch 1. */
  lemma LatchOfEachPlayer(key: Key)
    ensures ControlOf(key).Bound? ==>
      (ControlOf(key).latch == Input2 <==> key in {SdlkUp, SdlkLeft, SdlkRight})
  {
  }

  /** Pressing a key twice is the same as pressing it once. */
  lemma KeyDownIdempotent(key: Key, ports: Ports)
    ensures KeyDown(key, KeyDown(key, ports)) == KeyDown(key, ports)
  {
    if ControlOf(key).Bound? {
      SetAbsorbs(Latched(ports, ControlOf(key).latch), ControlOf(key).mask);
    }
  }

  /** Press then release leaves the latches as a release alone would: the
      key's bit clear and everything else as before the press. */
  lemma KeyDownThenUp(key: Key, ports: Ports)
    ensures KeyUp(key, KeyDown(key, ports)) == KeyUp(key, ports)
  {
    if ControlOf(key).Bound? {
      SetAbsorbs(Latched(ports, ControlOf(key).latch), ControlOf(key).mask);
    }
  }

  /** What a release leaves in a latch: the latch with the key's mask
      cleared if the key drives that latch, the latch as it was otherwise. */
  lemma LatchAfterRelease(key: Key, ports: Ports, latch: Latch)
    ensures var c := ControlOf(key);
      Latched(KeyUp(key, ports), latch) ==
        if c.Bound? && c.latch == latch then Clear(Latched(ports, latch), c.mask) else Latched(ports, latch)
  {
  }

  /** A set bit survives a release that does not clear it. */
  lemma BitSurvivesRelease(x: bv8, released: Control, m: bv8, latch: Latch)
    requires x & m == m
    requires released.Bound? && released.latch == latch ==> released.mask & m == 0
    ensures (if released.Bound? && released.latch == latch then Clear(x, released.mask) else x) & m == m
  {
  }

  /** Releasing one key does not release another: a pressed key's bit
      survives the release of any different key. */
  lemma ReleaseKeepsOtherPresses(pressed: Key, released: Key, ports: Ports)
    requires pressed != released && ControlOf(pressed).Bound?
    ensures var c := ControlOf(pressed);
      Latched(KeyUp(released, KeyDown(pressed, ports)), c.latch) & c.mask == c.mask
  {
    var c := ControlOf(pressed);
    var down := KeyDown(pressed, ports);
    PressAndReleaseBits(pressed, ports);
    LatchAfterRelease(released, down, c.latch);
    ControlsAreDisjoint(pressed, released);
    BitSurvivesRelease(Latched(down, c.latch), ControlOf(released), c.mask, c.latch);
  }

  /** The always-set bit 3 of latch 1 (and bit 7 of both latches) is left
      alone by every press and release. */
  lemma FixedBitsPreserved(key: Key, ports: Ports)
    ensures KeyDown(key, ports).input1 & 0x88 == ports.input1 & 0x88
    ensures KeyUp(key, ports).input1 & 0x88 == ports.input1 & 0x88
    ensures KeyDown(key, ports).input2 & 0x88 == ports.input2 & 0x88
    ensures KeyUp(key, ports).input2 & 0x88 == ports.input2 & 0x88
  {
    if ControlOf(key).Bound? {
      MasksAreSingleFreeBits(key);
      DisjointBitsUntouched(Latched(ports, ControlOf(key).latch), ControlOf(key).mask, 0x88);
    }
  }
}
