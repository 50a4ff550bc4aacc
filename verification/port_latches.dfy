/**
  The Space Invaders cabinet's I/O latches, as the machine shell keeps
  them beside the processor.
 */
module PortLatches {
  import opened Words

  /** Input latches are bit sets, written bit by bit by the key handlers;
      output latches hold the last byte written to their port. The shift
      register and its shift amount are read and written arithmetically. */
  datatype Ports = Ports(
    input0: bv8,
    input1: bv8,
    input2: bv8,
    output2: bv8,
    output3: bv8,
    output5: bv8,
    output6: bv8,
    shift_register: u16,
    shift_amount: u8)
}
