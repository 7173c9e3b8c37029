/**
 * The transport: one request/response exchange with the device.
 *
 * The TCP stream and the device behind it are replaced by an abstract
 * device. It holds the register bytes the protocol addresses, the number
 * of exchanges that still succeed before the connection breaks, and the
 * log of every command frame it has received, in order.
 *
 * The protocol's command frames and the reply byte each one reports:
 *   get register `a`:  [0x47, a, 0x80]     reply offset 3 = register `a`
 *   set register `a`:  [0x53, a, 0x81, v]  register `a` becomes `v`;
 *                                          reply offset 3 = the new value
 * The client reads nothing but offset 3, so the model device fills the
 * other seven bytes of its reply with zeros, as the client's zeroed
 * buffer would be for bytes that were never read.
 */
module Client {
  import opened Wire

  const GetOp: u8 := 0x47
  const GetTail: u8 := 0x80
  const SetOp: u8 := 0x53
  const SetTail: u8 := 0x81

  /** A frame that reads register `cmd[1]`. */
  predicate IsGet(cmd: Frame) {
    |cmd| == 3 && cmd[0] == GetOp && cmd[2] == GetTail
  }

  /** A frame that writes `cmd[3]` into register `cmd[1]`. */
  predicate IsSet(cmd: Frame) {
    |cmd| == 4 && cmd[0] == SetOp && cmd[2] == SetTail
  }

  /** The value of register `addr`; a register never written reads as 0. */
  function Lookup(regs: map<u8, u8>, addr: u8): u8 {
    if addr in regs then regs[addr] else 0
  }

  /** The registers after the device has obeyed `cmd`. */
  function Obey(cmd: Frame, regs: map<u8, u8>): (next: map<u8, u8>)
    ensures IsSet(cmd) ==> Lookup(next, cmd[1]) == cmd[3]
    ensures forall a :: (!IsSet(cmd) || a != cmd[1]) ==> Lookup(next, a) == Lookup(regs, a)
  {
    if IsSet(cmd) then regs[cmd[1] := cmd[3]] else regs
  }

  /** The reply to `cmd`, given the registers after it was obeyed. */
  function Answer(cmd: Frame, regs: map<u8, u8>): (r: Reply)
    ensures IsGet(cmd) || IsSet(cmd) ==> r[3] == Lookup(regs, cmd[1])
    ensures forall i :: 0 <= i < 8 && i != 3 ==> r[i] == 0
  {
    var v := if IsGet(cmd) || IsSet(cmd) then Lookup(regs, cmd[1]) else 0;
    [0, 0, 0, v, 0, 0, 0, 0]
  }

  class Device {
    /** The device's registers, by address. */
    var registers: map<u8, u8>
    /** How many more exchanges succeed before the connection fails. */
    var budget: nat
    /** Every command frame written to the device, oldest first. */
    var log: seq<Frame>

    /** The current value of register `addr`. */
    function Register(addr: u8): u8
      reads this
    {
      Lookup(registers, addr)
    }

    constructor (registers: map<u8, u8>, budget: nat)
      ensures this.registers == registers && this.budget == budget && log == []
    {
      this.registers := registers;
      this.budget := budget;
      log := [];
    }

    /**
     * `send`: write `cmd`, read one reply. When the connection has failed
     * the exchange has no effect and returns an error.
     */
    method Send(cmd: Frame) returns (r: Result<Reply>)
      modifies this
      ensures old(budget) == 0 ==> r.Err? && unchanged(this)
      ensures old(budget) > 0 ==>
        && registers == Obey(cmd, old(registers))
        && r == Ok(Answer(cmd, registers))
        && log == old(log) + [cmd]
        && budget == old(budget) - 1
    {
      if budget == 0 {
        return Err(ConnectionLost);
      }
      budget := budget - 1;
      log := log + [cmd];
      registers := Obey(cmd, registers);
      r := Ok(Answer(cmd, registers));
    }
  }
}
