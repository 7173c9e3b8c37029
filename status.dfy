/**
 * The status register: one byte packing four independent settings, its
 * codec, and the read-modify-write operations that change it.
 *
 * Bit layout of the status byte (bit 7 is the most significant):
 *   bits 0-3  source       bits 4-5  auto-off
 *   bit  6    orientation  bit  7    power
 */
module Status {
  import opened Wire
  import opened Client

  /** The input source; each variant's value is its 4-bit code. */
  datatype Source = Wifi | USB | BluetoothPaired | BluetoothUnpaired | AUX | Optical {

    /** The enum discriminant. */
    function Code(): bv8 {
      match this
      case Wifi => 0x2
      case USB => 0xC
      case BluetoothPaired => 0x9
      case BluetoothUnpaired => 0xF
      case AUX => 0xA
      case Optical => 0xB
    }

    /** The derived `from_u8`: the variant whose discriminant is `n`, if any. */
    static function OfCode(n: bv8): (r: Option<Source>)
      ensures r.Some? <==> n in SourceCodes
      ensures r.Some? ==> r.value.Code() == n
    {
      if n == 0x2 then Some(Wifi)
      else if n == 0xC then Some(USB)
      else if n == 0x9 then Some(BluetoothPaired)
      else if n == 0xF then Some(BluetoothUnpaired)
      else if n == 0xA then Some(AUX)
      else if n == 0xB then Some(Optical)
      else None
    }

    /** This setting's contribution to the status byte. */
    function ToBits(): (b: bv8)
      ensures b & 0xF0 == 0
      ensures FromBits(b) == this
    {
      Code() & 0xF
    }

    /** Decodes the low nibble; a nibble that names no source reads as Optical. */
    static function FromBits(bits: bv8): (s: Source)
      ensures bits & 0xF in SourceCodes ==> s.Code() == bits & 0xF
      ensures bits & 0xF !in SourceCodes ==> s == Optical
    {
      match OfCode(bits & 0xF)
      case Some(x) => x
      case None => Optical
    }

    /** The name shown to the user; both Bluetooth variants show alike. */
    function Name(): (n: string)
      ensures n == "Bluetooth" <==> BluetoothPaired? || BluetoothUnpaired?
    {
      match this
      case Wifi => "Wifi"
      case USB => "USB"
      case BluetoothPaired | BluetoothUnpaired => "Bluetooth"
      case AUX => "AUX"
      case Optical => "Optical"
    }
  }

  /** The six 4-bit codes that name a source. */
  const SourceCodes: set<bv8> := {0x2, 0xC, 0x9, 0xF, 0xA, 0xB}

  /** The standby timer; each variant's value is its 2-bit code. */
  datatype AutoOff = TwentyMinutes | SixtyMinutes | Never {

    function Code(): bv8 {
      match this
      case TwentyMinutes => 0
      case SixtyMinutes => 1
      case Never => 2
    }

    static function OfCode(n: bv8): (r: Option<AutoOff>)
      ensures r.Some? <==> n <= 2
      ensures r.Some? ==> r.value.Code() == n
    {
      if n == 0 then Some(TwentyMinutes)
      else if n == 1 then Some(SixtyMinutes)
      else if n == 2 then Some(Never)
      else None
    }

    function ToBits(): (b: bv8)
      ensures b & 0xCF == 0
      ensures FromBits(b) == this
    {
      Code() << 4
    }

    /** Decodes bits 4-5; the unused code 0b11 reads as TwentyMinutes. */
    static function FromBits(bits: bv8): (a: AutoOff)
      ensures bits & 0x30 != 0x30 ==> a.Code() << 4 == bits & 0x30
      ensures bits & 0x30 == 0x30 ==> a == TwentyMinutes
    {
      match OfCode((bits >> 4) & 0x3)
      case Some(x) => x
      case None => TwentyMinutes
    }
  }

  /** Which side the main speaker stands on. */
  datatype Orientation = MainIsRight | MainIsLeft {

    function Code(): bv8 {
      match this
      case MainIsRight => 0
      case MainIsLeft => 1
    }

    static function OfCode(n: bv8): (r: Option<Orientation>)
      ensures r.Some? <==> n <= 1
      ensures r.Some? ==> r.value.Code() == n
    {
      if n == 0 then Some(MainIsRight)
      else if n == 1 then Some(MainIsLeft)
      else None
    }

    function ToBits(): (b: bv8)
      ensures b & 0xBF == 0
      ensures FromBits(b) == this
    {
      Code() << 6
    }

    /** Decodes bit 6; the fallback arm of the source cannot be reached. */
    static function FromBits(bits: bv8): (o: Orientation)
      ensures o.Code() << 6 == bits & 0x40
    {
      match OfCode((bits >> 6) & 1)
      case Some(x) => x
      case None => assert false; MainIsRight
    }
  }

  /** Whether the device is on. */
  datatype Power = On | Off {

    function Code(): bv8 {
      match this
      case On => 0
      case Off => 1
    }

    static function OfCode(n: bv8): (r: Option<Power>)
      ensures r.Some? <==> n <= 1
      ensures r.Some? ==> r.value.Code() == n
    {
      if n == 0 then Some(On)
      else if n == 1 then Some(Off)
      else None
    }

    /** The other power state. */
    function Invert(): (p: Power)
      ensures p != this
    {
      match this
      case Off => On
      case On => Off
    }

    function ToBits(): (b: bv8)
      ensures b & 0x7F == 0
      ensures FromBits(b) == this
    {
      Code() << 7
    }

    /** Decodes bit 7; the fallback arm of the source cannot be reached. */
    static function FromBits(bits: bv8): (p: Power)
      ensures p.Code() << 7 == bits & 0x80
    {
      match OfCode((bits >> 7) & 1)
      case Some(x) => x
      case None => assert false; Off
    }
  }

  /** The four settings of the status register. */
  datatype Status = Status(power: Power, orientation: Orientation, source: Source, autoOff: AutoOff) {

    /** Packs the four fields, each at its own bit offset. */
    function ToBits(): (b: bv8)
      ensures b & 0x0F == source.ToBits()
      ensures b & 0x30 == autoOff.ToBits()
      ensures b & 0x40 == orientation.ToBits()
      ensures b & 0x80 == power.ToBits()
      ensures FromBits(b) == this
    {
      source.ToBits() | autoOff.ToBits() | orientation.ToBits() | power.ToBits()
    }

    /** Unpacks all four fields; never fails. Each field reads only its own bits. */
    static function FromBits(bits: bv8): (s: Status)
      ensures s.source == Source.FromBits(bits & 0x0F)
      ensures s.autoOff == AutoOff.FromBits(bits & 0x30)
      ensures s.orientation == Orientation.FromBits(bits & 0x40)
      ensures s.power == Power.FromBits(bits & 0x80)
    {
      Status(Power.FromBits(bits), Orientation.FromBits(bits), Source.FromBits(bits), AutoOff.FromBits(bits))
    }
  }

  /** A status byte that some Status encodes to: a defined source code and auto-off code. */
  predicate IsCanonical(bits: bv8) {
    bits & 0x0F in SourceCodes && bits & 0x30 != 0x30
  }

  lemma InvertInvolutive(p: Power)
    ensures p.Invert().Invert() == p
  {
  }

  /** Re-encoding a decoded byte gives the byte back exactly when the byte is canonical. */
  lemma ReencodeIdentity(bits: bv8)
    ensures Status.FromBits(bits).ToBits() == bits <==> IsCanonical(bits)
  {
  }

  /** The status bytes that encode some Status are exactly the canonical ones. */
  lemma EncodableIff(bits: bv8)
    ensures (exists s: Status :: s.ToBits() == bits) <==> IsCanonical(bits)
  {
    if IsCanonical(bits) {
      ReencodeIdentity(bits);
      assert Status.FromBits(bits).ToBits() == bits;
    } else {
      forall s: Status ensures s.ToBits() != bits {
        if s.ToBits() == bits {
          ReencodeIdentity(bits);
        }
      }
    }
  }

  /** Two statuses agree on a field exactly when their encodings agree on that field's bits. */
  lemma FieldsOwnTheirBits(s: Status, t: Status)
    ensures s.source == t.source <==> s.ToBits() & 0x0F == t.ToBits() & 0x0F
    ensures s.autoOff == t.autoOff <==> s.ToBits() & 0x30 == t.ToBits() & 0x30
    ensures s.orientation == t.orientation <==> s.ToBits() & 0x40 == t.ToBits() & 0x40
    ensures s.power == t.power <==> s.ToBits() & 0x80 == t.ToBits() & 0x80
  {
  }

  /** The mutation `set_source` applies: select `src` and power the device on. */
  function SelectSource(src: Source, s: Status): (t: Status)
    ensures t.source == src && t.power == On
    ensures t.orientation == s.orientation && t.autoOff == s.autoOff
  {
    s.(source := src, power := On)
  }

  /** The mutation behind the `toggle` command: flip power, keep the rest. */
  function Toggle(s: Status): (t: Status)
    ensures t.power != s.power && t.(power := s.power) == s
  {
    s.(power := s.power.Invert())
  }

  /** The address of the status register. */
  const StatusRegister: u8 := 0x30

  const GetStatusCommand: Frame := [0x47, 0x30, 0x80]

  function SetStatusCommand(bits: u8): Frame {
    [0x53, 0x30, 0x81, bits]
  }

  /** The status the device reports when its status register holds `b`. */
  function Decoded(b: u8): Status {
    Status.FromBits(Bits(b))
  }

  /** The wire byte that `set_status` writes for `s`. */
  function Encoded(s: Status): (b: u8)
    ensures Decoded(b) == s
  {
    Byte(s.ToBits())
  }

  /**
   * A read-modify-write whose mutation changes nothing rewrites the status
   * register with the byte it held exactly when that byte is canonical.
   */
  lemma RewriteKeepsRegister(bits: bv8)
    ensures Encoded(Decoded(Byte(bits))) == Byte(bits) <==> IsCanonical(bits)
  {
    ReencodeIdentity(bits);
  }

  /** `get_status`: read the status register and decode it. */
  method GetStatus(d: Device) returns (r: Result<Status>)
    modifies d
    ensures old(d.budget) == 0 ==> r.Err? && unchanged(d)
    ensures old(d.budget) > 0 ==>
      && r == Ok(Decoded(old(d.Register(StatusRegister))))
      && d.log == old(d.log) + [GetStatusCommand]
      && d.registers == old(d.registers)
      && d.budget == old(d.budget) - 1
  {
    var bytes :- d.Send(GetStatusCommand);
    var bits := bytes[3];
    return Ok(Status.FromBits(Bits(bits)));
  }

  /** `set_status`: encode `status` and write it to the status register. */
  method SetStatus(d: Device, status: Status) returns (r: Result<u8>)
    modifies d
    ensures old(d.budget) == 0 ==> r.Err? && unchanged(d)
    ensures old(d.budget) > 0 ==>
      && r == Ok(Encoded(status))
      && d.log == old(d.log) + [SetStatusCommand(Encoded(status))]
      && d.registers == old(d.registers)[StatusRegister := Encoded(status)]
      && d.budget == old(d.budget) - 1
  {
    var bits := Byte(status.ToBits());
    var _ :- d.Send(SetStatusCommand(bits));
    return Ok(bits);
  }

  /**
   * `change_status`: read the status, apply `f`, write the result back.
   * If the read fails nothing is written; if the write fails the read
   * has still happened.
   */
  method ChangeStatus(d: Device, f: Status -> Status) returns (r: Result<()>)
    modifies d
    ensures old(d.budget) == 0 ==> r.Err? && unchanged(d)
    ensures old(d.budget) == 1 ==>
      && r.Err?
      && d.log == old(d.log) + [GetStatusCommand]
      && d.registers == old(d.registers)
      && d.budget == 0
    ensures old(d.budget) >= 2 ==>
      var written := Encoded(f(Decoded(old(d.Register(StatusRegister)))));
      && r == Ok(())
      && d.log == old(d.log) + [GetStatusCommand, SetStatusCommand(written)]
      && d.registers == old(d.registers)[StatusRegister := written]
      && d.budget == old(d.budget) - 2
  {
    var status :- GetStatus(d);
    status := f(status);
    var _ :- SetStatus(d, status);
    return Ok(());
  }

  /**
   * `set_source`: select `src` through `change_status`, which also powers
   * the device on; orientation and auto-off are kept as read.
   */
  method SetSource(d: Device, src: Source) returns (r: Result<()>)
    modifies d
    ensures old(d.budget) == 0 ==> r.Err? && unchanged(d)
    ensures old(d.budget) == 1 ==>
      && r.Err?
      && d.log == old(d.log) + [GetStatusCommand]
      && d.registers == old(d.registers)
      && d.budget == 0
    ensures old(d.budget) >= 2 ==>
      var before := Decoded(old(d.Register(StatusRegister)));
      var written := Encoded(SelectSource(src, before));
      var after := Decoded(d.Register(StatusRegister));
      && r == Ok(())
      && after.source == src && after.power == On
      && after.orientation == before.orientation && after.autoOff == before.autoOff
      && d.log == old(d.log) + [GetStatusCommand, SetStatusCommand(written)]
      && d.registers == old(d.registers)[StatusRegister := written]
      && d.Register(StatusRegister) == written
      && d.budget == old(d.budget) - 2
  {
    var _ :- ChangeStatus(d, s => SelectSource(src, s));
    return Ok(());
  }
}
