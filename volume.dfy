/**
 * The volume register: absolute and relative volume changes.
 *
 * Arithmetic is on `u8` and `i8`, whose range checks stand for the
 * overflow panics of the original: Dafny refuses an operation whose
 * result would leave the type.
 */
module Volume {
  import opened Wire
  import opened Client

  /** The address of the volume register. */
  const VolumeRegister: u8 := 0x25

  /** The largest volume the device accepts. */
  const MaxVolume: u8 := 100

  const GetVolumeCommand: Frame := [0x47, 0x25, 0x80]

  function SetVolumeCommand(volume: u8): Frame {
    [0x53, 0x25, 0x81, volume]
  }

  /** `cmp::min` on bytes. */
  function Min(a: u8, b: u8): u8 {
    if a <= b then a else b
  }

  /** How far apart two volumes are. */
  function Distance(a: u8, b: u8): nat {
    if a <= b then (b - a) as nat else (a - b) as nat
  }

  /**
   * `volume.clamp(0, 100)`: the permitted volume nearest to `volume`. An
   * unsigned byte is never below the lower bound, so only the upper one acts.
   */
  function Clamp(volume: u8): (c: u8)
    ensures c <= MaxVolume
    ensures volume <= MaxVolume ==> c == volume
    ensures forall w: u8 :: w <= MaxVolume ==> Distance(volume, c) <= Distance(volume, w)
  {
    if volume > MaxVolume then MaxVolume else volume
  }

  lemma ClampIdempotent(volume: u8)
    ensures Clamp(Clamp(volume)) == Clamp(volume)
  {
  }

  /**
   * When the step of `change_volume` is free of overflow: negating
   * `amount` overflows for -128, and `100 - current` underflows for a
   * current volume above 100 when `amount` is not negative.
   */
  predicate StepDefined(current: u8, amount: i8) {
    amount != -128 && (amount < 0 || current <= MaxVolume)
  }

  /**
   * The new volume `change_volume` computes: `amount` added to `current`,
   * saturating at 0 below and, for a non-negative amount, at 100 above.
   */
  function Stepped(current: u8, amount: i8): (v: u8)
    requires StepDefined(current, amount)
    ensures amount >= 0 ==>
      v as int == if current as int + amount as int <= 100 then current as int + amount as int else 100
    ensures amount < 0 ==>
      v as int == if current as int + amount as int >= 0 then current as int + amount as int else 0
    ensures current <= MaxVolume ==> v <= MaxVolume
  {
    if amount < 0 then
      current - Min((-amount) as u8, current)
    else
      current + Min(amount as u8, MaxVolume - current)
  }

  /** A step that did not saturate is undone by the opposite step. */
  lemma SteppedBack(current: u8, amount: i8)
    requires current <= MaxVolume && amount != -128
    requires 0 <= current as int + amount as int <= 100
    ensures StepDefined(Stepped(current, amount), -amount)
    ensures Stepped(Stepped(current, amount), -amount) == current
  {
  }

  /**
   * From a volume above 100 a small decrease yields a value above 100:
   * `change_volume` returns it, while the byte it writes is clamped to 100.
   */
  lemma OverRangeResultNotWritten(current: u8, amount: i8)
    requires current > MaxVolume && amount < 0 && amount != -128
    requires current as int + amount as int > 100
    ensures Stepped(current, amount) > MaxVolume
    ensures Clamp(Stepped(current, amount)) == MaxVolume != Stepped(current, amount)
  {
  }

  /** `get_volume`: the volume register as the device reports it, unclamped. */
  method GetVolume(d: Device) returns (r: Result<u8>)
    modifies d
    ensures old(d.budget) == 0 ==> r.Err? && unchanged(d)
    ensures old(d.budget) > 0 ==>
      && r == Ok(old(d.Register(VolumeRegister)))
      && d.log == old(d.log) + [GetVolumeCommand]
      && d.registers == old(d.registers)
      && d.budget == old(d.budget) - 1
  {
    var bytes :- d.Send(GetVolumeCommand);
    return Ok(bytes[3]);
  }

  /** `set_volume`: clamp `volume`, write it, and return what was written. */
  method SetVolume(d: Device, volume: u8) returns (r: Result<u8>)
    modifies d
    ensures old(d.budget) == 0 ==> r.Err? && unchanged(d)
    ensures old(d.budget) > 0 ==>
      && r == Ok(Clamp(volume))
      && d.log == old(d.log) + [SetVolumeCommand(Clamp(volume))]
      && d.registers == old(d.registers)[VolumeRegister := Clamp(volume)]
      && d.budget == old(d.budget) - 1
  {
    var corrected := Clamp(volume);
    var _ :- d.Send(SetVolumeCommand(corrected));
    return Ok(corrected);
  }

  /**
   * `change_volume`: read the volume, step it by `amount`, write it back
   * through `set_volume`, and return the stepped value. From a volume of
   * at most 100 the returned value is the byte written; from a higher one
   * the write is clamped but the returned value is not.
   */
  method ChangeVolume(d: Device, amount: i8) returns (r: Result<u8>)
    requires d.budget > 0 ==> StepDefined(d.Register(VolumeRegister), amount)
    modifies d
    ensures old(d.budget) == 0 ==> r.Err? && unchanged(d)
    ensures old(d.budget) == 1 ==>
      && r.Err?
      && d.log == old(d.log) + [GetVolumeCommand]
      && d.registers == old(d.registers)
      && d.budget == 0
    ensures old(d.budget) >= 2 ==>
      var current := old(d.Register(VolumeRegister));
      var stepped := Stepped(current, amount);
      && r == Ok(stepped)
      && d.log == old(d.log) + [GetVolumeCommand, SetVolumeCommand(Clamp(stepped))]
      && d.registers == old(d.registers)[VolumeRegister := Clamp(stepped)]
      && d.budget == old(d.budget) - 2
      && (current <= MaxVolume ==> Clamp(stepped) == stepped <= MaxVolume)
  {
    var volume :- GetVolume(d);
    volume := Stepped(volume, amount);
    var _ :- SetVolume(d, volume);
    return Ok(volume);
  }
}
