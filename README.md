# kefir status and volume core, in Dafny

This project models the protocol core of `kefir`, a command-line client for a network-attached speaker. Two pieces are modelled:

- **Status register.** One device byte packs four settings: input source (bits 0-3), auto-off timer (bits 4-5), speaker orientation (bit 6) and power (bit 7). The model covers the codec between that byte and a `Status` record. It also covers the read-modify-write operations that change the byte: `get_status`, `set_status`, `change_status` and `set_source`.
- **Volume register.** `get_volume`; `set_volume`, which clamps to 0..100; and `change_volume`, which adds a signed delta with saturation.

Modules:

- `Wire` (`wire.dfy`): the machine integers `u8` and `i8`, frames, the 8-byte reply, and the `Result` type that `?` works on (here `:-`). Bytes are `u8`, a newtype over `int`. Arithmetic on them is range-checked, so Rust's overflow panics become proof obligations.
- `Client` (`client.rs` stand-in): the stream and the device behind it, as one class `Device`. It has:
  - the device's registers, a map from address to byte;
  - `budget`, the number of exchanges that still succeed before the connection fails;
  - `log`, every command frame the client has sent, in order.

  `Send` is one exchange. A get frame `[0x47, a, 0x80]` reports register `a` at reply offset 3. A set frame `[0x53, a, 0x81, v]` stores `v` in register `a` and reports it at offset 3. All other reply bytes are 0. `Obey` and `Answer` are the device's side of this, not part of the client.
- `Status` (`status.rs`): the four settings, each with its discriminant (`Code`), the derived `from_u8` (`OfCode`), and `ToBits`/`FromBits`. The codec works on `bv8`, so the masks, shifts and ORs are the source's own. Also here: `Status` itself, the mutators, and the four exchange methods.
- `Volume` (`volume.rs`): `Clamp`, the saturating step `Stepped`, and the three exchange methods.

The protocol documentation states two things the code does not do. The model follows the code:

- **`change_volume` result range.** The documentation states that the relative change "never produces a result outside [0,100]". The result only stays in range when the device reports at most 100. From a higher reading, the code:
  - returns a value above 100 for a small decrease (`OverRangeResultNotWritten`);
  - overflows on `100 - volume` for a non-negative delta (a precondition here).
- **Orientation and power fallbacks.** The documentation states that "unrecognized orientation/power bits fall back to MainIsRight/Off respectively". The code has those match arms, but a one-bit field has no undefined value, so the arms can never be reached. The model keeps them and proves them unreachable with `assert false`.

## Model

| member | source | states |
|---|---|---|
| Client.Device.Send | src/client.rs:3-9 | One exchange: the command is appended to the log and an 8-byte reply comes back. A failed connection changes nothing and returns an error. |
| Status.Source.OfCode | src/status.rs:12-20 | The derived conversion knows exactly the six source codes 0b0010, 0b1100, 0b1001, 0b1111, 0b1010, 0b1011, and returns the variant with that discriminant. The discriminants are `Source.Code` (src/status.rs:14-19). |
| Status.Source.ToBits | src/status.rs:23-25 | A source's bits lie in the low nibble only, and decoding them gives the same source back. |
| Status.Source.FromBits | src/status.rs:27-32 | A low nibble that is a source code decodes to that source. Any other nibble falls back to Optical. |
| Status.Source.Name | src/status.rs:35-45 | The display name is "Bluetooth" exactly for the two Bluetooth variants. |
| Status.AutoOff.OfCode | src/status.rs:48-53 | The derived conversion knows exactly the codes 0, 1, 2, and returns the variant with that discriminant. The discriminants are `AutoOff.Code` (src/status.rs:50-52). |
| Status.AutoOff.FromBits | src/status.rs:56-61 | Bits 4-5 decode to the timer with that code. The unused code 0b11 falls back to TwentyMinutes. |
| Status.AutoOff.ToBits | src/status.rs:63-65 | The timer's bits lie in bits 4-5 only, and decoding them gives the same timer back. |
| Status.Orientation.OfCode | src/status.rs:79-83 | The derived conversion knows exactly the codes 0 and 1, and returns the variant with that discriminant. The discriminants are `Orientation.Code` (src/status.rs:81-82). |
| Status.Orientation.FromBits | src/status.rs:86-91 | Bit 6 decides the orientation. The fallback arm is proved unreachable. |
| Status.Orientation.ToBits | src/status.rs:93-95 | The orientation's bit lies in bit 6 only, and decoding it gives the same orientation back. |
| Status.Power.OfCode | src/status.rs:108-112 | The derived conversion knows exactly the codes 0 and 1, and returns the variant with that discriminant. The discriminants are `Power.Code` (src/status.rs:110-111). |
| Status.Power.Invert | src/status.rs:115-120 | Inverting never returns its argument. |
| Status.InvertInvolutive | src/status.rs:115-120 | Inverting twice gives the argument back. |
| Status.Power.FromBits | src/status.rs:124-129 | Bit 7 decides the power state. The fallback arm is proved unreachable. |
| Status.Power.ToBits | src/status.rs:131-133 | The power bit lies in bit 7 only, and decoding it gives the same state back. |
| Status.Status.FromBits | src/status.rs:155-162 | Decoding is total, and each field depends only on its own bits: source on 0-3, auto-off on 4-5, orientation on 6, power on 7. |
| Status.Status.ToBits | src/status.rs:163-168 | Each field's bits in the packed byte are that field's own encoding, and decoding the byte gives the same Status back (round trip). |
| Status.FieldsOwnTheirBits | src/status.rs:163-168 | Two statuses agree on a field exactly when their encodings agree on that field's bits. So changing one field changes only its bits. |
| Status.ReencodeIdentity | src/status.rs:155-168 | Re-encoding a decoded byte gives the byte back exactly when the low nibble is a source code and bits 4-5 are not 0b11. |
| Status.EncodableIff | src/status.rs:155-168 | A byte is the encoding of some Status exactly when it is canonical (a source code in bits 0-3 and an auto-off code in bits 4-5). |
| Status.Encoded | src/status.rs:196 | The wire byte written for a Status decodes back to that Status. |
| Status.SelectSource | src/status.rs:182-185 | The mutation of `set_source`: the source becomes the chosen one and power becomes On. Orientation and auto-off are kept. |
| Status.Toggle | src/main.rs:29-31 | The toggle mutator flips power and leaves the other three fields alone. |
| Status.GetStatus | src/status.rs:189-193 | Sends `[0x47,0x30,0x80]` and returns the decoded status register. No register changes. On a failed exchange it returns an error and nothing changes. |
| Status.SetStatus | src/status.rs:195-199 | Sends `[0x53,0x30,0x81,b]`, where b encodes the status. Returns b. The status register becomes b. |
| Status.ChangeStatus | src/status.rs:171-179 | Sends the get frame, then the set frame carrying the encoding of `f` applied to the decoded reply, and stores that byte. If the get fails, no set frame is sent. If the set fails, the get still happened. |
| Status.RewriteKeepsRegister | src/status.rs:171-179 | Suppose `change_status` runs with a mutation that changes nothing. It writes back the byte it read exactly when that byte is canonical. Otherwise it normalises the undefined source or auto-off bits. |
| Status.SetSource | src/status.rs:181-187 | After success, the status register holds exactly the byte sent in the set frame, the encoding of `SelectSource` applied to the status read. That byte decodes to the chosen source with power On. Orientation and auto-off are as read before. Both frames are logged, no other register changes, and two exchanges are used up. If the set exchange fails, only the get frame is logged, no register changes and the connection is left failed. |
| Volume.Clamp | src/volume.rs:24 | The result is at most 100, equals the input when the input is at most 100, and is the permitted volume nearest to the input. |
| Volume.ClampIdempotent | src/volume.rs:24 | Clamping twice is clamping once. |
| Volume.Stepped | src/volume.rs:9-13 | For a non-negative delta the result is min(current + amount, 100). For a negative delta it is max(current + amount, 0). From a volume of at most 100 the result is at most 100. Requires `StepDefined`: the delta is not -128 (the negation on line 10 would overflow), and the volume is at most 100 when the delta is not negative (`100 - volume` on line 12 would underflow). The body uses `Min`, the model of `cmp::min`. |
| Volume.SteppedBack | src/volume.rs:9-13 | A step that did not saturate is undone by the opposite step. |
| Volume.OverRangeResultNotWritten | src/volume.rs:14-15 | From a volume above 100, a small decrease gives a value above 100, while the byte written is clamped to 100. |
| Volume.GetVolume | src/volume.rs:18-21 | Sends `[0x47,0x25,0x80]` and returns the volume register unclamped. No register changes. |
| Volume.SetVolume | src/volume.rs:23-27 | Sends `[0x53,0x25,0x81,c]` with c = Clamp(v), returns c, and the volume register becomes c. |
| Volume.ChangeVolume | src/volume.rs:7-16 | Sends the get frame, then the set frame carrying the clamped stepped value, and returns the stepped value. From a volume of at most 100 the returned value is the byte sent and lies in [0,100]. A failed get sends nothing more. |

## Left out

- The TCP connection (`TcpStream::connect` to a fixed address, `shutdown`) and the blocking write and read. They are replaced by the abstract `Device`.
- Partial writes and short reads of `send`. The model assumes every write and read completes. So it does not show what the code does on a short read: `bytes[3]` keeps the 0 it was initialised with (src/client.rs:4-6). A failed exchange is modelled as a failure before anything is written.
- What the device does with a frame beyond the protocol table: reply bytes other than offset 3 are zero in the model. The client reads nothing else.
- The logging `println!` in `send`. It is output only.
- Command-line parsing and the verb table in `src/main.rs`, including the `panic!` on unknown auto-off and orientation tokens, the "Unknown command" message, and all printing. This is user-interface glue. Only the toggle mutator is modelled, as an example of a closure passed to `change_status`.
- The `Display` implementations of `AutoOff`, `SpeakerOrientation` and `Power`. They only format strings. `Source`'s names are modelled, because both Bluetooth variants share one.
- Volume.Stepped: an `amount` of -128 is excluded by its precondition, not modelled as a wrap-around. Rust's debug build panics on that negation, and a release build would wrap.
- Concurrent changes to the device between the read and the write of a read-modify-write. Each invocation is single-threaded, and the protocol has no conditional write.
