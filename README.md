# WiiChuck driver model

A Dafny model of `WiiChuck`, the Arduino driver for a Wii Nunchuck: the
byte de-obfuscation, the reassembly of the 6-byte status frame over one or
more polls, the frame's unpacking into joystick bytes, 10-bit accelerometer
samples and active-low buttons, the joystick calibration, and the
digitisation queries. The I²C bus is not modelled. Each poll is given the
sequence of bytes the bus has ready during that call. The "request next
sample" write that follows a commit is counted in the ghost field
`requestsIssued`.

Layout:

- `codec.dfy`, module `NunchukCodec`: the pure byte-level part. It holds
  `DecodeByte` and its inverse `EncodeByte` on `bv8`, so the decoder's `+`
  wraps modulo 256 as a `byte` does. It also holds `Accumulate`, the effect
  of the receive loop on the status buffer, and the frame fields
  (`AccelSample`, `ZButtonFromFrame`, `CButtonFromFrame`).
- `wiichuck.dfy`, module `WiiChuckDriver`: the class `WiiChuck`, with the
  source's fields. `status` and `angles` are arrays updated in place. `Update`
  is the poll. Its receive loop is `ReceiveBytes`, its commit branch is
  `Commit`, and the commit's `for` loop is `UnpackAngles`. The queries
  (`ReadJoyX`, `GetJoyPosLR`, ...) are functions that read the object. The
  `JOY_POS` enum is the newtype `JoyPos` with its exact values: left and up
  are 1, right and down are -1, neutral is 0.
- `properties.dfy`, module `WiiChuckProperties`: properties spanning
  several calls. A frame split over two polls commits once. `zPressed`
  detects the rising edge across commits. The direction tests exclude each
  other.

The class keeps two ghost fields, `frame` and `committed`, recording the
last committed frame. Its invariant `ReflectsFrame` says that, once a frame
has been committed, the joystick bytes and the buttons are those of that
frame. The button queries and `ZPressed` are stated against that frame.

Two behaviours of the code worth noting:

- The code does not wrap the write position. A byte beyond the sixth in one
  frame is written past the end of `status`; it is not folded into a
  6-slot cycle.
- A poll that ends with fewer than six bytes still changes `status` and
  `cnt`. These bytes carry over, and a later poll completes the frame. Only
  the joystick, accelerometer, button and `last*` fields stay untouched.

## Model

| member | source | states |
|---|---|---|
| NunchukCodec.DecodeByte | WiiChuck.h:257-261 | the device's encoding step recovers the received byte from the decoded one |
| NunchukCodec.EncodeThenDecode | WiiChuck.h:257-261 | decoding undoes the encoding step, so with DecodeByte's contract the two are mutual inverses |
| NunchukCodec.DecodeIsBijection | WiiChuck.h:257-261 | every byte value is the decoding of exactly one received byte |
| NunchukCodec.DecodeByteTruncates | WiiChuck.h:259 | on integers the decoded byte is `((x xor 0x17) + 0x17) mod 256` |
| NunchukCodec.Accumulate | WiiChuck.h:132-140 | decoding a burst into the buffer keeps the buffer's six slots |
| NunchukCodec.AccumulateAt | WiiChuck.h:132-140 | after a burst, each slot from the write position on holds the decoding of the byte that arrived for it, and every other slot is unchanged |
| NunchukCodec.AccumulateConcat | WiiChuck.h:132-140 | two bursts leave the same buffer as their concatenation delivered at once, because the write position persists between polls |
| NunchukCodec.AccelSample | WiiChuck.h:150-153 | an accelerometer sample lies in 0..1023; its value div 4 is the high byte `status[axis+2]`; its value mod 4 is the bit pair of `status[5]` at position `2*(axis+1)` |
| NunchukCodec.ZButtonFromFrame | WiiChuck.h:155 | Z is pressed iff bit 0 of byte 5 is 0 (active-low) |
| NunchukCodec.CButtonFromFrame | WiiChuck.h:156 | C is pressed iff bit 1 of byte 5 is 0 (active-low) |
| WiiChuckDriver.WiiChuck.constructor | WiiChuck.h:78-99 | a fresh driver has every field zero, a 6-byte status buffer and 3 accelerometer samples |
| WiiChuckDriver.WiiChuck.Begin | WiiChuck.h:100-121 | after one poll from write position 0: the accelerometer samples are 0 and the joystick centre is 124/132; the write position is 0 if a whole frame arrived, else the number of bytes received; the joystick and button fields are committed from the frame iff it was complete; lastJoyX/lastJoyY are then the readings against the old centre, because the poll comes before the centre is reset; otherwise all last* fields are unchanged |
| WiiChuckDriver.WiiChuck.ResetDefaults | WiiChuck.h:116-120 | the three accelerometer samples are 0 and the joystick centre is 124/132 |
| WiiChuckDriver.WiiChuck.CalibrateJoy | WiiChuck.h:124-127 | the centre becomes the current joystick bytes, so ReadJoyX and ReadJoyY then read 0; nothing else changes |
| WiiChuckDriver.WiiChuck.Update | WiiChuck.h:129-159 | the burst is decoded into status from the old write position on. If old cnt + bytes reaches 6: cnt is 0; joyX/joyY are status[0]/[1]; angles are unpacked from the frame; the buttons come from byte 5; the last* fields hold the pre-call buttons and ReadJoyX/ReadJoyY; one sample request is issued. Otherwise: cnt advances and every other field is unchanged. The calibration never changes |
| WiiChuckDriver.WiiChuck.ReceiveBytes | WiiChuck.h:131-140 | the write position advances by the burst length, and status is the old buffer with the burst decoded into it from the old write position |
| WiiChuckDriver.WiiChuck.Commit | WiiChuck.h:141-158 | taken only when the write position is 6: cnt becomes 0; the joystick bytes, accelerometer samples and buttons are those of the frame in status, which becomes the committed frame; lastZ/lastC/lastJoyX/lastJoyY are the values before the call; one sample request is issued |
| WiiChuckDriver.WiiChuck.SnapshotLast | WiiChuck.h:142-145 | lastZ/lastC become the current buttons and lastJoyX/lastJoyY the current calibrated readings |
| WiiChuckDriver.WiiChuck.LoadFrame | WiiChuck.h:148-156 | joyX/joyY are bytes 0 and 1 of the frame, the samples are its 10-bit values and the buttons its active-low bits; the frame is recorded as committed |
| WiiChuckDriver.WiiChuck.UnpackAngles | WiiChuck.h:150-153 | each of the three samples is the frame's 10-bit value for its axis, so each lies in 0..1023 |
| WiiChuckDriver.WiiChuck.ReadAccelX | WiiChuck.h:161-164 | the X reading lies in -510..513 and is 0 iff the X sample is 510 |
| WiiChuckDriver.WiiChuck.ReadAccelY | WiiChuck.h:165-168 | the Y reading lies in -490..533 and is 0 iff the Y sample is 490 |
| WiiChuckDriver.WiiChuck.ReadAccelZ | WiiChuck.h:169-172 | the Z reading lies in -460..563 and is 0 iff the Z sample is 460 |
| WiiChuckDriver.WiiChuck.ZPressed | WiiChuck.h:174-176 | an edge implies Z is pressed; once a frame has been committed, an edge holds iff bit 0 of that frame's byte 5 is 0 and lastZ, the Z state before that commit, is false |
| WiiChuckDriver.WiiChuck.IsCbuttonPressed | WiiChuck.h:177-179 | once a frame has been committed, C reads pressed iff bit 1 of that frame's byte 5 is 0 |
| WiiChuckDriver.WiiChuck.IsZbuttonPressed | WiiChuck.h:180-182 | once a frame has been committed, Z reads pressed iff bit 0 of that frame's byte 5 is 0 |
| WiiChuckDriver.WiiChuck.IsJoyStickRight | WiiChuck.h:188-190 | right iff the stick byte exceeds the centre by more than thresh; never for thresh >= 255 |
| WiiChuckDriver.WiiChuck.IsJoyStickLeft | WiiChuck.h:193-195 | left iff the stick byte is below the centre by more than thresh; never for thresh >= 255; for thresh >= 0 it excludes right |
| WiiChuckDriver.WiiChuck.IsJoyStickUp | WiiChuck.h:198-200 | up iff the stick byte exceeds the centre by more than thresh; never for thresh >= 255; for thresh >= 0 it excludes down |
| WiiChuckDriver.WiiChuck.IsJoyStickDown | WiiChuck.h:203-205 | down iff the stick byte is below the centre by more than thresh; never for thresh >= 255 |
| WiiChuckDriver.WiiChuck.IsJoyPressed | WiiChuck.h:184-186 | the stick counts as pressed iff at least one of the two tri-state positions is not neutral |
| WiiChuckDriver.WiiChuck.GetJoyPosLR | WiiChuck.h:207-217 | left (1) iff ReadJoyX < -thresh; right (-1) iff ReadJoyX > thresh and not left; neutral (0) iff -thresh <= ReadJoyX <= thresh |
| WiiChuckDriver.WiiChuck.GetJoyPosUD | WiiChuck.h:219-229 | up (1) iff ReadJoyY > thresh; down (-1) iff ReadJoyY < -thresh and not up; neutral (0) iff -thresh <= ReadJoyY <= thresh |
| WiiChuckDriver.WiiChuck.ReadJoyX | WiiChuck.h:231-233 | the X offset lies in -255..255 and is 0 iff the stick byte equals the centre |
| WiiChuckDriver.WiiChuck.ReadJoyY | WiiChuck.h:235-237 | the Y offset lies in -255..255 and is 0 iff the stick byte equals the centre |
| WiiChuckProperties.SplitFrameCommitsOnce | WiiChuck.h:129-159 | a frame delivered as two bursts is committed exactly once; its decoded bytes land in slots 0..5; joyX/joyY are its decoded bytes 0 and 1; the last* fields hold the state before the first burst |
| WiiChuckProperties.ZPressedAfterCommit | WiiChuck.h:174-176 | after a commit, zPressed holds iff the new frame has Z pressed and Z was released before it |
| WiiChuckProperties.HeldZFiresOnce | WiiChuck.h:174-176 | two commits with Z held, after Z was released, make zPressed true after the first and false after the second |
| WiiChuckProperties.OppositeDirectionsExclusive | WiiChuck.h:188-205 | for thresh >= 0, left and right are never both reported, and neither are up and down |
| WiiChuckProperties.NegativeThresholdOverlaps | WiiChuck.h:188-229 | with threshold -1, a centred stick is reported in all four directions, and the tri-state queries return left and up |

## Left out

- The I²C transport (`Wire.begin`, `beginTransmission`, `write`/`send`, `requestFrom`, `available`, `read`/`receive`, `endTransmission`): this is hardware I/O. Each poll takes the available bytes as a parameter. `_send_zero` appears only as the ghost counter `requestsIssued`. The `0x40, 0x00` handshake in `begin` is not modelled.
- `readRoll` and `readPitch`: they use floating-point `atan2`/`acos`.
- `readAccelX/Y/Z` return `float` in the source. The model returns `int`, because the value is always a small integer.
- WiiChuckDriver.WiiChuck.Update: it requires `cnt + |bytes| <= 6`. The source writes past the end of `status` when more bytes arrive, which is undefined behaviour. `ReceiveBytes` and `Begin` carry the same requirement.
- `ReceiveBytes`, `Commit`, `SnapshotLast`, `LoadFrame`, `UnpackAngles` and `ResetDefaults` are steps of `Update` and `Begin`. The model splits them out to keep each proof small; the source has them inline.
- The threshold `thresh` is an unbounded integer here. In the source it is a C `int`, 16 bits on AVR, so `-thresh` at `INT_MIN` is undefined behaviour (WiiChuck.h:194, 204). Nothing in the driver depends on that case.
- `cnt` is a `byte` in the source and a `nat` here. Under the requirement above it never exceeds 6, so it never wraps.
- `averageCounter`, `total` and the commented-out averaging and `R()` code: they are unused or dead.
- The class field `i`: the source uses it as a loop index. The model uses a loop-local variable.
- The `#if ARDUINO` variants: they are build plumbing.
- The uninitialised-object state: the source has no constructor and no check that `begin` ran. The constructor models a statically allocated object, whose fields start at zero.
- Default arguments: the threshold defaults to 60 in the source. Here it is an explicit parameter, and the default is the constant `DefaultThreshold`.
