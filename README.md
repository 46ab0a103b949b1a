# rfid-util firmware, modelled in Dafny

rfid-util is Arduino firmware for an MFRC522 contactless-card reader. It sits on a
serial link to a host. Each pass of `loop` reads one byte from the link. The
characters `1`, `2`, `3` and `9` start one operation each:

- `1`: read the card's UID (`uid_read`).
- `2`: the UID write. It only selects the card (`uid_write`).
- `3`: dump the card (`card_dump`). This tries each known key with `try_key`, which
  authenticates and reads blocks 0 .. 63 and prints a `Block NN:` line for each
  block that reads.
- `9`: print the version string (`version_check`).

Any other byte does nothing, and so does "no byte available" (`-1`).

The model has six modules:

- `Wrappers` (wrappers.dfy): the `Option` datatype.
- `Format` (format.dfy): Arduino's `byte`, the ` %02X` items of `dump_byte_array`
  and the `%02d` block number. It also has a parser that proves the hex dump can
  be read back.
- `Device` (device.dfy): the card in front of the reader, seen as an oracle, and
  the log of device calls. The oracle says whether the card selects, what each
  key/block authentication answers, what each read answers and what the block
  holds. Diagnostic strings are opaque functions. The log records
  `PICC_ReadCardSerial`, `PCD_Authenticate`, `MIFARE_Read`, `PICC_HaltA` and
  `PCD_StopCrypto1`, in order.
- `KeySweep` (sweep.dfy): specification functions for what one `try_key` prints
  and calls, and for what the key loop of `card_dump` does over several keys. It
  also holds the lemmas about the order of calls, early exit, cleanup and dump
  lines.
- `Behaviour` (behaviour.dfy): a snapshot `State` of the globals together with
  the serial lines and device calls. Each operation has an effect function on
  that snapshot. This module also holds `loop`'s dispatch.
- `Firmware` (firmware.dfy): class `RfidUtil`, whose fields are the globals
  `buffer`, `uid`, `uid_size`, `status` and `cmd`, plus the serial output. The
  output is the completed lines and the line being printed. The C functions
  become methods with the source's loops:
  - the `i` loop of `dump_byte_array`;
  - the `block` loop of `try_key`, with its early return;
  - the `k` loop of `card_dump`, with its `break`, and the `i` key-copy loop.

  `TryKey`, `ReadBlock`, `EndSweep`, `UidRead`, `UidWrite`, `CardDump`,
  `VersionCheck` and `Loop` are each proved to produce
  `Snap() == XEffect(old(Snap()), ...)`, the effect function of their
  operation. `TryKnownKeys` is proved to produce `Trials` over all known keys.
  `AuthenticateBlock` produces the failure effect when the authentication
  fails, and otherwise only logs the call and sets `status`. `PrintCard` and
  `DumpByteArray` state the lines or the pending text they print. `CopyKey`
  states the key it builds. The device methods state the oracle's answer and
  the logged call.

`Serial.print` appends to the line being printed and `Serial.println` completes
it. A command runs from one line start to the next, because every operation ends
its output with `println`. On the wire each line is followed by CR LF.

## Notes on the code

- A command is the one value that `Serial.read()` returns (src/main.cpp:188).
  There is no framing, no terminator on input, no argument byte and no
  acknowledgement line.
- No operation prints a final status line after it finishes.
- `try_key` halts the card and stops crypto only after all 64 blocks. The early
  return on a failed authentication skips both calls (src/main.cpp:73).
- A failed `MIFARE_Read` does not stop the sweep. It prints a diagnostic and the
  loop goes on (src/main.cpp:79-83).
- `uid_write` does not halt the card. It returns after the select.
- `try_key` always returns false, because its `result = true` is commented out.
  So `card_dump` never takes its `break` and tries every known key.
- The operations wait for a card to appear (src/main.cpp:108-109 and the like).
  The model takes the card as present and keeps the select's outcome.

## Model

| member | source | states |
|---|---|---|
| Format.HexByte | src/main.cpp:49 | `%02X` of a byte is two upper-case hex digits whose value is the byte |
| Format.HexItems | src/main.cpp:45-51 | the dump of n bytes is exactly 3n characters |
| Format.HexItemsAt | src/main.cpp:47-50 | item i of the dump sits at characters 3i .. 3i+2: a space and the two hex digits of byte i, in buffer order |
| Format.ParseHexItems | src/main.cpp:45-51 | reading back ` HH` items consumes three characters per byte |
| Format.ParseHexItemsRoundTrip | src/main.cpp:45-51 | the dump can be read back into the same bytes, so distinct byte arrays give distinct text |
| Format.Dec2 | src/main.cpp:93 | `%02d` of a block below 100 is two decimal digits whose value is the block |
| Device.AuthBlocksAppend | src/main.cpp:68 | the blocks authenticated in two stretches of calls are those of the first, then those of the second |
| Device.ReadBlocksAppend | src/main.cpp:78 | the blocks read in two stretches of calls are those of the first, then those of the second |
| Device.AuthKeysAtAppend | src/main.cpp:68 | the keys tried on a block in two stretches of calls are those of the first, then those of the second |
| Device.CountAppend | src/main.cpp:99-100 | occurrences of a call in two stretches of calls add up |
| KeySweep.FirstAuthFailure | src/main.cpp:64-74 | the block at which try_key stops: every block before it authenticates, and it fails unless it is 64 |
| KeySweep.FirstAuthFailureIs | src/main.cpp:64-74 | a block that all earlier blocks pass and that fails itself is the stopping block |
| KeySweep.SweepBuffer | src/main.cpp:77-78 | the buffer keeps 18 bytes; in this model reading blocks never writes its last two (see Firmware.RfidUtil.MifareRead under Left out) |
| KeySweep.LastRead | src/main.cpp:78-79 | the last block below k that read, and no later block below k read; or none read |
| KeySweep.SweepBufferHolds | src/main.cpp:77-96 | after a sweep, buffer[0..16) holds the data of the last block that read, or is unchanged when none read |
| KeySweep.SweepLinesAt | src/main.cpp:76-96 | the sweep over blocks 0 .. k-1 prints k lines, line b being block b's line |
| KeySweep.TryKeyLinesShape | src/main.cpp:64-98 | try_key prints one line per authenticated block, in block order, then the authentication failure or the empty line |
| KeySweep.LineKinds | src/main.cpp:71-93 | dump lines start with `Block `; the two failure diagnostics and the closing empty line do not |
| KeySweep.TryKeyDumpLines | src/main.cpp:77-96 | a `Block NN:` line appears exactly for the blocks that authenticated and read, at their own position and with their 16 data bytes; a failed read prints `MIFARE_Read() failed:` and the sweep goes on |
| KeySweep.SweepAuthBlocks | src/main.cpp:64-68 | the sweep over k authenticated blocks authenticates blocks 0 .. k-1 in order |
| KeySweep.SweepReadBlocks | src/main.cpp:64-78 | the sweep over k authenticated blocks reads blocks 0 .. k-1 in order |
| KeySweep.SweepAuthKeys | src/main.cpp:68 | the sweep tries its key once on each block below k and on no other |
| KeySweep.SweepNoCleanup | src/main.cpp:64-97 | the block loop never halts the card or stops crypto |
| KeySweep.TryKeyTailLog | src/main.cpp:69-100 | after the block loop, try_key authenticates only the failing block, reads nothing, and calls HaltA and StopCrypto1 once each exactly when all 64 blocks authenticated |
| KeySweep.TryKeyAuthOrder | src/main.cpp:64-74 | try_key authenticates blocks 0, 1, 2, ... strictly increasing, up to and including the first failure, never past 63 |
| KeySweep.TryKeyReadOrder | src/main.cpp:64-97 | try_key reads exactly blocks 0 .. n-1, n the stopping block: nothing after a failed authentication, and every authenticated block even after a failed read |
| KeySweep.TryKeyCleanup | src/main.cpp:69-100 | HaltA and StopCrypto1 are called once each, as the last two calls, iff all 64 blocks authenticate; otherwise neither is called and the last call is the failing authentication |
| KeySweep.TryKeyFirstBlockKeys | src/main.cpp:64-68 | one try_key tries its key on block 0 exactly once |
| KeySweep.TrialBuffer | src/main.cpp:162-176 | the buffer keeps 18 bytes across the key loop |
| KeySweep.TrialKeysInOrder | src/main.cpp:162-176 | the key loop tries on block 0 exactly the given keys, in index order, each once |
| Behaviour.UidReadEffect | src/main.cpp:104-124 | uid_read prompts and selects; without a select, uid and uid_size are unchanged; with one, uid_size is the card's UID size, uid[0..uid_size) is its UID and the rest of uid is kept, and the UID and type lines are printed |
| Behaviour.UidWriteEffect | src/main.cpp:126-139 | uid_write prompts and selects, and changes nothing else |
| Behaviour.TryKeyEffect | src/main.cpp:60-102 | try_key leaves uid, uid_size and cmd alone |
| Behaviour.SweepEffect | src/main.cpp:64-97 | the state at the head of try_key's loop keeps `buffer` and `uid` at their sizes |
| Behaviour.ReadEffect | src/main.cpp:76-96 | reading a block keeps `buffer` and `uid` at their sizes |
| Behaviour.BlockEffect | src/main.cpp:64-97 | one pass over an authenticated block keeps `buffer` and `uid` at their sizes |
| Behaviour.SweepEffectStep | src/main.cpp:64-97 | one more pass of try_key's loop over an authenticated block is one authentication and one read |
| Behaviour.TryKeyStops | src/main.cpp:68-74 | try_key after a failed authentication on block b is the sweep up to b plus that failure's line and call |
| Behaviour.TryKeyCompletes | src/main.cpp:98-101 | try_key after all 64 blocks is the sweep plus the empty line, HaltA and StopCrypto1 |
| Behaviour.Trials | src/main.cpp:162-176 | the key loop leaves uid, uid_size and cmd alone |
| Behaviour.TrialsSnoc | src/main.cpp:162-176 | trying one more key is one more try_key on the state so far |
| Behaviour.CardDumpEffect | src/main.cpp:141-177 | without a select card_dump prompts, selects and stops; with one it prints the card and runs the key loop over all known keys |
| Behaviour.CardDumpKeys | src/main.cpp:149-176 | card_dump's calls extend the log and try on block 0 exactly the known keys in index order after a select, and no key without one |
| Behaviour.VersionCheckEffect | src/main.cpp:179-181 | version_check prints `rfid-util-1` and changes nothing else |
| Behaviour.CommandChar | src/main.cpp:190-211 | each operation has a command character that dispatches to it |
| Behaviour.CommandCharUnique | src/main.cpp:190-211 | that character is the only one dispatching to the operation |
| Behaviour.CommandOf | src/main.cpp:188 | `cmd` is the byte read, and 255 when no byte is available |
| Behaviour.LoopEffect | src/main.cpp:186-214 | loop: an unrecognised byte changes only `cmd`; `9` adds just the version line; `1`, `2`, `3` print their header and the prompt and select first; `buffer` and `status` change only on `3`, `uid` and `uid_size` only on `1` |
| Behaviour.NoByteNoEffect | src/main.cpp:188-211 | with no byte available nothing but `cmd` changes |
| Behaviour.VersionCheckRepeats | src/main.cpp:208-211 | two version checks print the same line twice and change nothing else |
| Firmware.RfidUtil.constructor | src/main.cpp:10-43 | the globals start zeroed and the menu is printed |
| Firmware.RfidUtil.SerialPrint | src/main.cpp:71 | `Serial.print` extends the line being printed |
| Firmware.RfidUtil.SerialPrintln | src/main.cpp:72 | `Serial.println` completes the line being printed |
| Firmware.RfidUtil.PiccReadCardSerial | src/main.cpp:112 | the select answers as the card does and is logged |
| Firmware.RfidUtil.PcdAuthenticate | src/main.cpp:68 | authentication with key A answers as the card does and is logged |
| Firmware.RfidUtil.MifareRead | src/main.cpp:77-78 | a read that succeeds puts the block's 16 bytes in buffer[0..16) and keeps buffer[16..18); a failed read leaves buffer as it was |
| Firmware.RfidUtil.PiccHaltA | src/main.cpp:99 | the halt is logged |
| Firmware.RfidUtil.PcdStopCrypto1 | src/main.cpp:100 | the stop-crypto is logged |
| Firmware.RfidUtil.DumpByteArray | src/main.cpp:45-51 | the loop prints exactly the ` %02X` items of the first bufferSize bytes, in order |
| Firmware.RfidUtil.TryKey | src/main.cpp:60-102 | try_key always returns false and has exactly try_key's specified effect on globals, lines and calls |
| Firmware.RfidUtil.AuthenticateBlock | src/main.cpp:68-74 | status is the authentication's answer; on failure its line is printed |
| Firmware.RfidUtil.ReadBlock | src/main.cpp:76-96 | reading a block has ReadEffect: buffer, status, the block's line and the logged read |
| Firmware.RfidUtil.EndSweep | src/main.cpp:98-100 | the empty line, then HaltA and StopCrypto1 |
| Firmware.RfidUtil.PrintCard | src/main.cpp:116-121 | prints `Card UID:` with the UID dump, then `PICC type: ` with the type name |
| Firmware.RfidUtil.UidRead | src/main.cpp:104-124 | uid_read has UidReadEffect, the memcpy included |
| Firmware.RfidUtil.UidWrite | src/main.cpp:126-139 | uid_write has UidWriteEffect |
| Firmware.RfidUtil.CardDump | src/main.cpp:141-177 | card_dump has CardDumpEffect |
| Firmware.RfidUtil.TryKnownKeys | src/main.cpp:160-176 | the key loop's effect is that of trying every known key in order |
| Firmware.RfidUtil.CopyKey | src/main.cpp:165-168 | the MIFARE key equals knownKeys[k] byte for byte |
| Firmware.RfidUtil.VersionCheck | src/main.cpp:179-181 | version_check has VersionCheckEffect |
| Firmware.RfidUtil.Loop | src/main.cpp:186-214 | one pass of loop has LoopEffect |

## Left out

- The rest of `setup()`: `Serial.begin`, `SPI.begin` and `PCD_Init` configure hardware. The constructor only zeroes the globals and prints the menu.
- The busy-wait `while (!PICC_IsNewCardPresent()) delay(50);` loops and the `delay(50)` at the end of `loop`. They wait on hardware and time. The model takes the card as present once the wait ends.
- The internals of the MFRC522 library are not modelled; its answers come from the card oracle. The strings from `GetStatusCodeName` and `PICC_GetTypeName` are opaque, and `PICC_GetType` is folded into the type name of the SAK byte.
- The card oracle is static: an authentication's answer does not depend on earlier calls, crypto state or a halted card.
- `Card.readStatus` and `Card.data` ignore the key the block was authenticated with. On a MIFARE Classic card, the sector's access bits decide whether a read with that key is allowed. The model does not capture this dependence.
- Firmware.RfidUtil.MifareRead: does not model the two CRC bytes that `MIFARE_Read` writes to buffer[16..18), or partial writes on failure. The oracle library is not part of this model, so a successful read leaves those two bytes as they were and a failed read leaves the buffer unchanged.
- The UID change of `uid_write` is a TODO in the source and is not modelled.
- app/rfid-util/main.py, the Qt host application, is not part of this model.
- The unused globals `block` and `key` (src/main.cpp:11, 14) are not modelled; the locals of `try_key` and `card_dump` shadow them.
- CR LF line endings on the wire are not modelled; output is kept as lines.
- `Serial.read()` is a parameter of `Loop`: the value read, -1 when no byte is available.
