/** The firmware of src/main.cpp: its globals as the fields of one object, its
    functions as methods over them. Serial output is kept as the lines sent so
    far and the line being printed; the calls into the MFRC522 library that
    touch the card are logged in `calls` and answered by the card presented
    during the command. */
module Firmware {
  import opened Format
  import opened Device
  import opened KeySweep
  import opened Behaviour

  class RfidUtil {
    const buffer: array<byte>  // byte buffer[18]
    const uid: array<byte>     // byte uid[10]
    var uidSize: byte          // uid_size
    var status: StatusCode     // MFRC522::StatusCode status
    var cmd: char              // char cmd
    var lines: seq<string>     // the lines sent over Serial so far
    var pending: string        // the line Serial is in the middle of
    ghost var calls: seq<Call> // every call into the device so far

    ghost predicate Valid()
    {
      buffer.Length == 18 && uid.Length == 10 && buffer != uid
    }

    /** Between operations no line is half printed: each ends with println. */
    predicate AtLineStart()
      reads this
    {
      pending == ""
    }

    ghost function Snap(): (s: State)
      reads this, buffer, uid
      requires Valid()
      ensures Wf(s)
    {
      State(buffer[..], uid[..], uidSize, status, cmd, lines, calls)
    }

    /** setup: the globals start zeroed, as C globals do, and the menu is
        printed. */
    constructor ()
      ensures Valid() && AtLineStart() && fresh(buffer) && fresh(uid)
      ensures Snap() == State(seq(18, _ => 0), seq(10, _ => 0), 0, StatusOk, 0 as char, Menu, [])
    {
      buffer := new byte[18](_ => 0);
      uid := new byte[10](_ => 0);
      uidSize, status, cmd, calls := 0, StatusOk, 0 as char, [];
      lines, pending := [], "";
      new;
      SerialPrintln("1. Read UID");
      SerialPrintln("2. Write UID");
      SerialPrintln("3. Dump data");
    }

    // ----- the serial link -----

    method SerialPrint(text: string)
      modifies this`pending
      ensures pending == old(pending) + text
      ensures old(pending) == "" ==> pending == text
    {
      assert "" + text == text;
      pending := pending + text;
    }

    method SerialPrintln(text: string)
      modifies this`lines, this`pending
      ensures lines == old(lines) + [old(pending) + text] && pending == ""
      ensures old(pending) == "" ==> lines == old(lines) + [text]
    {
      assert "" + text == text;
      lines := lines + [pending + text];
      pending := "";
    }

    // ----- the device -----

    method PiccReadCardSerial(card: Card) returns (selected: bool)
      modifies this`calls
      ensures selected == card.selects && calls == old(calls) + [ReadCardSerial]
    {
      calls := calls + [ReadCardSerial];
      selected := card.selects;
    }

    method PcdAuthenticate(block: nat, key: Key, card: Card) returns (st: StatusCode)
      modifies this`calls
      ensures st == card.auth(block, key) && calls == old(calls) + [Authenticate(block, key)]
    {
      calls := calls + [Authenticate(block, key)];
      st := card.auth(block, key);
    }

    /** MIFARE_Read into `buffer`: on success the block's 16 data bytes land
        in buffer[0..16). */
    method MifareRead(block: nat, card: Card) returns (st: StatusCode)
      requires Valid()
      modifies this`calls, buffer
      ensures st == card.readStatus(block) && calls == old(calls) + [Read(block)]
      ensures buffer[..] == if st == StatusOk then card.data(block) + old(buffer[16..]) else old(buffer[..])
    {
      calls := calls + [Read(block)];
      st := card.readStatus(block);
      if st == StatusOk {
        var data := card.data(block);
        forall i | 0 <= i < 16 {
          buffer[i] := data[i];
        }
      }
    }

    method PiccHaltA()
      modifies this`calls
      ensures calls == old(calls) + [HaltA]
    {
      calls := calls + [HaltA];
    }

    method PcdStopCrypto1()
      modifies this`calls
      ensures calls == old(calls) + [StopCrypto1]
    {
      calls := calls + [StopCrypto1];
    }

    // ----- the firmware -----

    /** dump_byte_array: ` %02X` for each of the first `bufferSize` bytes. */
    method DumpByteArray(bytes: seq<byte>, bufferSize: byte)
      requires bufferSize as int <= |bytes|
      modifies this`pending
      ensures pending == old(pending) + HexItems(bytes[..bufferSize])
    {
      for i := 0 to bufferSize
        invariant pending == old(pending) + HexItems(bytes[..i])
      {
        SerialPrint(" " + HexByte(bytes[i]));
        assert bytes[..i + 1][..i] == bytes[..i];
      }
    }

    /** try_key: authenticate and read blocks 0 .. 63 with `key`, printing
        each block that reads; stop at the first failed authentication. */
    method TryKey(key: array<byte>, card: Card) returns (result: bool)
      requires Valid() && AtLineStart() && key.Length == KeySize
      modifies this, buffer
      ensures Valid() && AtLineStart() && !result
      ensures Snap() == TryKeyEffect(old(Snap()), card, old(key[..]))
    {
      var k: Key := key[..];
      ghost var s0 := Snap();
      result := false;
      for block := 0 to BlockCount
        invariant Valid() && AtLineStart()
        invariant forall j :: 0 <= j < block ==> AuthOk(card, j, k)
        invariant Snap() == SweepEffect(s0, card, k, block)
      {
        AuthenticateBlock(block, k, card);
        if status != StatusOk {
          TryKeyStops(s0, card, k, block);
          return false;
        }
        ReadBlock(block, card);
        SweepEffectStep(s0, card, k, block);
      }
      EndSweep();
      TryKeyCompletes(s0, card, k);
      return result;
    }

    /** The end of try_key after block 63: an empty line, then halt the card
        and stop the encryption. */
    method EndSweep()
      requires Valid() && AtLineStart()
      modifies this`lines, this`pending, this`calls
      ensures Valid() && AtLineStart() && Snap() == CleanupEffect(old(Snap()))
    {
      SerialPrintln("");
      PiccHaltA();
      PcdStopCrypto1();
    }

    /** The head of try_key's loop body: authenticate the block with key A,
        printing the failure if it does not authenticate. */
    method AuthenticateBlock(block: nat, key: Key, card: Card)
      requires Valid() && AtLineStart()
      modifies this
      ensures Valid() && AtLineStart() && status == card.auth(block, key)
      ensures status != StatusOk ==> Snap() == AuthFailureEffect(old(Snap()), card, key, block)
      ensures status == StatusOk ==>
        Snap() == old(Snap()).(calls := old(calls) + [Authenticate(block, key)], status := StatusOk)
    {
      status := PcdAuthenticate(block, key, card);
      if status != StatusOk {
        SerialPrint("PCD_Authenticate() failed: ");
        SerialPrintln(card.statusName(status));
      }
    }

    /** The body of try_key's loop after a successful authentication: read
        the block into `buffer`; print its dump line, or the failure. */
    method ReadBlock(block: nat, card: Card)
      requires Valid() && AtLineStart() && block < BlockCount
      modifies this, buffer
      ensures Valid() && AtLineStart() && Snap() == ReadEffect(old(Snap()), card, block)
    {
      status := MifareRead(block, card);
      if status != StatusOk {
        SerialPrint("MIFARE_Read() failed: ");
        SerialPrintln(card.statusName(status));
      } else {
        SerialPrint("Block " + Dec2(block) + ":");
        DumpByteArray(buffer[..], 16);
        assert buffer[..][..16] == card.data(block);
        assert pending + "" == DumpLine(block, card.data(block));
        SerialPrintln("");
      }
    }

    /** The UID and type lines of uid_read and card_dump. */
    method PrintCard(card: Card)
      requires AtLineStart()
      modifies this`lines, this`pending
      ensures AtLineStart() && lines == old(lines) + CardLines(card)
    {
      SerialPrint("Card UID:");
      DumpByteArray(card.uid, |card.uid| as byte);
      assert card.uid[..|card.uid|] == card.uid;
      assert pending + "" == CardLines(card)[0];
      SerialPrintln("");
      SerialPrint("PICC type: ");
      SerialPrintln(card.typeName(card.sak));
    }

    /** uid_read: select the card, print its UID and type, keep the UID. */
    method UidRead(card: Card)
      requires Valid() && AtLineStart()
      modifies this, uid
      ensures Valid() && AtLineStart() && Snap() == UidReadEffect(old(Snap()), card)
    {
      SerialPrintln(InsertCard);
      var selected := PiccReadCardSerial(card);
      if !selected {
        return;
      }
      PrintCard(card);
      uidSize := |card.uid| as byte;
      forall i | 0 <= i < uidSize as int {  // memcpy(uid, uidByte, uid_size)
        uid[i] := card.uid[i];
      }
      assert uid[..] == card.uid + old(uid[..])[|card.uid|..];
    }

    /** uid_write: select the card; the UID change is not written. */
    method UidWrite(card: Card)
      requires Valid() && AtLineStart()
      modifies this
      ensures Valid() && AtLineStart() && Snap() == UidWriteEffect(old(Snap()), card)
    {
      SerialPrintln(InsertCard);
      var selected := PiccReadCardSerial(card);
      if !selected {
        return;
      }
    }

    /** card_dump: select the card, print it, then try the known keys. */
    method CardDump(card: Card)
      requires Valid() && AtLineStart()
      modifies this, buffer
      ensures Valid() && AtLineStart() && Snap() == CardDumpEffect(old(Snap()), card)
    {
      SerialPrintln(InsertCard);
      var selected := PiccReadCardSerial(card);
      if !selected {
        return;
      }
      PrintCard(card);
      TryKnownKeys(card);
    }

    /** The key loop of card_dump: copy each known key into a MIFARE key and
        try it, until try_key reports success. */
    method TryKnownKeys(card: Card)
      requires Valid() && AtLineStart()
      modifies this, buffer
      ensures Valid() && AtLineStart() && Snap() == Trials(old(Snap()), card, KnownKeys)
    {
      ghost var s0 := Snap();
      var key := new byte[KeySize];
      assert KnownKeys[..0] == [];
      for k := 0 to NrKnownKeys
        invariant Valid() && AtLineStart() && Snap() == Trials(s0, card, KnownKeys[..k])
      {
        CopyKey(key, k);
        var found := TryKey(key, card);
        TrialsSnoc(s0, card, KnownKeys[..k], KnownKeys[k]);
        assert KnownKeys[..k] + [KnownKeys[k]] == KnownKeys[..k + 1];
        if found {
          break;
        }
      }
      assert KnownKeys[..NrKnownKeys] == KnownKeys;
    }

    /** Copy known key `k` into the MIFARE key, byte by byte. */
    method CopyKey(key: array<byte>, k: nat)
      requires key.Length == KeySize && k < NrKnownKeys
      modifies key
      ensures key[..] == KnownKeys[k]
    {
      for i := 0 to KeySize
        invariant key[..i] == KnownKeys[k][..i]
      {
        key[i] := KnownKeys[k][i];
      }
    }

    /** version_check. */
    method VersionCheck()
      requires Valid() && AtLineStart()
      modifies this`lines, this`pending
      ensures Valid() && AtLineStart() && Snap() == VersionCheckEffect(old(Snap()))
    {
      SerialPrintln(Version);
    }

    /** One pass of `loop`: `rx` is what Serial.read() returned, -1 when no
        byte was available; `card` is the card presented meanwhile. */
    method Loop(rx: int, card: Card)
      requires Valid() && AtLineStart() && -1 <= rx < 256
      modifies this, buffer, uid
      ensures Valid() && AtLineStart() && Snap() == LoopEffect(old(Snap()), rx, card)
    {
      cmd := (rx % 256) as char;
      if cmd == '1' {
        SerialPrintln("Read card UID");
        UidRead(card);
      } else if cmd == '2' {
        SerialPrintln("Write card UID");
        UidWrite(card);
      } else if cmd == '3' {
        SerialPrintln("Dump card data");
        CardDump(card);
      } else if cmd == '9' {
        VersionCheck();
      }
    }
  }
}
