/** The MFRC522 reader and the card in front of it, as the firmware sees them:
    an oracle that answers, for the card currently presented, whether it can be
    selected, whether a block authenticates with a key, whether a block reads
    and what it holds; and a log of the calls the firmware makes into the
    device, in order. */
module Device {
  import opened Format

  /** MFRC522::StatusCode. The firmware only tells STATUS_OK from the rest. */
  datatype StatusCode = StatusOk | StatusFailure(code: byte)

  /** MFRC522::MF_KEY_SIZE. */
  const KeySize: nat := 6

  /** MIFARE_Key::keyByte: a 6-byte key. */
  type Key = k: seq<byte> | |k| == KeySize witness [0, 0, 0, 0, 0, 0]

  /** MFRC522::Uid::uidByte holds at most 10 bytes. */
  type Uid = u: seq<byte> | |u| <= 10

  /** The 16 data bytes of one block. */
  type BlockData = d: seq<byte> | |d| == 16 witness [0, 0, 0, 0, 0, 0, 0, 0, 0, 0, 0, 0, 0, 0, 0, 0]

  /** Blocks 0 .. 63 of a 1K card. */
  const BlockCount: nat := 64

  /** The card presented to the reader, as an oracle. The diagnostic strings
      of GetStatusCodeName and PICC_GetTypeName are opaque. */
  datatype Card = Card(
    selects: bool,                   // PICC_ReadCardSerial succeeds
    uid: Uid,                        // mfrc522.uid.uidByte[..mfrc522.uid.size]
    sak: byte,                       // mfrc522.uid.sak
    auth: (nat, Key) -> StatusCode,  // PCD_Authenticate(KEY_A, block, key, uid)
    readStatus: nat -> StatusCode,   // MIFARE_Read(block, ...)
    data: nat -> BlockData,          // what MIFARE_Read stores in buffer[0..16)
    statusName: StatusCode -> string,
    typeName: byte -> string)

  predicate AuthOk(card: Card, block: nat, key: Key)
  {
    card.auth(block, key) == StatusOk
  }

  predicate ReadOk(card: Card, block: nat)
  {
    card.readStatus(block) == StatusOk
  }

  /** One call into the MFRC522 library that touches the card. */
  datatype Call =
    | ReadCardSerial
    | Authenticate(block: nat, key: Key)
    | Read(block: nat)
    | HaltA
    | StopCrypto1

  /** The blocks of the Authenticate calls in `calls`, in order. */
  function AuthBlocks(calls: seq<Call>): seq<nat>
  {
    if calls == [] then []
    else
      var last := calls[|calls| - 1];
      AuthBlocks(calls[..|calls| - 1]) + (if last.Authenticate? then [last.block] else [])
  }

  /** The blocks of the Read calls in `calls`, in order. */
  function ReadBlocks(calls: seq<Call>): seq<nat>
  {
    if calls == [] then []
    else
      var last := calls[|calls| - 1];
      ReadBlocks(calls[..|calls| - 1]) + (if last.Read? then [last.block] else [])
  }

  /** The keys tried on `block`, in order. */
  function AuthKeysAt(calls: seq<Call>, block: nat): seq<Key>
  {
    if calls == [] then []
    else
      var last := calls[|calls| - 1];
      AuthKeysAt(calls[..|calls| - 1], block)
        + (if last.Authenticate? && last.block == block then [last.key] else [])
  }

  /** How often `c` occurs in `calls`. */
  function Count(calls: seq<Call>, c: Call): nat
  {
    if calls == [] then 0
    else Count(calls[..|calls| - 1], c) + (if calls[|calls| - 1] == c then 1 else 0)
  }

  // Each view of the log distributes over concatenation.

  lemma {:induction false} AuthBlocksAppend(a: seq<Call>, b: seq<Call>)
    ensures AuthBlocks(a + b) == AuthBlocks(a) + AuthBlocks(b)
  {
    if b != [] {
      var b' := b[..|b| - 1];
      assert (a + b)[..|a + b| - 1] == a + b';
      AuthBlocksAppend(a, b');
    } else {
      assert a + b == a;
    }
  }

  lemma {:induction false} ReadBlocksAppend(a: seq<Call>, b: seq<Call>)
    ensures ReadBlocks(a + b) == ReadBlocks(a) + ReadBlocks(b)
  {
    if b != [] {
      var b' := b[..|b| - 1];
      assert (a + b)[..|a + b| - 1] == a + b';
      ReadBlocksAppend(a, b');
    } else {
      assert a + b == a;
    }
  }

  lemma {:induction false} AuthKeysAtAppend(a: seq<Call>, b: seq<Call>, block: nat)
    ensures AuthKeysAt(a + b, block) == AuthKeysAt(a, block) + AuthKeysAt(b, block)
  {
    if b != [] {
      var b' := b[..|b| - 1];
      assert (a + b)[..|a + b| - 1] == a + b';
      AuthKeysAtAppend(a, b', block);
    } else {
      assert a + b == a;
    }
  }

  lemma {:induction false} CountAppend(a: seq<Call>, b: seq<Call>, c: Call)
    ensures Count(a + b, c) == Count(a, c) + Count(b, c)
  {
    if b != [] {
      var b' := b[..|b| - 1];
      assert (a + b)[..|a + b| - 1] == a + b';
      CountAppend(a, b', c);
    } else {
      assert a + b == a;
    }
  }
}
