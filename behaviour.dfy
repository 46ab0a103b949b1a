/** What each of the firmware's operations does to its globals, to the serial
    output and to the log of device calls, as functions of a snapshot of that
    state. The class in module Firmware is proved to follow these. */
module Behaviour {
  import opened Format
  import opened Device
  import opened KeySweep

  /** NR_KNOWN_KEYS, and knownKeys: the factory default key. */
  const NrKnownKeys: nat := 1
  const KnownKeys: seq<Key> := [[0xFF, 0xFF, 0xFF, 0xFF, 0xFF, 0xFF]]

  /** What version_check prints. */
  const Version: string := "rfid-util-1"

  const InsertCard: string := "Insert card..."

  /** The menu setup prints. */
  const Menu: seq<string> := ["1. Read UID", "2. Write UID", "3. Dump data"]

  /** The globals `buffer`, `uid`, `uid_size`, `status` and `cmd`, the lines
      sent so far (each followed by CR LF on the wire) and the device calls
      made so far. */
  datatype State = State(
    buffer: seq<byte>,
    uid: seq<byte>,
    uidSize: byte,
    status: StatusCode,
    cmd: char,
    lines: seq<string>,
    calls: seq<Call>)

  /** `byte buffer[18]` and `byte uid[10]`. */
  predicate Wf(s: State)
  {
    |s.buffer| == 18 && |s.uid| == 10
  }

  function Print(s: State, line: string): State
  {
    s.(lines := s.lines + [line])
  }

  /** The card details that uid_read and card_dump print after a select. */
  function CardLines(card: Card): seq<string>
  {
    ["Card UID:" + HexItems(card.uid), "PICC type: " + card.typeName(card.sak)]
  }

  /** The prompt and the select that open uid_read, uid_write and card_dump. */
  function Select(s: State): State
  {
    s.(lines := s.lines + [InsertCard], calls := s.calls + [ReadCardSerial])
  }

  function UidReadEffect(s: State, card: Card): (r: State)
    requires Wf(s)
    ensures Wf(r)
    ensures r.calls == s.calls + [ReadCardSerial]
    ensures r.buffer == s.buffer && r.status == s.status && r.cmd == s.cmd
    ensures !card.selects ==>
      r.uid == s.uid && r.uidSize == s.uidSize && r.lines == s.lines + [InsertCard]
    ensures card.selects ==>
      r.uidSize as int == |card.uid| && r.uid[..r.uidSize] == card.uid
      && r.uid[r.uidSize..] == s.uid[r.uidSize..]
      && r.lines == s.lines + [InsertCard] + CardLines(card)
  {
    var p := Select(s);
    if !card.selects then p
    else p.(lines := p.lines + CardLines(card),
            uidSize := |card.uid| as byte,
            uid := card.uid + s.uid[|card.uid|..])
  }

  /** uid_write: the UID change itself is not written in the firmware. */
  function UidWriteEffect(s: State, card: Card): (r: State)
    ensures r.buffer == s.buffer && r.uid == s.uid && r.uidSize == s.uidSize
    ensures r.status == s.status && r.cmd == s.cmd
    ensures r.lines == s.lines + [InsertCard] && r.calls == s.calls + [ReadCardSerial]
  {
    Select(s)
  }

  /** try_key with `key`. */
  function TryKeyEffect(s: State, card: Card, key: Key): (r: State)
    requires Wf(s)
    ensures Wf(r)
    ensures r.uid == s.uid && r.uidSize == s.uidSize && r.cmd == s.cmd
  {
    s.(lines := s.lines + TryKeyLines(card, key),
       calls := s.calls + TryKeyCalls(card, key),
       buffer := TryKeyBuffer(card, key, s.buffer),
       status := TryKeyStatus(card, key))
  }

  /** try_key after the blocks 0 .. k-1 all authenticated: the state at the
      head of its loop. */
  function SweepEffect(s: State, card: Card, key: Key, k: nat): (r: State)
    requires Wf(s) && k <= BlockCount
    ensures Wf(r)
  {
    s.(lines := s.lines + SweepLines(card, k),
       calls := s.calls + SweepCalls(card, key, k),
       buffer := SweepBuffer(card, s.buffer, k),
       status := if k == 0 then s.status else card.readStatus(k - 1))
  }

  /** The read half of try_key's loop body: read the block, print its line. */
  function ReadEffect(s: State, card: Card, block: nat): (r: State)
    requires Wf(s) && block < BlockCount
    ensures Wf(r)
  {
    s.(lines := s.lines + [BlockLine(card, block)],
       calls := s.calls + [Read(block)],
       buffer := if ReadOk(card, block) then card.data(block) + s.buffer[16..] else s.buffer,
       status := card.readStatus(block))
  }

  /** One pass of try_key's loop over a block that authenticates. */
  function BlockEffect(s: State, card: Card, key: Key, block: nat): (r: State)
    requires Wf(s) && block < BlockCount
    ensures Wf(r)
  {
    ReadEffect(s.(calls := s.calls + [Authenticate(block, key)], status := StatusOk), card, block)
  }

  /** try_key's early return on a failed authentication. */
  function AuthFailureEffect(s: State, card: Card, key: Key, block: nat): State
  {
    s.(lines := s.lines + [AuthFailureLine(card, card.auth(block, key))],
       calls := s.calls + [Authenticate(block, key)],
       status := card.auth(block, key))
  }

  /** The end of try_key after all 64 blocks: an empty line, halt, stop crypto. */
  function CleanupEffect(s: State): State
  {
    s.(lines := s.lines + [""], calls := s.calls + [HaltA, StopCrypto1])
  }

  lemma SweepEffectStep(s: State, card: Card, key: Key, k: nat)
    requires Wf(s) && k < BlockCount
    ensures SweepEffect(s, card, key, k + 1) == BlockEffect(SweepEffect(s, card, key, k), card, key, k)
  {
    var before, after := SweepEffect(s, card, key, k), SweepEffect(s, card, key, k + 1);
    var step := BlockEffect(before, card, key, k);
    assert after.lines == step.lines;
    assert after.calls == step.calls;
    assert after.buffer == step.buffer;
  }

  lemma TryKeyStops(s: State, card: Card, key: Key, b: nat)
    requires Wf(s) && b < BlockCount
    requires forall j :: 0 <= j < b ==> AuthOk(card, j, key)
    requires !AuthOk(card, b, key)
    ensures TryKeyEffect(s, card, key) == AuthFailureEffect(SweepEffect(s, card, key, b), card, key, b)
  {
    FirstAuthFailureIs(card, key, b);
    var r, q := TryKeyEffect(s, card, key), AuthFailureEffect(SweepEffect(s, card, key, b), card, key, b);
    assert r.lines == q.lines;
    assert r.calls == q.calls;
    assert r.buffer == q.buffer;
  }

  lemma TryKeyCompletes(s: State, card: Card, key: Key)
    requires Wf(s)
    requires forall j :: 0 <= j < BlockCount ==> AuthOk(card, j, key)
    ensures TryKeyEffect(s, card, key) == CleanupEffect(SweepEffect(s, card, key, BlockCount))
  {
    FirstAuthFailureIs(card, key, BlockCount);
    var r, q := TryKeyEffect(s, card, key), CleanupEffect(SweepEffect(s, card, key, BlockCount));
    assert r.lines == q.lines;
    assert r.calls == q.calls;
  }

  /** try_key with each of `keys` in turn. No key is skipped: try_key
      never reports success, so card_dump's break is never taken. */
  function Trials(s: State, card: Card, keys: seq<Key>): (r: State)
    requires Wf(s)
    ensures Wf(r)
    ensures r.uid == s.uid && r.uidSize == s.uidSize && r.cmd == s.cmd
  {
    s.(lines := s.lines + TrialLines(card, keys),
       calls := s.calls + TrialCalls(card, keys),
       buffer := TrialBuffer(card, keys, s.buffer),
       status := TrialStatus(card, keys, s.status))
  }

  /** Trying one more key is one more try_key. */
  lemma TrialsSnoc(s: State, card: Card, keys: seq<Key>, key: Key)
    requires Wf(s)
    ensures Trials(s, card, keys + [key]) == TryKeyEffect(Trials(s, card, keys), card, key)
  {
    var ks := keys + [key];
    assert ks[..|ks| - 1] == keys;
    var lines, calls := TrialLines(card, keys), TrialCalls(card, keys);
    assert TrialLines(card, ks) == lines + TryKeyLines(card, key);
    assert TrialCalls(card, ks) == calls + TryKeyCalls(card, key);
    assert s.lines + (lines + TryKeyLines(card, key)) == s.lines + lines + TryKeyLines(card, key);
    assert s.calls + (calls + TryKeyCalls(card, key)) == s.calls + calls + TryKeyCalls(card, key);
  }

  function CardDumpEffect(s: State, card: Card): (r: State)
    requires Wf(s)
    ensures Wf(r)
    ensures r.uid == s.uid && r.uidSize == s.uidSize && r.cmd == s.cmd
    ensures !card.selects ==> r == Select(s)
    ensures card.selects ==>
      r.calls == s.calls + [ReadCardSerial] + TrialCalls(card, KnownKeys)
      && r.lines == s.lines + [InsertCard] + CardLines(card) + TrialLines(card, KnownKeys)
  {
    var p := Select(s);
    if !card.selects then p
    else Trials(p.(lines := p.lines + CardLines(card)), card, KnownKeys)
  }

  /** card_dump tries every known key, in index order, and only after a
      successful select; with no select it tries none. */
  lemma CardDumpKeys(s: State, card: Card)
    requires Wf(s)
    ensures var r := CardDumpEffect(s, card);
      |r.calls| >= |s.calls| && r.calls[..|s.calls|] == s.calls
      && AuthKeysAt(r.calls[|s.calls|..], 0) == (if card.selects then KnownKeys else [])
  {
    var r := CardDumpEffect(s, card);
    var rest := if card.selects then TrialCalls(card, KnownKeys) else [];
    assert r.calls == s.calls + ([ReadCardSerial] + rest);
    assert r.calls[|s.calls|..] == [ReadCardSerial] + rest;
    assert AuthKeysAt(rest, 0) == (if card.selects then KnownKeys else []) by {
      TrialKeysInOrder(card, KnownKeys);
    }
    assert AuthKeysAt([ReadCardSerial] + rest, 0) == AuthKeysAt(rest, 0) by {
      AuthKeysAtAppend([ReadCardSerial], rest, 0);
      assert [ReadCardSerial][..0] == [];
    }
  }

  function VersionCheckEffect(s: State): (r: State)
    ensures r == s.(lines := s.lines + [Version])
  {
    Print(s, Version)
  }

  /** The operations `loop` can start. */
  datatype Operation = ReadUid | WriteUid | DumpCard | CheckVersion | NoOperation

  /** The if-chain of `loop`. */
  function Dispatch(cmd: char): Operation
  {
    if cmd == '1' then ReadUid
    else if cmd == '2' then WriteUid
    else if cmd == '3' then DumpCard
    else if cmd == '9' then CheckVersion
    else NoOperation
  }

  /** The command character of each operation. */
  function CommandChar(op: Operation): (c: char)
    requires op != NoOperation
    ensures Dispatch(c) == op
  {
    match op
    case ReadUid => '1'
    case WriteUid => '2'
    case DumpCard => '3'
    case CheckVersion => '9'
  }

  /** Each operation has exactly one command character. */
  lemma CommandCharUnique(c: char)
    requires Dispatch(c) != NoOperation
    ensures CommandChar(Dispatch(c)) == c
  {
  }

  /** `cmd = Serial.read()`: the int read (-1 when no byte is available) is
      truncated to an 8-bit char. */
  function CommandOf(rx: int): (c: char)
    requires -1 <= rx < 256
    ensures c as int < 256
    ensures 0 <= rx ==> c as int == rx
    ensures rx == -1 ==> c as int == 255
  {
    (rx % 256) as char
  }

  /** The line `loop` prints before an operation that needs a card. */
  function Header(op: Operation): string
  {
    match op
    case ReadUid => "Read card UID"
    case WriteUid => "Write card UID"
    case DumpCard => "Dump card data"
    case _ => ""
  }

  /** One pass of `loop`: read a byte, run the operation it selects. */
  function LoopEffect(s: State, rx: int, card: Card): (r: State)
    requires Wf(s) && -1 <= rx < 256
    ensures Wf(r) && r.cmd == CommandOf(rx)
    ensures Dispatch(r.cmd) == NoOperation ==> r == s.(cmd := r.cmd)
    ensures Dispatch(r.cmd) == CheckVersion ==>
      r == s.(cmd := r.cmd, lines := s.lines + [Version])
    ensures Dispatch(r.cmd) in {ReadUid, WriteUid, DumpCard} ==>
      |r.lines| >= |s.lines| + 2
      && r.lines[..|s.lines| + 2] == s.lines + [Header(Dispatch(r.cmd)), InsertCard]
      && |r.calls| > |s.calls| && r.calls[..|s.calls| + 1] == s.calls + [ReadCardSerial]
    ensures Dispatch(r.cmd) != DumpCard ==> r.buffer == s.buffer && r.status == s.status
    ensures Dispatch(r.cmd) != ReadUid ==> r.uid == s.uid && r.uidSize == s.uidSize
  {
    var c := CommandOf(rx);
    var p := s.(cmd := c);
    match Dispatch(c)
    case ReadUid => UidReadEffect(Print(p, Header(ReadUid)), card)
    case WriteUid => UidWriteEffect(Print(p, Header(WriteUid)), card)
    case DumpCard => CardDumpEffect(Print(p, Header(DumpCard)), card)
    case CheckVersion => VersionCheckEffect(p)
    case NoOperation => p
  }

  /** With no byte available nothing but `cmd` changes. */
  lemma NoByteNoEffect(s: State, card: Card)
    requires Wf(s)
    ensures LoopEffect(s, -1, card) == s.(cmd := 255 as char)
  {
  }

  /** Version checks can be repeated: each prints the same line and
      touches nothing else. */
  lemma VersionCheckRepeats(s: State, card1: Card, card2: Card)
    requires Wf(s)
    ensures LoopEffect(LoopEffect(s, 0x39, card1), 0x39, card2)
      == s.(cmd := '9', lines := s.lines + [Version, Version])
  {
  }
}
