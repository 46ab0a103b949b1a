/** try_key's sweep of blocks 0 .. 63 with one key, and card_dump's trial of
    the known keys, as the lines they print and the device calls they make. */
module KeySweep {
  import opened Wrappers
  import opened Format
  import opened Device

  /** The first block at or after `b` whose authentication fails, or 64. */
  function FirstAuthFailureFrom(card: Card, key: Key, b: nat): (n: nat)
    requires b <= BlockCount
    ensures b <= n <= BlockCount
    ensures forall j :: b <= j < n ==> AuthOk(card, j, key)
    ensures n < BlockCount ==> !AuthOk(card, n, key)
    decreases BlockCount - b
  {
    if b == BlockCount then BlockCount
    else if !AuthOk(card, b, key) then b
    else FirstAuthFailureFrom(card, key, b + 1)
  }

  /** Where try_key stops: the first block whose authentication fails, or 64
      when all of them authenticate. */
  function FirstAuthFailure(card: Card, key: Key): (n: nat)
    ensures n <= BlockCount
    ensures forall j :: 0 <= j < n ==> AuthOk(card, j, key)
    ensures n < BlockCount ==> !AuthOk(card, n, key)
  {
    FirstAuthFailureFrom(card, key, 0)
  }

  /** The two properties above pin the stopping block down. */
  lemma FirstAuthFailureIs(card: Card, key: Key, b: nat)
    requires b <= BlockCount
    requires forall j :: 0 <= j < b ==> AuthOk(card, j, key)
    requires b < BlockCount ==> !AuthOk(card, b, key)
    ensures FirstAuthFailure(card, key) == b
  {
  }

  function AuthFailureLine(card: Card, status: StatusCode): string
  {
    "PCD_Authenticate() failed: " + card.statusName(status)
  }

  function ReadFailureLine(card: Card, status: StatusCode): string
  {
    "MIFARE_Read() failed: " + card.statusName(status)
  }

  /** `Block NN:` and the 16 data bytes. */
  function DumpLine(block: nat, data: BlockData): string
    requires block < 100
  {
    "Block " + Dec2(block) + ":" + HexItems(data)
  }

  /** The one line try_key prints for an authenticated block. */
  function BlockLine(card: Card, block: nat): string
    requires block < BlockCount
  {
    if ReadOk(card, block) then DumpLine(block, card.data(block))
    else ReadFailureLine(card, card.readStatus(block))
  }

  /** The lines printed for blocks 0 .. k-1, all of them authenticated. */
  function SweepLines(card: Card, k: nat): seq<string>
    requires k <= BlockCount
  {
    if k == 0 then [] else SweepLines(card, k - 1) + [BlockLine(card, k - 1)]
  }

  /** The device calls made for blocks 0 .. k-1, all of them authenticated. */
  function SweepCalls(card: Card, key: Key, k: nat): seq<Call>
    requires k <= BlockCount
  {
    if k == 0 then [] else SweepCalls(card, key, k - 1) + [Authenticate(k - 1, key), Read(k - 1)]
  }

  /** The 18-byte buffer after blocks 0 .. k-1 were read into it. */
  function SweepBuffer(card: Card, buffer: seq<byte>, k: nat): (r: seq<byte>)
    requires |buffer| == 18 && k <= BlockCount
    ensures |r| == 18 && r[16..] == buffer[16..]
  {
    if k == 0 then buffer
    else
      var before := SweepBuffer(card, buffer, k - 1);
      if ReadOk(card, k - 1) then card.data(k - 1) + before[16..] else before
  }

  /** The last block below k that read successfully, if any. */
  function LastRead(card: Card, k: nat): (r: Option<nat>)
    ensures r.Some? ==> r.value < k && ReadOk(card, r.value)
    ensures r.Some? ==> forall j :: r.value < j < k ==> !ReadOk(card, j)
    ensures r.None? ==> forall j :: 0 <= j < k ==> !ReadOk(card, j)
  {
    if k == 0 then None
    else if ReadOk(card, k - 1) then Some(k - 1)
    else LastRead(card, k - 1)
  }

  /** Everything try_key prints with `card` and `key`. */
  function TryKeyLines(card: Card, key: Key): seq<string>
  {
    var n := FirstAuthFailure(card, key);
    SweepLines(card, n) + [if n < BlockCount then AuthFailureLine(card, card.auth(n, key)) else ""]
  }

  /** What try_key calls after the sweep: the failing authentication, or
      halt and stop crypto. */
  function TryKeyTail(card: Card, key: Key): seq<Call>
  {
    var n := FirstAuthFailure(card, key);
    if n < BlockCount then [Authenticate(n, key)] else [HaltA, StopCrypto1]
  }

  /** Every device call try_key makes with `card` and `key`. */
  function TryKeyCalls(card: Card, key: Key): seq<Call>
  {
    SweepCalls(card, key, FirstAuthFailure(card, key)) + TryKeyTail(card, key)
  }

  /** The global `buffer` after try_key. */
  function TryKeyBuffer(card: Card, key: Key, buffer: seq<byte>): seq<byte>
    requires |buffer| == 18
  {
    SweepBuffer(card, buffer, FirstAuthFailure(card, key))
  }

  /** The global `status` after try_key: its last device answer. */
  function TryKeyStatus(card: Card, key: Key): StatusCode
  {
    var n := FirstAuthFailure(card, key);
    if n < BlockCount then card.auth(n, key) else card.readStatus(BlockCount - 1)
  }

  // ----- properties of one sweep -----

  lemma {:induction false} SweepLinesAt(card: Card, k: nat)
    requires k <= BlockCount
    ensures |SweepLines(card, k)| == k
    ensures forall b :: 0 <= b < k ==> SweepLines(card, k)[b] == BlockLine(card, b)
  {
    if k > 0 {
      SweepLinesAt(card, k - 1);
    }
  }

  /** try_key prints one line per authenticated block, in block order, and
      one closing line: the authentication failure, or the empty line. */
  lemma TryKeyLinesShape(card: Card, key: Key)
    ensures var n := FirstAuthFailure(card, key);
      var lines := TryKeyLines(card, key);
      |lines| == n + 1
      && (forall b :: 0 <= b < n ==> lines[b] == BlockLine(card, b))
      && lines[n] == (if n < BlockCount then AuthFailureLine(card, card.auth(n, key)) else "")
  {
    SweepLinesAt(card, FirstAuthFailure(card, key));
  }

  predicate IsDumpLine(l: string)
  {
    |l| >= 6 && l[..6] == "Block "
  }

  /** Of the lines try_key prints, only the dump lines start with `Block `. */
  lemma LineKinds(card: Card, block: nat, status: StatusCode)
    requires block < 100
    ensures IsDumpLine(DumpLine(block, card.data(block)))
    ensures !IsDumpLine(ReadFailureLine(card, status))
    ensures !IsDumpLine(AuthFailureLine(card, status))
    ensures !IsDumpLine("")
  {
    var d := DumpLine(block, card.data(block));
    assert d[..6] == "Block ";
    assert ReadFailureLine(card, status)[0] == 'M';
    assert AuthFailureLine(card, status)[0] == 'P';
  }

  /** A `Block NN:` line appears for exactly the blocks that authenticated
      and read successfully, at their own position and holding their data;
      a failed read prints its diagnostic instead and the sweep goes on. */
  lemma TryKeyDumpLines(card: Card, key: Key, i: nat)
    requires i < |TryKeyLines(card, key)|
    ensures var n := FirstAuthFailure(card, key);
      var l := TryKeyLines(card, key)[i];
      (IsDumpLine(l) <==> i < n && ReadOk(card, i))
      && (i < n && ReadOk(card, i) ==> l == DumpLine(i, card.data(i)))
      && (i < n && !ReadOk(card, i) ==> l == ReadFailureLine(card, card.readStatus(i)))
  {
    TryKeyLinesShape(card, key);
    var n := FirstAuthFailure(card, key);
    if i < n {
      LineKinds(card, i, card.readStatus(i));
    } else {
      LineKinds(card, 0, card.auth(n, key));
    }
  }

  // ----- the device calls of one sweep -----

  lemma {:induction false} SweepAuthBlocks(card: Card, key: Key, k: nat)
    requires k <= BlockCount
    ensures var blocks := AuthBlocks(SweepCalls(card, key, k));
      |blocks| == k && forall i :: 0 <= i < k ==> blocks[i] == i
  {
    if k > 0 {
      var pair := [Authenticate(k - 1, key), Read(k - 1)];
      SweepAuthBlocks(card, key, k - 1);
      var a, r := Authenticate(k - 1, key), Read(k - 1);
      assert pair == [a] + [r];
      AuthBlocksAppend(SweepCalls(card, key, k - 1), pair);
      AuthBlocksAppend([a], [r]);
      assert [a][..0] == [] && [r][..0] == [];
    }
  }

  lemma {:induction false} SweepReadBlocks(card: Card, key: Key, k: nat)
    requires k <= BlockCount
    ensures var blocks := ReadBlocks(SweepCalls(card, key, k));
      |blocks| == k && forall i :: 0 <= i < k ==> blocks[i] == i
  {
    if k > 0 {
      var pair := [Authenticate(k - 1, key), Read(k - 1)];
      SweepReadBlocks(card, key, k - 1);
      var a, r := Authenticate(k - 1, key), Read(k - 1);
      assert pair == [a] + [r];
      ReadBlocksAppend(SweepCalls(card, key, k - 1), pair);
      ReadBlocksAppend([a], [r]);
      assert [a][..0] == [] && [r][..0] == [];
    }
  }

  lemma {:induction false} SweepAuthKeys(card: Card, key: Key, k: nat, block: nat)
    requires k <= BlockCount
    ensures AuthKeysAt(SweepCalls(card, key, k), block) == if block < k then [key] else []
  {
    if k > 0 {
      var pair := [Authenticate(k - 1, key), Read(k - 1)];
      SweepAuthKeys(card, key, k - 1, block);
      var a, r := Authenticate(k - 1, key), Read(k - 1);
      assert pair == [a] + [r];
      AuthKeysAtAppend(SweepCalls(card, key, k - 1), pair, block);
      AuthKeysAtAppend([a], [r], block);
      assert [a][..0] == [] && [r][..0] == [];
    }
  }

  lemma {:induction false} SweepNoCleanup(card: Card, key: Key, k: nat)
    requires k <= BlockCount
    ensures Count(SweepCalls(card, key, k), HaltA) == 0
    ensures Count(SweepCalls(card, key, k), StopCrypto1) == 0
  {
    if k > 0 {
      var pair := [Authenticate(k - 1, key), Read(k - 1)];
      SweepNoCleanup(card, key, k - 1);
      var a, r := Authenticate(k - 1, key), Read(k - 1);
      assert pair == [a] + [r];
      CountAppend(SweepCalls(card, key, k - 1), pair, HaltA);
      CountAppend(SweepCalls(card, key, k - 1), pair, StopCrypto1);
      CountAppend([a], [r], HaltA);
      CountAppend([a], [r], StopCrypto1);
      assert [a][..0] == [] && [r][..0] == [];
    }
  }

  /** The calls after the sweep authenticate only the failing block, read
      nothing, and halt and stop crypto once each exactly when every block
      authenticated. */
  lemma TryKeyTailLog(card: Card, key: Key, block: nat)
    ensures var n := FirstAuthFailure(card, key);
      var tail := TryKeyTail(card, key);
      AuthBlocks(tail) == (if n < BlockCount then [n] else [])
      && ReadBlocks(tail) == []
      && AuthKeysAt(tail, block) == (if n < BlockCount && block == n then [key] else [])
      && Count(tail, HaltA) == (if n < BlockCount then 0 else 1)
      && Count(tail, StopCrypto1) == (if n < BlockCount then 0 else 1)
  {
    var n := FirstAuthFailure(card, key);
    var tail := TryKeyTail(card, key);
    if n < BlockCount {
      assert tail == [Authenticate(n, key)];
      assert tail[..0] == [];
    } else {
      assert tail == [HaltA] + [StopCrypto1];
      AuthBlocksAppend([HaltA], [StopCrypto1]);
      ReadBlocksAppend([HaltA], [StopCrypto1]);
      AuthKeysAtAppend([HaltA], [StopCrypto1], block);
      CountAppend([HaltA], [StopCrypto1], HaltA);
      CountAppend([HaltA], [StopCrypto1], StopCrypto1);
      assert [HaltA][..0] == [] && [StopCrypto1][..0] == [];
    }
  }

  /** try_key authenticates blocks 0, 1, 2, ... in order, one by one, up to
      and including the first that fails, and never past block 63. */
  lemma TryKeyAuthOrder(card: Card, key: Key)
    ensures var n := FirstAuthFailure(card, key);
      var blocks := AuthBlocks(TryKeyCalls(card, key));
      |blocks| == (if n < BlockCount then n + 1 else BlockCount)
      && (forall i :: 0 <= i < |blocks| ==> blocks[i] == i)
      && (forall i, j :: 0 <= i < j < |blocks| ==> blocks[i] < blocks[j])
      && (forall i :: 0 <= i < |blocks| ==> blocks[i] < BlockCount)
  {
    var n := FirstAuthFailure(card, key);
    var blocks := AuthBlocks(TryKeyCalls(card, key));
    var swept, tail := AuthBlocks(SweepCalls(card, key, n)), AuthBlocks(TryKeyTail(card, key));
    assert blocks == swept + tail by {
      AuthBlocksAppend(SweepCalls(card, key, n), TryKeyTail(card, key));
    }
    assert |swept| == n && forall i :: 0 <= i < n ==> swept[i] == i by {
      SweepAuthBlocks(card, key, n);
    }
    assert tail == (if n < BlockCount then [n] else []) by {
      TryKeyTailLog(card, key, 0);
    }
    assert forall i :: 0 <= i < |blocks| ==> blocks[i] == i;
  }

  /** Every authenticated block is read, whether or not earlier reads
      failed: the reads are of blocks 0 .. n-1 exactly, n the stopping block. */
  lemma TryKeyReadOrder(card: Card, key: Key)
    ensures var n := FirstAuthFailure(card, key);
      var blocks := ReadBlocks(TryKeyCalls(card, key));
      |blocks| == n && forall i :: 0 <= i < n ==> blocks[i] == i
  {
    var n := FirstAuthFailure(card, key);
    SweepReadBlocks(card, key, n);
    ReadBlocksAppend(SweepCalls(card, key, n), TryKeyTail(card, key));
    TryKeyTailLog(card, key, 0);
    assert ReadBlocks(TryKeyCalls(card, key)) == ReadBlocks(SweepCalls(card, key, n));
  }

  /** HaltA and StopCrypto1 are each called exactly once when all 64
      blocks authenticated, as the last two calls, and never otherwise: the
      early return on an authentication failure skips both. */
  lemma TryKeyCleanup(card: Card, key: Key)
    ensures var calls := TryKeyCalls(card, key);
      var full := forall b :: 0 <= b < BlockCount ==> AuthOk(card, b, key);
      Count(calls, HaltA) == (if full then 1 else 0)
      && Count(calls, StopCrypto1) == (if full then 1 else 0)
      && (full ==> calls[|calls| - 2..] == [HaltA, StopCrypto1])
      && (!full ==> calls[|calls| - 1] == Authenticate(FirstAuthFailure(card, key), key))
  {
    var n := FirstAuthFailure(card, key);
    var sweep, tail := SweepCalls(card, key, n), TryKeyTail(card, key);
    SweepNoCleanup(card, key, n);
    CountAppend(sweep, tail, HaltA);
    CountAppend(sweep, tail, StopCrypto1);
    TryKeyTailLog(card, key, 0);
  }

  /** Each sweep tries its key on block 0 exactly once. */
  lemma TryKeyFirstBlockKeys(card: Card, key: Key)
    ensures AuthKeysAt(TryKeyCalls(card, key), 0) == [key]
  {
    var n := FirstAuthFailure(card, key);
    SweepAuthKeys(card, key, n, 0);
    AuthKeysAtAppend(SweepCalls(card, key, n), TryKeyTail(card, key), 0);
    TryKeyTailLog(card, key, 0);
  }

  /** The buffer holds the data of the last block that read before the sweep
      stopped; when none did it is as before, and its last two bytes never
      change. */
  lemma {:induction false} SweepBufferHolds(card: Card, buffer: seq<byte>, k: nat)
    requires |buffer| == 18 && k <= BlockCount
    ensures SweepBuffer(card, buffer, k)[16..] == buffer[16..]
    ensures SweepBuffer(card, buffer, k)[..16] ==
      match LastRead(card, k)
      case Some(b) => card.data(b)
      case None => buffer[..16]
  {
    if k > 0 {
      SweepBufferHolds(card, buffer, k - 1);
    }
  }

  // ----- trial of several keys -----

  /** The device calls of sweeping with each of `keys` in turn. */
  function TrialCalls(card: Card, keys: seq<Key>): seq<Call>
  {
    if keys == [] then [] else TrialCalls(card, keys[..|keys| - 1]) + TryKeyCalls(card, keys[|keys| - 1])
  }

  /** The lines printed by sweeping with each of `keys` in turn. */
  function TrialLines(card: Card, keys: seq<Key>): seq<string>
  {
    if keys == [] then [] else TrialLines(card, keys[..|keys| - 1]) + TryKeyLines(card, keys[|keys| - 1])
  }

  /** The buffer after sweeping with each of `keys` in turn. */
  function TrialBuffer(card: Card, keys: seq<Key>, buffer: seq<byte>): (r: seq<byte>)
    requires |buffer| == 18
    ensures |r| == 18
  {
    if keys == [] then buffer
    else TryKeyBuffer(card, keys[|keys| - 1], TrialBuffer(card, keys[..|keys| - 1], buffer))
  }

  /** The status after sweeping with each of `keys` in turn. */
  function TrialStatus(card: Card, keys: seq<Key>, status: StatusCode): StatusCode
  {
    if keys == [] then status else TryKeyStatus(card, keys[|keys| - 1])
  }

  /** The keys are tried in order, each exactly once, each starting at block 0. */
  lemma {:induction false} TrialKeysInOrder(card: Card, keys: seq<Key>)
    ensures AuthKeysAt(TrialCalls(card, keys), 0) == keys
  {
    if keys != [] {
      var init, last := keys[..|keys| - 1], keys[|keys| - 1];
      var before, sweep := TrialCalls(card, init), TryKeyCalls(card, last);
      assert TrialCalls(card, keys) == before + sweep;
      assert AuthKeysAt(before + sweep, 0) == AuthKeysAt(before, 0) + AuthKeysAt(sweep, 0) by {
        AuthKeysAtAppend(before, sweep, 0);
      }
      assert AuthKeysAt(before, 0) == init by {
        TrialKeysInOrder(card, init);
      }
      assert AuthKeysAt(sweep, 0) == [last] by {
        TryKeyFirstBlockKeys(card, last);
      }
      assert init + [last] == keys;
    }
  }
}
