/** Text the firmware sends over the serial link: the ` %02X` items of
    dump_byte_array and the `%02d` block number of a dump line. */
module Format {
  import opened Wrappers

  /** Arduino's `byte`: an unsigned 8-bit value. */
  newtype byte = x: int | 0 <= x < 256

  predicate IsUpperHexDigit(c: char)
  {
    '0' <= c <= '9' || 'A' <= c <= 'F'
  }

  function HexDigitValue(c: char): (v: nat)
    requires IsUpperHexDigit(c)
    ensures v < 16
  {
    if c <= '9' then c as int - '0' as int else c as int - 'A' as int + 10
  }

  /** The upper-case hex digit of a value below 16. */
  function HexDigit(d: nat): (c: char)
    requires d < 16
    ensures IsUpperHexDigit(c) && HexDigitValue(c) == d
  {
    if d < 10 then ('0' as int + d) as char else ('A' as int + d - 10) as char
  }

  /** `%02X`: two upper-case hex digits, most significant first. */
  function HexByte(b: byte): (h: string)
    ensures |h| == 2 && IsUpperHexDigit(h[0]) && IsUpperHexDigit(h[1])
    ensures HexDigitValue(h[0]) * 16 + HexDigitValue(h[1]) == b as int
  {
    [HexDigit(b as int / 16), HexDigit(b as int % 16)]
  }

  /** One item of dump_byte_array: ` %02X`. */
  function HexItem(b: byte): string
  {
    " " + HexByte(b)
  }

  /** Everything dump_byte_array prints for `bytes`, one item per byte. */
  function HexItems(bytes: seq<byte>): (s: string)
    ensures |s| == 3 * |bytes|
  {
    if bytes == [] then "" else HexItems(bytes[..|bytes| - 1]) + HexItem(bytes[|bytes| - 1])
  }

  /** Item `i` of the dump sits at characters 3i .. 3i+2: a space, then the
      two hex digits of `bytes[i]`. */
  lemma {:induction false} HexItemsAt(bytes: seq<byte>, i: nat)
    requires i < |bytes|
    ensures HexItems(bytes)[3 * i..3 * i + 3] == HexItem(bytes[i])
    ensures HexItems(bytes)[3 * i] == ' '
  {
    var init := bytes[..|bytes| - 1];
    assert HexItems(bytes) == HexItems(init) + HexItem(bytes[|bytes| - 1]);
    if i < |bytes| - 1 {
      HexItemsAt(init, i);
      assert HexItems(bytes)[3 * i..3 * i + 3] == HexItems(init)[3 * i..3 * i + 3];
    } else {
      assert HexItems(bytes)[3 * i..3 * i + 3] == HexItem(bytes[|bytes| - 1]);
    }
  }

  /** Reads back a dump_byte_array text: a run of ` HH` items. */
  function ParseHexItems(s: string): (r: Option<seq<byte>>)
    ensures r.Some? ==> 3 * |r.value| == |s|
  {
    if s == [] then Some([])
    else if |s| < 3 then None
    else
      var t := s[|s| - 3..];
      if t[0] == ' ' && IsUpperHexDigit(t[1]) && IsUpperHexDigit(t[2]) then
        match ParseHexItems(s[..|s| - 3])
        case Some(init) => Some(init + [(HexDigitValue(t[1]) * 16 + HexDigitValue(t[2])) as byte])
        case None => None
      else None
  }

  /** The dump can be read back: distinct byte arrays give distinct text. */
  lemma {:induction false} ParseHexItemsRoundTrip(bytes: seq<byte>)
    ensures ParseHexItems(HexItems(bytes)) == Some(bytes)
  {
    if bytes != [] {
      var init := bytes[..|bytes| - 1];
      var s := HexItems(bytes);
      assert s == HexItems(init) + HexItem(bytes[|bytes| - 1]);
      assert s[..|s| - 3] == HexItems(init);
      assert s[|s| - 3..] == HexItem(bytes[|bytes| - 1]);
      ParseHexItemsRoundTrip(init);
      assert init + [bytes[|bytes| - 1]] == bytes;
    }
  }

  predicate IsDecDigit(c: char)
  {
    '0' <= c <= '9'
  }

  function DecDigit(d: nat): (c: char)
    requires d < 10
    ensures IsDecDigit(c) && c as int - '0' as int == d
  {
    ('0' as int + d) as char
  }

  /** `%02d` of a value below 100: two decimal digits, zero padded. */
  function Dec2(n: nat): (s: string)
    requires n < 100
    ensures |s| == 2 && IsDecDigit(s[0]) && IsDecDigit(s[1])
    ensures (s[0] as int - '0' as int) * 10 + (s[1] as int - '0' as int) == n
  {
    [DecDigit(n / 10), DecDigit(n % 10)]
  }
}
