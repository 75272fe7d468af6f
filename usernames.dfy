/** `generateUniqueUsername` (utils/GenrateUsername.js): the lower-cased name
    with whitespace removed, cut to eight characters, then `@` and the hex
    spelling of four random bytes. The bytes are a parameter. */
module Usernames {
  import opened Text

  newtype Byte = x: int | 0 <= x < 256

  const HexDigits: string := "0123456789abcdef"
  const RandomLength: nat := 4
  const ShortLength: nat := 8

  predicate IsHexDigit(c: char) {
    '0' <= c <= '9' || 'a' <= c <= 'f'
  }

  /** The value of one lower-case hex digit. */
  function DigitValue(c: char): (v: nat)
    requires IsHexDigit(c)
    ensures v < 16 && HexDigits[v] == c
  {
    if c <= '9' then c as int - '0' as int else c as int - 'a' as int + 10
  }

  /** `Buffer.toString('hex')`: two lower-case digits per byte, high nibble first. */
  function Hex(bytes: seq<Byte>): (r: string)
    ensures |r| == 2 * |bytes|
    ensures forall i :: 0 <= i < |r| ==> IsHexDigit(r[i])
  {
    if bytes == [] then []
    else [HexDigits[bytes[0] / 16], HexDigits[bytes[0] % 16]] + Hex(bytes[1..])
  }

  /** Reads a hex spelling back into bytes. */
  function Unhex(s: string): (bytes: seq<Byte>)
    requires |s| % 2 == 0
    requires forall i :: 0 <= i < |s| ==> IsHexDigit(s[i])
    ensures |bytes| == |s| / 2
  {
    if s == [] then []
    else [(16 * DigitValue(s[0]) + DigitValue(s[1])) as Byte] + Unhex(s[2..])
  }

  /** The hex spelling loses nothing: reading it back gives the bytes. */
  lemma {:induction false} UnhexHex(bytes: seq<Byte>)
    ensures Unhex(Hex(bytes)) == bytes
  {
    if bytes != [] {
      var b := bytes[0];
      var h := Hex(bytes);
      HexDigitsRead(b as int / 16);
      HexDigitsRead(b as int % 16);
      UnhexHex(bytes[1..]);
      assert h == [HexDigits[b / 16], HexDigits[b % 16]] + Hex(bytes[1..]);
      assert h[2..] == Hex(bytes[1..]);
    }
  }

  /** Each hex digit reads back as its own position. */
  lemma HexDigitsRead(k: nat)
    requires k < 16
    ensures DigitValue(HexDigits[k]) == k
  {
    assert HexDigits[DigitValue(HexDigits[k])] == HexDigits[k];
    assert forall i, j :: 0 <= i < j < 16 ==> HexDigits[i] != HexDigits[j];
  }

  /** Different random bytes give different suffixes. */
  lemma HexInjective(a: seq<Byte>, b: seq<Byte>)
    requires Hex(a) == Hex(b)
    ensures a == b
  {
    UnhexHex(a);
    UnhexHex(b);
  }

  /** `name.toLowerCase().replace(/\s+/g, '').slice(0, 8)`. */
  function ShortName(name: string): (r: string)
    ensures |r| <= ShortLength
    ensures forall i :: 0 <= i < |r| ==> !IsSpace(r[i])
    ensures StartsWith(StripSpaces(Lower(name)), r)
    ensures |StripSpaces(Lower(name))| >= ShortLength ==> |r| == ShortLength
  {
    var squeezed := StripSpaces(Lower(name));
    if |squeezed| <= ShortLength then squeezed else squeezed[..ShortLength]
  }

  function UniqueUsername(name: string, random: seq<Byte>): (r: string)
    requires |random| == RandomLength
    ensures |r| == |ShortName(name)| + 1 + 2 * RandomLength
    ensures r[|ShortName(name)|] == '@'
    ensures forall i :: |r| - 2 * RandomLength <= i < |r| ==> IsHexDigit(r[i])
  {
    ShortName(name) + "@" + Hex(random)
  }

  /** The part after the last `@` is the hex suffix, so the random bytes can
      be read back from any generated username, and the part before it is
      the short name. */
  lemma UsernameParts(name: string, random: seq<Byte>)
    requires |random| == RandomLength
    ensures var r := UniqueUsername(name, random);
      r[..|r| - 2 * RandomLength - 1] == ShortName(name)
      && r[|r| - 2 * RandomLength..] == Hex(random)
      && Unhex(r[|r| - 2 * RandomLength..]) == random
  {
    var r := UniqueUsername(name, random);
    assert r[..|r| - 2 * RandomLength - 1] == ShortName(name);
    assert r[|r| - 2 * RandomLength..] == Hex(random);
    UnhexHex(random);
  }

  /** Two users with the same name get different usernames whenever their
      random bytes differ. */
  lemma SameNameDifferentBytes(name: string, a: seq<Byte>, b: seq<Byte>)
    requires |a| == RandomLength && |b| == RandomLength && a != b
    ensures UniqueUsername(name, a) != UniqueUsername(name, b)
  {
    if UniqueUsername(name, a) == UniqueUsername(name, b) {
      UsernameParts(name, a);
      UsernameParts(name, b);
      HexInjective(a, b);
    }
  }

  /** A name made only of whitespace has an empty short name. */
  lemma {:induction false} BlankNameHasEmptyShortName(name: string)
    requires forall i :: 0 <= i < |name| ==> IsSpace(name[i])
    ensures ShortName(name) == []
  {
    BlankStrips(Lower(name));
  }

  lemma {:induction false} BlankStrips(s: string)
    requires forall i :: 0 <= i < |s| ==> IsSpace(s[i])
    ensures StripSpaces(s) == []
  {
    if s != [] {
      BlankStrips(s[1..]);
    }
  }
}
