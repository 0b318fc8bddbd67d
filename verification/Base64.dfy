/** Base 64 encoding of byte strings (section 4 of RFC 4648). */
module Base64 {
  import opened Options

  type Byte = n: int | 0 <= n < 256
  type Sextet = n: int | 0 <= n < 64

  function Digit(n: Sextet): char {
    if n < 26 then 'A' + n as char
    else if n < 52 then 'a' + (n - 26) as char
    else if n < 62 then '0' + (n - 52) as char
    else if n == 62 then '+' else '/'
  }

  function DigitValue(c: char): Option<Sextet> {
    if 'A' <= c <= 'Z' then Some((c - 'A') as int)
    else if 'a' <= c <= 'z' then Some((c - 'a') as int + 26)
    else if '0' <= c <= '9' then Some((c - '0') as int + 52)
    else if c == '+' then Some(62)
    else if c == '/' then Some(63)
    else None
  }

  /** The four digits of three bytes. */
  function FirstGroup(a: Byte, b: Byte, c: Byte): string {
    [Digit(a / 4), Digit(a % 4 * 16 + b / 16), Digit(b % 16 * 4 + c / 64), Digit(c % 64)]
  }

  function Encode(bytes: seq<Byte>): string {
    if bytes == [] then ""
    else if |bytes| == 1 then [Digit(bytes[0] / 4), Digit(bytes[0] % 4 * 16), '=', '=']
    else if |bytes| == 2 then
      [Digit(bytes[0] / 4), Digit(bytes[0] % 4 * 16 + bytes[1] / 16), Digit(bytes[1] % 16 * 4), '=']
    else
      FirstGroup(bytes[0], bytes[1], bytes[2]) + Encode(bytes[3..])
  }

  /** The bytes of one group of four digits, the last two of which may be padding. */
  function DecodeGroup(group: string): Option<seq<Byte>>
    requires |group| == 4
  {
    var a, b := DigitValue(group[0]), DigitValue(group[1]);
    var c, d := DigitValue(group[2]), DigitValue(group[3]);
    if a.None? || b.None? then None
    else
      var first := a.value * 4 + b.value / 16;
      if group[2] == '=' && group[3] == '=' then Some([first])
      else if c.None? then None
      else
        var second := b.value % 16 * 16 + c.value / 4;
        if group[3] == '=' then Some([first, second])
        else if d.None? then None
        else Some([first, second, c.value % 4 * 64 + d.value])
  }

  function Decode(text: string): Option<seq<Byte>> {
    if text == "" then Some([])
    else if |text| < 4 || DecodeGroup(text[..4]).None? then None
    else
      var rest := Decode(text[4..]);
      if rest.None? then None else Some(DecodeGroup(text[..4]).value + rest.value)
  }

  /** The test vectors of section 10 of RFC 4648. */
  lemma Vectors()
    ensures Encode([]) == "" && Encode([102]) == "Zg==" && Encode([102, 111]) == "Zm8="
    ensures Encode([102, 111, 111]) == "Zm9v"
    ensures Digit(62) == '+' && Digit(63) == '/' && Digit(52) == '0'
  {
    assert [102, 111, 111][3..] == [];
  }

  lemma DigitRoundTrip(n: Sextet)
    ensures DigitValue(Digit(n)) == Some(n) && Digit(n) != '='
  {
  }

  /** Two bits of one byte and four of the next share a digit, and come apart again. */
  lemma TwoAndFour(a: Byte, b: Byte)
    ensures a % 4 * 16 + b / 16 < 64
    ensures (a % 4 * 16 + b / 16) / 16 == a % 4 && (a % 4 * 16 + b / 16) % 16 == b / 16
    ensures a / 4 * 4 + a % 4 == a
  {
  }

  lemma FourAndTwo(b: Byte, c: Byte)
    ensures b % 16 * 4 + c / 64 < 64
    ensures (b % 16 * 4 + c / 64) / 4 == b % 16 && (b % 16 * 4 + c / 64) % 4 == c / 64
    ensures b / 16 * 16 + b % 16 == b && c / 64 * 64 + c % 64 == c
  {
  }

  lemma OneByte(a: Byte)
    ensures DecodeGroup(Encode([a])) == Some([a])
  {
    DigitRoundTrip(a / 4);
    DigitRoundTrip(a % 4 * 16);
    TwoAndFour(a, 0);
  }

  lemma TwoBytes(a: Byte, b: Byte)
    ensures DecodeGroup(Encode([a, b])) == Some([a, b])
  {
    var j, k := a % 4 * 16 + b / 16, b % 16 * 4;
    assert j < 64 && a / 4 * 4 + j / 16 == a && j % 16 == b / 16 by {
      TwoAndFour(a, b);
    }
    assert k < 64 && b / 16 * 16 + k / 4 == b by {
      FourAndTwo(b, 0);
    }
    DigitRoundTrip(a / 4);
    DigitRoundTrip(j);
    DigitRoundTrip(k);
  }

  lemma GroupOfSextets(i: Sextet, j: Sextet, k: Sextet, l: Sextet)
    ensures DecodeGroup([Digit(i), Digit(j), Digit(k), Digit(l)])
         == Some([i * 4 + j / 16, j % 16 * 16 + k / 4, k % 4 * 64 + l])
  {
    DigitRoundTrip(i);
    DigitRoundTrip(j);
    DigitRoundTrip(k);
    DigitRoundTrip(l);
  }

  lemma ThreeBytes(a: Byte, b: Byte, c: Byte)
    ensures DecodeGroup(FirstGroup(a, b, c)) == Some([a, b, c])
  {
    var j, k := a % 4 * 16 + b / 16, b % 16 * 4 + c / 64;
    assert j < 64 && a / 4 * 4 + j / 16 == a && j % 16 == b / 16 by {
      TwoAndFour(a, b);
    }
    assert k < 64 && b / 16 * 16 + k / 4 == b && k % 4 * 64 + c % 64 == c by {
      FourAndTwo(b, c);
    }
    GroupOfSextets(a / 4, j, k, c % 64);
  }

  lemma {:induction false} DecodeUndoesEncode(bytes: seq<Byte>)
    ensures Decode(Encode(bytes)) == Some(bytes)
  {
    if |bytes| == 1 {
      OneByte(bytes[0]);
      assert bytes == [bytes[0]];
      SingleGroup(Encode(bytes), bytes);
    } else if |bytes| == 2 {
      TwoBytes(bytes[0], bytes[1]);
      assert bytes == [bytes[0], bytes[1]];
      SingleGroup(Encode(bytes), bytes);
    } else if |bytes| >= 3 {
      var group := FirstGroup(bytes[0], bytes[1], bytes[2]);
      ThreeBytes(bytes[0], bytes[1], bytes[2]);
      DecodeUndoesEncode(bytes[3..]);
      MoreGroups(group, Encode(bytes[3..]), [bytes[0], bytes[1], bytes[2]], bytes[3..]);
      assert [bytes[0], bytes[1], bytes[2]] + bytes[3..] == bytes;
    }
  }

  lemma SingleGroup(group: string, bytes: seq<Byte>)
    requires |group| == 4 && DecodeGroup(group) == Some(bytes)
    ensures Decode(group) == Some(bytes)
  {
    assert group[..4] == group && group[4..] == "";
    assert bytes + [] == bytes;
  }

  lemma MoreGroups(group: string, rest: string, first: seq<Byte>, others: seq<Byte>)
    requires |group| == 4 && DecodeGroup(group) == Some(first) && Decode(rest) == Some(others)
    ensures Decode(group + rest) == Some(first + others)
  {
    assert (group + rest)[..4] == group && (group + rest)[4..] == rest;
  }
}
