/** Unpadded base64, as Go's RawStdEncoding and RawURLEncoding print and read
    it: sections 4 and 5 of RFC 4648. Reading skips line ends and forgives
    leftover bits, as the library does. */
module Base64 {
  import opened Types

  type Byte = x: int | 0 <= x < 256
  type Sextet = x: int | 0 <= x < 64

  datatype Alphabet = Standard | Url

  function Digit(a: Alphabet, v: Sextet): char {
    if v < 26 then 'A' + v as char
    else if v < 52 then 'a' + (v - 26) as char
    else if v < 62 then '0' + (v - 52) as char
    else if v == 62 then (if a == Standard then '+' else '-')
    else (if a == Standard then '/' else '_')
  }

  function Value(a: Alphabet, c: char): Option<Sextet> {
    if 'A' <= c <= 'Z' then Some((c - 'A') as int)
    else if 'a' <= c <= 'z' then Some((c - 'a') as int + 26)
    else if '0' <= c <= '9' then Some((c - '0') as int + 52)
    else if c == Digit(a, 62) then Some(62)
    else if c == Digit(a, 63) then Some(63)
    else None
  }

  lemma ValueOfDigit(a: Alphabet, v: Sextet)
    ensures Value(a, Digit(a, v)) == Some(v)
    ensures Digit(a, v) != '\n' && Digit(a, v) != '\r' && Digit(a, v) != '$'
  {
  }

  // ---------- one group ----------

  function First(x: Byte): Sextet {
    x / 4
  }

  function Second(x: Byte, y: Byte): Sextet {
    x % 4 * 16 + y / 16
  }

  function Third(y: Byte, z: Byte): Sextet {
    y % 16 * 4 + z / 64
  }

  function Fourth(z: Byte): Sextet {
    z % 64
  }

  function Group(a: Alphabet, x: Byte, y: Byte, z: Byte): string {
    [Digit(a, First(x)), Digit(a, Second(x, y)), Digit(a, Third(y, z)), Digit(a, Fourth(z))]
  }

  function Encode(a: Alphabet, bytes: seq<Byte>): string {
    if |bytes| == 0 then ""
    else if |bytes| == 1 then Group(a, bytes[0], 0, 0)[..2]
    else if |bytes| == 2 then Group(a, bytes[0], bytes[1], 0)[..3]
    else Group(a, bytes[0], bytes[1], bytes[2]) + Encode(a, bytes[3..])
  }

  function High(p: Sextet, q: Sextet): Byte {
    p * 4 + q / 16
  }

  function Middle(q: Sextet, r: Sextet): Byte {
    q % 16 * 16 + r / 4
  }

  function Low(r: Sextet, s: Sextet): Byte {
    r % 4 * 64 + s
  }

  predicate LineEnd(c: char) {
    c == '\n' || c == '\r'
  }

  function Unbroken(text: string): string {
    if |text| == 0 then ""
    else if LineEnd(text[0]) then Unbroken(text[1..])
    else [text[0]] + Unbroken(text[1..])
  }

  /** The values of all digits, or None when one is not a digit. */
  function Values(a: Alphabet, text: string): Option<seq<Sextet>> {
    if |text| == 0 then Some([])
    else
      var first, rest := Value(a, text[0]), Values(a, text[1..]);
      if first.None? || rest.None? then None else Some([first.value] + rest.value)
  }

  function Bytes(values: seq<Sextet>): Option<seq<Byte>> {
    if |values| == 0 then Some([])
    else if |values| == 1 then None
    else if |values| == 2 then Some([High(values[0], values[1])])
    else if |values| == 3 then Some([High(values[0], values[1]), Middle(values[1], values[2])])
    else
      var rest := Bytes(values[4..]);
      if rest.None? then None
      else Some([High(values[0], values[1]), Middle(values[1], values[2]), Low(values[2], values[3])] + rest.value)
  }

  function Decode(a: Alphabet, text: string): Option<seq<Byte>> {
    var values := Values(a, Unbroken(text));
    if values.None? then None else Bytes(values.value)
  }

  // ---------- round trip ----------

  /** What the digits of an encoding stand for. */
  function Sextets(bytes: seq<Byte>): seq<Sextet> {
    if |bytes| == 0 then []
    else if |bytes| == 1 then [First(bytes[0]), Second(bytes[0], 0)]
    else if |bytes| == 2 then [First(bytes[0]), Second(bytes[0], bytes[1]), Third(bytes[1], 0)]
    else
      [First(bytes[0]), Second(bytes[0], bytes[1]), Third(bytes[1], bytes[2]), Fourth(bytes[2])] + Sextets(bytes[3..])
  }

  function Digits(a: Alphabet, values: seq<Sextet>): string {
    if |values| == 0 then "" else [Digit(a, values[0])] + Digits(a, values[1..])
  }

  lemma {:induction false} EncodesSextets(a: Alphabet, bytes: seq<Byte>)
    ensures Encode(a, bytes) == Digits(a, Sextets(bytes))
  {
    if |bytes| >= 3 {
      EncodesSextets(a, bytes[3..]);
      FourDigits(a, Sextets(bytes)[..4], Sextets(bytes[3..]));
    } else {
      var values := Sextets(bytes);
      FewDigits(a, values);
    }
  }

  lemma FourDigits(a: Alphabet, head: seq<Sextet>, tail: seq<Sextet>)
    requires |head| == 4
    ensures Digits(a, head + tail) == [Digit(a, head[0]), Digit(a, head[1]), Digit(a, head[2]), Digit(a, head[3])] + Digits(a, tail)
  {
    var all := head + tail;
    assert all[1..] == head[1..] + tail && all[2..] == head[2..] + tail && all[3..] == head[3..] + tail && all[4..] == tail;
    assert Digits(a, all[3..]) == [Digit(a, head[3])] + Digits(a, all[3..][1..]);
    assert Digits(a, all[2..]) == [Digit(a, head[2])] + Digits(a, all[2..][1..]);
    assert Digits(a, all[1..]) == [Digit(a, head[1])] + Digits(a, all[1..][1..]);
    assert all[1..][1..] == all[2..] && all[2..][1..] == all[3..] && all[3..][1..] == all[4..];
  }

  lemma FewDigits(a: Alphabet, values: seq<Sextet>)
    requires |values| <= 3
    ensures Digits(a, values) == seq(|values|, i requires 0 <= i < |values| => Digit(a, values[i]))
  {
    if |values| == 3 {
      assert values[1..][1..] == [values[2]];
    } else if |values| == 2 {
      assert values[1..] == [values[1]];
    }
  }

  lemma {:induction false} ReadsDigits(a: Alphabet, values: seq<Sextet>)
    ensures Unbroken(Digits(a, values)) == Digits(a, values)
    ensures Values(a, Digits(a, values)) == Some(values)
    ensures forall i :: 0 <= i < |Digits(a, values)| ==> Digits(a, values)[i] != '$'
  {
    if |values| > 0 {
      ReadsDigits(a, values[1..]);
      ValueOfDigit(a, values[0]);
      assert Digits(a, values)[1..] == Digits(a, values[1..]);
      assert [values[0]] + values[1..] == values;
    }
  }

  lemma GroupUndone(x: Byte, y: Byte, z: Byte)
    ensures High(First(x), Second(x, y)) == x
    ensures Middle(Second(x, y), Third(y, z)) == y
    ensures Low(Third(y, z), Fourth(z)) == z
  {
  }

  lemma OneUndone(x: Byte, y: Byte)
    ensures Bytes([First(x), Second(x, y)]) == Some([x])
  {
    GroupUndone(x, y, y);
  }

  lemma TwoUndone(x: Byte, y: Byte, z: Byte)
    ensures Bytes([First(x), Second(x, y), Third(y, z)]) == Some([x, y])
  {
    GroupUndone(x, y, z);
  }

  lemma FourBytes(p: Sextet, q: Sextet, r: Sextet, s: Sextet, rest: seq<Sextet>, tail: seq<Byte>)
    requires Bytes(rest) == Some(tail)
    ensures Bytes([p, q, r, s] + rest) == Some([High(p, q), Middle(q, r), Low(r, s)] + tail)
  {
    assert ([p, q, r, s] + rest)[4..] == rest;
  }

  lemma ThreeUndone(x: Byte, y: Byte, z: Byte, rest: seq<Sextet>, tail: seq<Byte>)
    requires Bytes(rest) == Some(tail)
    ensures Bytes([First(x), Second(x, y), Third(y, z), Fourth(z)] + rest) == Some([x, y, z] + tail)
  {
    GroupUndone(x, y, z);
    FourBytes(First(x), Second(x, y), Third(y, z), Fourth(z), rest, tail);
  }

  lemma {:induction false} BytesOfSextets(bytes: seq<Byte>)
    ensures Bytes(Sextets(bytes)) == Some(bytes)
  {
    if |bytes| == 1 {
      OneUndone(bytes[0], 0);
      assert [bytes[0]] == bytes;
    } else if |bytes| == 2 {
      TwoUndone(bytes[0], bytes[1], 0);
      assert [bytes[0], bytes[1]] == bytes;
    } else if |bytes| >= 3 {
      BytesOfSextets(bytes[3..]);
      ThreeUndone(bytes[0], bytes[1], bytes[2], Sextets(bytes[3..]), bytes[3..]);
      assert [bytes[0], bytes[1], bytes[2]] + bytes[3..] == bytes;
    }
  }

  /** Reading what was printed gives the bytes back. */
  lemma DecodeUndoesEncode(a: Alphabet, bytes: seq<Byte>)
    ensures Decode(a, Encode(a, bytes)) == Some(bytes)
    ensures '$' !in Encode(a, bytes)
    ensures |bytes| > 0 ==> |Encode(a, bytes)| > 0
  {
    EncodesSextets(a, bytes);
    ReadsDigits(a, Sextets(bytes));
    BytesOfSextets(bytes);
  }

  // ---------- the two tables of the RFC ----------

  const CAPITALS := "ABCDEFGHIJKLMNOPQRSTUVWXYZ"
  const SMALL := "abcdefghijklmnopqrstuvwxyz"
  const FIGURES := "0123456789"

  /** Table 1, and Table 2, which differs in the last two. */
  function Letters(a: Alphabet): (letters: string)
    ensures |letters| == 64
  {
    CAPITALS + SMALL + FIGURES + (if a == Standard then "+/" else "-_")
  }

  lemma CapitalsAre(v: nat)
    requires v < 26
    ensures CAPITALS[v] == 'A' + v as char
  {
  }

  lemma SmallAre(v: nat)
    requires v < 26
    ensures SMALL[v] == 'a' + v as char
  {
  }

  lemma FiguresAre(v: nat)
    requires v < 10
    ensures FIGURES[v] == '0' + v as char
  {
  }

  /** Every digit is the letter of its table. */
  lemma DigitIsItsLetter(a: Alphabet, v: Sextet)
    ensures Digit(a, v) == Letters(a)[v]
  {
    if v < 26 {
      CapitalsAre(v);
    } else if v < 52 {
      SmallAre(v - 26);
    } else if v < 62 {
      FiguresAre(v - 52);
    }
  }

  /** Section 4: 24 bits, most significant first, are four digits; a shorter end
      is padded with zero bits to two digits or three. */
  ghost predicate Spells(letters: string, text: string, bytes: seq<Byte>)
    requires |letters| == 64
  {
    if |bytes| == 0 then text == ""
    else if |bytes| == 1 then TwoSpell(letters, text, bytes[0])
    else if |bytes| == 2 then ThreeSpell(letters, text, bytes[0], bytes[1])
    else
      |text| >= 4 && FourSpell(letters, text[..4], bytes[0], bytes[1], bytes[2]) && Spells(letters, text[4..], bytes[3..])
  }

  ghost predicate TwoSpell(letters: string, text: string, x: int)
    requires |letters| == 64
  {
    exists p: Sextet, q: Sextet :: p * 64 + q == x * 16 && text == [letters[p], letters[q]]
  }

  ghost predicate ThreeSpell(letters: string, text: string, x: int, y: int)
    requires |letters| == 64
  {
    exists p: Sextet, q: Sextet, r: Sextet ::
      p * 4096 + q * 64 + r == (x * 256 + y) * 4 && text == [letters[p], letters[q], letters[r]]
  }

  ghost predicate FourSpell(letters: string, text: string, x: int, y: int, z: int)
    requires |letters| == 64
  {
    exists p: Sextet, q: Sextet, r: Sextet, s: Sextet ::
      p * 262144 + q * 4096 + r * 64 + s == x * 65536 + y * 256 + z && text == [letters[p], letters[q], letters[r], letters[s]]
  }

  lemma GroupSpells(a: Alphabet, x: Byte, y: Byte, z: Byte)
    ensures FourSpell(Letters(a), Group(a, x, y, z), x, y, z)
  {
    var p, q, r, s := First(x), Second(x, y), Third(y, z), Fourth(z);
    DigitIsItsLetter(a, p);
    DigitIsItsLetter(a, q);
    DigitIsItsLetter(a, r);
    DigitIsItsLetter(a, s);
    GroupNumber(x, y, z);
  }

  lemma GroupNumber(x: int, y: int, z: int)
    requires 0 <= x < 256 && 0 <= y < 256 && 0 <= z < 256
    ensures First(x) * 262144 + Second(x, y) * 4096 + Third(y, z) * 64 + Fourth(z) == x * 65536 + y * 256 + z
  {
  }

  /** What Encode prints is what the RFC says, letter by letter. */
  lemma {:induction false} EncodeSpells(a: Alphabet, bytes: seq<Byte>)
    ensures Spells(Letters(a), Encode(a, bytes), bytes)
  {
    if |bytes| == 1 {
      OneSpells(a, bytes[0], Encode(a, bytes));
    } else if |bytes| == 2 {
      TwoSpells(a, bytes[0], bytes[1], Encode(a, bytes));
    } else if |bytes| >= 3 {
      EncodeSpells(a, bytes[3..]);
      GroupSpells(a, bytes[0], bytes[1], bytes[2]);
      var text := Encode(a, bytes);
      assert text[..4] == Group(a, bytes[0], bytes[1], bytes[2]) && text[4..] == Encode(a, bytes[3..]);
    }
  }

  lemma OneSpells(a: Alphabet, x: Byte, text: string)
    requires text == Group(a, x, 0, 0)[..2]
    ensures TwoSpell(Letters(a), text, x)
  {
    var p, q := First(x), Second(x, 0);
    DigitIsItsLetter(a, p);
    DigitIsItsLetter(a, q);
    OneNumber(x, p, q);
    assert text == [Letters(a)[p], Letters(a)[q]];
  }

  lemma OneNumber(x: int, p: int, q: int)
    requires 0 <= x < 256 && p == First(x) && q == Second(x, 0)
    ensures p * 64 + q == x * 16
  {
  }

  lemma TwoSpells(a: Alphabet, x: Byte, y: Byte, text: string)
    requires text == Group(a, x, y, 0)[..3]
    ensures ThreeSpell(Letters(a), text, x, y)
  {
    var p, q, r := First(x), Second(x, y), Third(y, 0);
    DigitIsItsLetter(a, p);
    DigitIsItsLetter(a, q);
    DigitIsItsLetter(a, r);
    TwoNumber(x, y, p, q, r);
    assert text == [Letters(a)[p], Letters(a)[q], Letters(a)[r]];
  }

  lemma TwoNumber(x: int, y: int, p: int, q: int, r: int)
    requires 0 <= x < 256 && 0 <= y < 256 && p == First(x) && q == Second(x, y) && r == Third(y, 0)
    ensures p * 4096 + q * 64 + r == (x * 256 + y) * 4
  {
  }

  lemma {:induction false} DigitsStay(a: Alphabet, values: seq<Sextet>)
    ensures forall c :: c in Digits(a, values) ==> c in Letters(a)
  {
    if |values| > 0 {
      DigitsStay(a, values[1..]);
      DigitIsItsLetter(a, values[0]);
    }
  }

  /** Nothing of the other alphabet is printed. */
  lemma OnlyItsOwnLetters(a: Alphabet, bytes: seq<Byte>)
    ensures forall c :: c in Encode(a, bytes) ==> c in Letters(a)
    ensures a == Standard ==> '-' !in Encode(a, bytes) && '_' !in Encode(a, bytes)
    ensures a == Url ==> '+' !in Encode(a, bytes) && '/' !in Encode(a, bytes)
  {
    EncodesSextets(a, bytes);
    DigitsStay(a, Sextets(bytes));
    StrangeLetters();
  }

  lemma StrangeLetters()
    ensures '-' !in Letters(Standard) && '_' !in Letters(Standard) && '+' !in Letters(Url) && '/' !in Letters(Url)
  {
    NotALetter(Standard, '-');
    NotALetter(Standard, '_');
    NotALetter(Url, '+');
    NotALetter(Url, '/');
  }

  /** Reading knows exactly the letters of the table. */
  lemma ValueExactly(a: Alphabet, c: char, v: Sextet)
    ensures Value(a, c) == Some(v) <==> c == Letters(a)[v]
  {
    ValueOfDigit(a, v);
    DigitIsItsLetter(a, v);
    if Value(a, c) == Some(v) {
      DigitOfValue(a, c);
    }
  }

  lemma DigitOfValue(a: Alphabet, c: char)
    requires Value(a, c).Some?
    ensures Digit(a, Value(a, c).value) == c
  {
  }

  lemma NotALetter(a: Alphabet, c: char)
    ensures Value(a, c) == None <==> c !in Letters(a)
  {
    if c in Letters(a) {
      var v :| 0 <= v < 64 && Letters(a)[v] == c;
      ValueExactly(a, c, v);
    } else if Value(a, c).Some? {
      ValueExactly(a, c, Value(a, c).value);
    }
  }

  lemma {:induction false} ValuesOrNot(a: Alphabet, text: string)
    ensures Values(a, text) == None <==> exists i :: 0 <= i < |text| && text[i] !in Letters(a)
    ensures Values(a, text).Some? ==> |Values(a, text).value| == |text|
  {
    if |text| > 0 {
      ValuesOrNot(a, text[1..]);
      NotALetter(a, text[0]);
      if i :| 0 <= i < |text| && text[i] !in Letters(a) {
        assert i > 0 ==> text[1..][i - 1] !in Letters(a);
      }
    }
  }

  lemma {:induction false} BytesOrNot(values: seq<Sextet>)
    ensures Bytes(values) == None <==> |values| % 4 == 1
  {
    if |values| >= 4 {
      BytesOrNot(values[4..]);
      FourFewer(|values|, |values[4..]|);
    }
  }

  lemma FourFewer(n: nat, k: nat)
    requires n == k + 4
    ensures n % 4 == k % 4
  {
  }

  /** A text cannot be read exactly when something in it, line ends apart, is no
      letter, or when one letter is left over. */
  lemma DecodeRefusesExactly(a: Alphabet, text: string)
    ensures Decode(a, text) == None <==>
              || (exists i :: 0 <= i < |Unbroken(text)| && Unbroken(text)[i] !in Letters(a))
              || |Unbroken(text)| % 4 == 1
  {
    ValuesOrNot(a, Unbroken(text));
    if Values(a, Unbroken(text)).Some? {
      BytesOrNot(Values(a, Unbroken(text)).value);
    }
  }

  /** Unbroken leaves out line ends and nothing else. */
  lemma {:induction false} UnbrokenKeeps(text: string)
    ensures forall c :: c in Unbroken(text) <==> c in text && c != '\n' && c != '\r'
    ensures '\n' !in text && '\r' !in text ==> Unbroken(text) == text
  {
    if |text| > 0 {
      UnbrokenKeeps(text[1..]);
      assert text == [text[0]] + text[1..];
    }
  }

  lemma PlusAndSlash()
    ensures Encode(Standard, [251, 255]) == "+/8" && Encode(Url, [251, 255]) == "-_8"
  {
  }
}
