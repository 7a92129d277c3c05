/** Base64 as section 4 of RFC 4648 has it, decoded strictly: padded and canonical or not at all. */
module Base64 {
  import opened Outcomes

  /** A char of a std::string: one byte. */
  type Byte = c: char | c as int < 256

  type Bytes = seq<Byte>

  type Sextet = n: int | 0 <= n < 64

  const PAD: Byte := '='

  function Letter(n: Sextet): Byte {
    if n < 26 then (n + 65) as char
    else if n < 52 then (n + 71) as char
    else if n < 62 then (n - 4) as char
    else if n == 62 then '+'
    else '/'
  }

  function Digit(c: Byte): Option<Sextet> {
    var n := c as int;
    if 65 <= n <= 90 then Some(n - 65)
    else if 97 <= n <= 122 then Some(n - 71)
    else if 48 <= n <= 57 then Some(n + 4)
    else if c == '+' then Some(62)
    else if c == '/' then Some(63)
    else None
  }

  lemma DigitOfLetter(n: Sextet)
    ensures Digit(Letter(n)) == Some(n) && Letter(n) != PAD
  {
  }

  lemma LetterOfDigit(c: Byte)
    ensures Digit(c).Some? ==> Letter(Digit(c).value) == c
    ensures Digit(PAD) == None
  {
  }

  // ---------- One group of four letters ----------

  function First(a: Byte): Sextet {
    a as int / 4
  }

  function Second(a: Byte, b: int): Sextet
    requires 0 <= b < 256
  {
    a as int % 4 * 16 + b / 16
  }

  function Third(b: Byte, c: int): Sextet
    requires 0 <= c < 256
  {
    b as int % 16 * 4 + c / 64
  }

  function Fourth(c: Byte): Sextet {
    c as int % 64
  }

  /** A group of one, two or three bytes, padded to four letters. */
  function Group(g: Bytes): (s: Bytes)
    requires 1 <= |g| <= 3
    ensures |s| == 4
  {
    if |g| == 1 then [Letter(First(g[0])), Letter(Second(g[0], 0)), PAD, PAD]
    else if |g| == 2 then
      [Letter(First(g[0])), Letter(Second(g[0], g[1] as int)), Letter(Third(g[1], 0)), PAD]
    else
      [Letter(First(g[0])), Letter(Second(g[0], g[1] as int)), Letter(Third(g[1], g[2] as int)), Letter(Fourth(g[2]))]
  }

  /** The alphabet: capitals, small letters, digits, plus and slash, each in its order. */
  lemma AlphabetIs(n: Sextet)
    ensures n < 26 ==> Letter(n) as int == 'A' as int + n
    ensures 26 <= n < 52 ==> Letter(n) as int == 'a' as int + (n - 26)
    ensures 52 <= n < 62 ==> Letter(n) as int == '0' as int + (n - 52)
    ensures Letter(62) == '+' && Letter(63) == '/'
  {
  }

  /** The bytes of a group as one number of 24 bits, the first byte the highest, short groups filled with zeros. */
  function Bits(g: Bytes): nat
    requires 1 <= |g| <= 3
  {
    g[0] as int * 65536 + (if |g| > 1 then g[1] as int * 256 else 0) + (if |g| > 2 then g[2] as int else 0)
  }

  /** Its letters stand for those bits six at a time, and padding takes the place of those that carry none. */
  lemma GroupIsItsBits(g: Bytes)
    requires 1 <= |g| <= 3
    ensures Group(g)[0] == Letter(Bits(g) / 262144 % 64) && Group(g)[1] == Letter(Bits(g) / 4096 % 64)
    ensures Group(g)[2] == if |g| > 1 then Letter(Bits(g) / 64 % 64) else PAD
    ensures Group(g)[3] == if |g| > 2 then Letter(Bits(g) % 64) else PAD
  {
    var a, b, c := g[0] as int, if |g| > 1 then g[1] as int else 0, if |g| > 2 then g[2] as int else 0;
    hide Letter;
    SixBits(a, b, c);
  }

  lemma SixBits(a: int, b: int, c: int)
    requires 0 <= a < 256 && 0 <= b < 256 && 0 <= c < 256
    ensures var n := a * 65536 + b * 256 + c;
            && n / 262144 % 64 == a / 4 && n / 4096 % 64 == a % 4 * 16 + b / 16
            && n / 64 % 64 == b % 16 * 4 + c / 64 && n % 64 == c % 64
  {
    var n := a * 65536 + b * 256 + c;
    var a1, a0, b1, b0, c1, c0 := a / 4, a % 4, b / 16, b % 16, c / 64, c % 64;
    HighestOf(n, a1, a0 * 65536 + b * 256 + c);
    UpperOf(n, a1 * 64 + (a0 * 16 + b1), b0 * 256 + c);
    LowestOf(n, (a1 * 64 + (a0 * 16 + b1)) * 64 + (b0 * 4 + c1), c0);
    LowestOf(a1 * 64 + (a0 * 16 + b1), a1, a0 * 16 + b1);
    LowestOf((a1 * 64 + (a0 * 16 + b1)) * 64 + (b0 * 4 + c1), a1 * 64 + (a0 * 16 + b1), b0 * 4 + c1);
  }

  lemma HighestOf(n: int, q: int, r: int)
    requires n == 262144 * q + r && 0 <= r < 262144
    ensures n / 262144 == q
  {
  }

  lemma UpperOf(n: int, q: int, r: int)
    requires n == 4096 * q + r && 0 <= r < 4096
    ensures n / 4096 == q
  {
  }

  lemma LowestOf(n: int, q: int, r: int)
    requires n == 64 * q + r && 0 <= r < 64
    ensures n / 64 == q && n % 64 == r
  {
  }

  /** The examples of section 10 of RFC 4648. */
  lemma ExamplesOfTheStandard()
    ensures Encode("f") == "Zg==" && Encode("fo") == "Zm8=" && Encode("foo") == "Zm9v"
    ensures Encode("foob") == "Zm9vYg==" && Encode("fooba") == "Zm9vYmE=" && Encode("foobar") == "Zm9vYmFy"
  {
  }

  function Encode(data: Bytes): Bytes
    decreases |data|
  {
    if data == [] then []
    else if |data| <= 3 then Group(data)
    else Group(data[..3]) + Encode(data[3..])
  }

  /** The bytes of one group; padding only in the last, and no stray bits under it. */
  function Ungroup(s: Bytes, last: bool): (r: Option<Bytes>)
    requires |s| == 4
    ensures r.Some? ==> 1 <= |r.value| <= 3
  {
    var p, q := Digit(s[0]), Digit(s[1]);
    if p.None? || q.None? then None else
    var a := p.value * 4 + q.value / 16;
    if s[2] == PAD then
      if last && s[3] == PAD && q.value % 16 == 0 then Some([a as char]) else None
    else
      var r := Digit(s[2]);
      if r.None? then None else
      var b := q.value % 16 * 16 + r.value / 4;
      if s[3] == PAD then
        if last && r.value % 4 == 0 then Some([a as char, b as char]) else None
      else
        var t := Digit(s[3]);
        if t.None? then None else
        Some([a as char, b as char, (r.value % 4 * 64 + t.value) as char])
  }

  /** All the groups of a text, or None if any of it is not base64. */
  function DecodeGroups(s: Bytes): Option<Bytes>
    decreases |s|
  {
    if s == [] then Some([])
    else if |s| < 4 then None
    else
      var head := Ungroup(s[..4], |s| == 4);
      var tail := DecodeGroups(s[4..]);
      if head.None? || tail.None? then None else Some(head.value + tail.value)
  }

  /** Nothing is not base64 here. */
  function Decode(s: Bytes): Option<Bytes> {
    if s == [] then None else DecodeGroups(s)
  }

  // ---------- Round trips ----------

  lemma BitsSplit(a: int, b: int, c: int)
    requires 0 <= a < 256 && 0 <= b < 256 && 0 <= c < 256
    ensures var q, r := a % 4 * 16 + b / 16, b % 16 * 4 + c / 64;
            && q / 16 == a % 4 && q % 16 == b / 16 && r / 4 == b % 16 && r % 4 == c / 64
            && a / 4 * 4 + q / 16 == a && q % 16 * 16 + r / 4 == b && r % 4 * 64 + c % 64 == c
  {
  }

  lemma BitsJoin(p: Sextet, q: Sextet, r: Sextet, t: Sextet)
    ensures var a, b, c := p * 4 + q / 16, q % 16 * 16 + r / 4, r % 4 * 64 + t;
            && 0 <= a < 256 && 0 <= b < 256 && 0 <= c < 256
            && a / 4 == p && a % 4 * 16 + b / 16 == q && b % 16 * 4 + c / 64 == r && c % 64 == t
  {
  }

  lemma UngroupsOne(a: Byte)
    ensures Ungroup(Group([a]), true) == Some([a])
  {
    BitsSplit(a as int, 0, 0);
    DigitOfLetter(First(a));
    DigitOfLetter(Second(a, 0));
    hide Letter, Digit;
  }

  lemma UngroupsTwo(a: Byte, b: Byte)
    ensures Ungroup(Group([a, b]), true) == Some([a, b])
  {
    BitsSplit(a as int, b as int, 0);
    DigitOfLetter(First(a));
    DigitOfLetter(Second(a, b as int));
    DigitOfLetter(Third(b, 0));
    hide Letter, Digit;
  }

  lemma UngroupsThree(a: Byte, b: Byte, c: Byte, last: bool)
    ensures Ungroup(Group([a, b, c]), last) == Some([a, b, c])
  {
    BitsSplit(a as int, b as int, c as int);
    DigitOfLetter(First(a));
    DigitOfLetter(Second(a, b as int));
    DigitOfLetter(Third(b, c as int));
    DigitOfLetter(Fourth(c));
    hide Letter, Digit;
  }

  lemma UngroupsGroup(g: Bytes, last: bool)
    requires 1 <= |g| <= 3 && (|g| < 3 ==> last)
    ensures Ungroup(Group(g), last) == Some(g)
  {
    hide Group, Ungroup;
    if |g| == 1 {
      assert g == [g[0]];
      UngroupsOne(g[0]);
    } else if |g| == 2 {
      assert g == [g[0], g[1]];
      UngroupsTwo(g[0], g[1]);
    } else {
      assert g == [g[0], g[1], g[2]];
      UngroupsThree(g[0], g[1], g[2], last);
    }
  }

  lemma PaddedGroupsUngroup(s: Bytes, last: bool)
    requires |s| == 4 && Ungroup(s, last).Some? && (s[2] == PAD || s[3] == PAD)
    ensures Group(Ungroup(s, last).value) == s && last
  {
    LetterOfDigit(s[0]);
    LetterOfDigit(s[1]);
    LetterOfDigit(s[2]);
    hide Letter, Digit;
    var p, q := Digit(s[0]).value, Digit(s[1]).value;
    if s[2] == PAD {
      BitsJoin(p, q, 0, 0);
      assert s == [s[0], s[1], PAD, PAD];
    } else {
      BitsJoin(p, q, Digit(s[2]).value, 0);
      assert s == [s[0], s[1], s[2], PAD];
    }
  }

  lemma FullGroupsUngroup(s: Bytes, last: bool)
    requires |s| == 4 && Ungroup(s, last).Some? && s[2] != PAD && s[3] != PAD
    ensures Group(Ungroup(s, last).value) == s && |Ungroup(s, last).value| == 3
  {
    LetterOfDigit(s[0]);
    LetterOfDigit(s[1]);
    LetterOfDigit(s[2]);
    LetterOfDigit(s[3]);
    hide Letter, Digit;
    BitsJoin(Digit(s[0]).value, Digit(s[1]).value, Digit(s[2]).value, Digit(s[3]).value);
    assert s == [s[0], s[1], s[2], s[3]];
  }

  lemma GroupsUngroup(s: Bytes, last: bool)
    requires |s| == 4 && Ungroup(s, last).Some?
    ensures Group(Ungroup(s, last).value) == s
    ensures |Ungroup(s, last).value| < 3 ==> last
  {
    hide Group, Ungroup;
    if s[2] == PAD || s[3] == PAD {
      PaddedGroupsUngroup(s, last);
    } else {
      FullGroupsUngroup(s, last);
    }
  }

  lemma OneGroup(s: Bytes)
    requires |s| == 4 && Ungroup(s, true).Some?
    ensures DecodeGroups(s) == Ungroup(s, true)
  {
    hide Ungroup;
    assert s[..4] == s && s[4..] == [];
    var head := Ungroup(s, true).value;
    assert head + [] == head;
  }

  lemma {:induction false} DecodesEncoded(data: Bytes)
    ensures DecodeGroups(Encode(data)) == Some(data)
    decreases |data|
  {
    hide Group, Ungroup;
    if data == [] {
    } else if |data| <= 3 {
      UngroupsGroup(data, true);
      OneGroup(Group(data));
    } else {
      var head, tail := data[..3], data[3..];
      var s := Group(head) + Encode(tail);
      UngroupsGroup(head, |s| == 4);
      DecodesEncoded(tail);
      assert s[..4] == Group(head) && s[4..] == Encode(tail);
      assert data == head + tail;
    }
  }

  lemma {:induction false} EncodesDecoded(s: Bytes)
    requires DecodeGroups(s).Some?
    ensures Encode(DecodeGroups(s).value) == s
    ensures |DecodeGroups(s).value| <= |s| / 4 * 3
    ensures s != [] ==> DecodeGroups(s).value != []
    decreases |s|
  {
    hide Group, Ungroup;
    if s != [] {
      var last := |s| == 4;
      var head := Ungroup(s[..4], last).value;
      var tail := DecodeGroups(s[4..]).value;
      GroupsUngroup(s[..4], last);
      EncodesDecoded(s[4..]);
      assert s == s[..4] + s[4..];
      if last {
        assert s[4..] == [] && head + tail == head;
      } else {
        assert (head + tail)[..3] == head && (head + tail)[3..] == tail;
      }
    }
  }

  /**
   Decoding succeeds on exactly the encodings of non-empty data, and gives that data back:
   each text has one meaning and each meaning one text.
   */
  lemma DecodeInvertsEncode(s: Bytes, data: Bytes)
    ensures Decode(s) == Some(data) <==> data != [] && s == Encode(data)
  {
    DecodesEncoded(data);
    if s != [] && DecodeGroups(s).Some? {
      EncodesDecoded(s);
    }
  }

  // ---------- The decoder fills a buffer ----------

  lemma NextGroup(s: Bytes, i: nat)
    requires i + 4 <= |s|
    ensures var head, tail := Ungroup(s[i..i + 4], i + 4 == |s|), DecodeGroups(s[i + 4..]);
            DecodeGroups(s[i..]) == if head.None? || tail.None? then None else Some(head.value + tail.value)
  {
    hide Ungroup;
    assert s[i..][..4] == s[i..i + 4] && s[i..][4..] == s[i + 4..];
  }

  /** What is decoded so far and what the rest decodes to, if it does. */
  function Onwards(done: Bytes, rest: Option<Bytes>): Option<Bytes> {
    if rest.None? then None else Some(done + rest.value)
  }

  lemma OnwardsUnfolds(done: Bytes, head: Bytes, tail: Option<Bytes>)
    ensures Onwards([], tail) == tail
    ensures Onwards(done, Some([])) == Some(done)
    ensures Onwards(done, if tail.None? then None else Some(head + tail.value)) == Onwards(done + head, tail)
  {
    if tail.Some? {
      assert [] + tail.value == tail.value;
      assert done + (head + tail.value) == (done + head) + tail.value;
    }
    assert done + [] == done;
  }

  method CopyInto(buffer: array<Byte>, at: nat, group: Bytes)
    requires at + |group| <= buffer.Length
    modifies buffer
    ensures buffer[..at + |group|] == old(buffer[..at]) + group
  {
    for k := 0 to |group|
      invariant buffer[..at + k] == old(buffer[..at]) + group[..k]
    {
      buffer[at + k] := group[k];
    }
    assert group[..|group|] == group;
  }

  /** The buffer of (n/4 + 1)*3 bytes that is set aside is never too small. */
  method DecodeBase64(encoded: Bytes) returns (r: Option<Bytes>)
    ensures r == Decode(encoded)
  {
    hide Ungroup, DecodeGroups;
    if encoded == [] {
      return None;
    }
    var decoded := new Byte[(|encoded| / 4 + 1) * 3];
    var decodedLength, i := 0, 0;
    assert encoded[0..] == encoded && decoded[..0] == [];
    OnwardsUnfolds([], [], DecodeGroups(encoded));
    while i < |encoded|
      invariant 0 <= i <= |encoded| && i % 4 == 0 && 0 <= decodedLength <= i / 4 * 3
      invariant DecodeGroups(encoded) == Onwards(decoded[..decodedLength], DecodeGroups(encoded[i..]))
    {
      if |encoded| - i < 4 {
        TooShort(encoded[i..]);
        return None;
      }
      NextGroup(encoded, i);
      var group := Ungroup(encoded[i..i + 4], i + 4 == |encoded|);
      if group.None? {
        return None;
      }
      OnwardsUnfolds(decoded[..decodedLength], group.value, DecodeGroups(encoded[i + 4..]));
      CopyInto(decoded, decodedLength, group.value);
      decodedLength := decodedLength + |group.value|;
      i := i + 4;
    }
    assert encoded[i..] == [];
    NoGroups();
    OnwardsUnfolds(decoded[..decodedLength], [], None);
    return Some(decoded[..decodedLength]);
  }

  lemma TooShort(s: Bytes)
    requires 0 < |s| < 4
    ensures DecodeGroups(s) == None
  {
  }

  lemma NoGroups()
    ensures DecodeGroups([]) == Some([])
  {
  }
}
