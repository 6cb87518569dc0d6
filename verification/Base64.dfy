/** The Base64 encoder, against a strict decoder after section 4 of RFC 4648. */
module Base64 {
  import opened DialogueTypes
  import opened Numbers

  const UPPER := "ABCDEFGHIJKLM" + "NOPQRSTUVWXYZ"
  const LOWER := "abcdefghijklm" + "nopqrstuvwxyz"
  const DIGITS := "0123456789"
  const CHARS := UPPER + LOWER + DIGITS + "+/"

  /** The value of a character of the alphabet (table 1 of the RFC). */
  function Value(c: char): (v: Option<nat>)
    ensures v.Some? ==> v.value < 64
  {
    if 'A' <= c <= 'Z' then Some(c as int - 'A' as int)
    else if 'a' <= c <= 'z' then Some(26 + (c as int - 'a' as int))
    else if '0' <= c <= '9' then Some(52 + (c as int - '0' as int))
    else if c == '+' then Some(62)
    else if c == '/' then Some(63)
    else None
  }

  lemma Upper(v: nat)
    requires v < 26
    ensures UPPER[v] as int == 'A' as int + v
  {
    match v
    case 0 => case 1 => case 2 => case 3 => case 4 => case 5 => case 6 => case 7 => case 8 =>
    case 9 => case 10 => case 11 => case 12 => case 13 => case 14 => case 15 => case 16 => case 17 =>
    case 18 => case 19 => case 20 => case 21 => case 22 => case 23 => case 24 => case 25 =>
  }

  lemma Lower(v: nat)
    requires v < 26
    ensures LOWER[v] as int == 'a' as int + v
  {
    match v
    case 0 => case 1 => case 2 => case 3 => case 4 => case 5 => case 6 => case 7 => case 8 =>
    case 9 => case 10 => case 11 => case 12 => case 13 => case 14 => case 15 => case 16 => case 17 =>
    case 18 => case 19 => case 20 => case 21 => case 22 => case 23 => case 24 => case 25 =>
  }

  lemma Digit(v: nat)
    requires v < 10
    ensures DIGITS[v] as int == '0' as int + v
  {
    match v
    case 0 => case 1 => case 2 => case 3 => case 4 => case 5 => case 6 => case 7 => case 8 => case 9 =>
  }

  function Letter(v: nat): (c: char)
    requires v < 64
  {
    CHARS[v]
  }

  lemma {:induction false} ValueOfLetter(v: nat)
    requires v < 64
    ensures Value(Letter(v)) == Some(v) && Letter(v) != '='
  {
    assert |UPPER| == 26 && |LOWER| == 26 && |DIGITS| == 10;
    if v < 26 { Upper(v); } else if v < 52 { Lower(v - 26); } else if v < 62 { Digit(v - 52); }
  }

  lemma {:induction false} LetterOfValue(c: char)
    requires Value(c).Some?
    ensures Value(c).value < 64 && Letter(Value(c).value) == c
  {
    ValueOfLetter(Value(c).value);
  }

  /** The 24-bit group that one to three bytes are packed into. */
  function Packed(b: seq<byte>): (n: int)
    requires 1 <= |b| <= 3
    ensures n >= 0
  {
    var x: int, y: int, z: int := b[0], if |b| > 1 then b[1] else 0, if |b| > 2 then b[2] else 0;
    x * 65536 + y * 256 + z
  }

  /** The four characters for one to three bytes. */
  function Group(b: seq<byte>): (r: string)
    requires 1 <= |b| <= 3
    ensures |r| == 4
  {
    var n := Packed(b);
    [ Letter(n / 262144 % 64), Letter(n / 4096 % 64),
      if |b| > 1 then Letter(n / 64 % 64) else '=',
      if |b| > 2 then Letter(n % 64) else '=' ]
  }

  function Encoded(s: seq<byte>): string {
    if s == [] then ""
    else if |s| <= 3 then Group(s)
    else Group(s[..3]) + Encoded(s[3..])
  }

  /** One to three bytes from four characters; the bits a padded group leaves over must be zero. */
  function Ungroup(a: char, b: char, c: char, d: char): Option<seq<byte>> {
    var va, vb, vc, vd := Value(a), Value(b), Value(c), Value(d);
    if va == None || vb == None then None
    else
      var first := (va.value * 4 + vb.value / 16) as byte;
      if c == '=' && d == '=' then
        if vb.value % 16 == 0 then Some([first]) else None
      else if vc == None then None
      else
        var second := (vb.value % 16 * 16 + vc.value / 4) as byte;
        if d == '=' then
          if vc.value % 4 == 0 then Some([first, second]) else None
        else if vd == None then None
        else Some([first, second, (vc.value % 4 * 64 + vd.value) as byte])
  }

  /** Padding is accepted in the last group only. */
  function Decoded(t: string): Option<seq<byte>> {
    if t == "" then Some([])
    else if |t| < 4 then None
    else
      var head := Ungroup(t[0], t[1], t[2], t[3]);
      if head == None || (|head.value| < 3 && |t| > 4) then None
      else
        var tail := Decoded(t[4..]);
        if tail == None then None else Some(head.value + tail.value)
  }

  lemma {:induction false} By262144(q: int, r: int)
    requires 0 <= r < 262144
    ensures (262144 * q + r) / 262144 == q
  {}

  lemma {:induction false} By4096(q: int, r: int)
    requires 0 <= r < 4096
    ensures (4096 * q + r) / 4096 == q
  {}

  lemma {:induction false} By64(q: int, r: int)
    requires 0 <= r < 64
    ensures (64 * q + r) / 64 == q && (64 * q + r) % 64 == r
  {}

  /** The three bytes split at the borders of the sextets. */
  lemma {:induction false} SplitSextets(a: int, b: int, c: int, d: int, e: int, f: int)
    requires 0 <= a < 64 && 0 <= b < 4 && 0 <= c < 16 && 0 <= d < 16 && 0 <= e < 4 && 0 <= f < 64
    ensures var n := (4 * a + b) * 65536 + (16 * c + d) * 256 + (64 * e + f);
      && n / 262144 % 64 == a && n / 4096 % 64 == b * 16 + c && n / 64 % 64 == d * 4 + e && n % 64 == f
  {
    By262144(a, b * 65536 + (16 * c + d) * 256 + (64 * e + f));
    By4096(64 * a + 16 * b + c, d * 256 + (64 * e + f));
    By64(0, a);
    By64(a, 16 * b + c);
    By64((4 * a + b) * 1024 + (16 * c + d) * 4 + e, f);
    By64((4 * a + b) * 16 + c, 4 * d + e);
  }

  lemma {:induction false} Sextets(x: int, y: int, z: int)
    requires 0 <= x < 256 && 0 <= y < 256 && 0 <= z < 256
    ensures var n := x * 65536 + y * 256 + z;
      && n / 262144 % 64 == x / 4 && n / 4096 % 64 == x % 4 * 16 + y / 16
      && n / 64 % 64 == y % 16 * 4 + z / 64 && n % 64 == z % 64
  {
    SplitSextets(x / 4, x % 4, y / 16, y % 16, z / 64, z % 64);
  }

  lemma {:induction false} GroupLetters(b: seq<byte>)
    requires 1 <= |b| <= 3
    ensures var x: int, y: int, z: int := b[0], if |b| > 1 then b[1] else 0, if |b| > 2 then b[2] else 0;
      Group(b) == [
        Letter(x / 4), Letter(x % 4 * 16 + y / 16),
        if |b| > 1 then Letter(y % 16 * 4 + z / 64) else '=',
        if |b| > 2 then Letter(z % 64) else '=' ]
  {
    hide Letter;
    var x: int, y: int, z: int := b[0], if |b| > 1 then b[1] else 0, if |b| > 2 then b[2] else 0;
    Sextets(x, y, z);
  }

  /** Splitting three bytes into sextets and putting them together again, both ways. */
  lemma {:induction false} Recombine(x: int, y: int, z: int)
    requires 0 <= x < 256 && 0 <= y < 256 && 0 <= z < 256
    ensures x / 4 * 4 + (x % 4 * 16 + y / 16) / 16 == x
    ensures (x % 4 * 16 + y / 16) % 16 * 16 + (y % 16 * 4 + z / 64) / 4 == y
    ensures (y % 16 * 4 + z / 64) % 4 * 64 + z % 64 == z
  {}

  lemma {:induction false} Separate(a: int, b: int, c: int, d: int)
    requires 0 <= a < 64 && 0 <= b < 64 && 0 <= c < 64 && 0 <= d < 64
    ensures var x, y, z := a * 4 + b / 16, b % 16 * 16 + c / 4, c % 4 * 64 + d;
      && 0 <= x < 256 && 0 <= y < 256 && 0 <= z < 256
      && x / 4 == a && x % 4 * 16 + y / 16 == b && y % 16 * 4 + z / 64 == c && z % 64 == d
  {}

  lemma {:induction false} UngroupGroup(b: seq<byte>)
    requires 1 <= |b| <= 3
    ensures var g := Group(b); Ungroup(g[0], g[1], g[2], g[3]) == Some(b)
  {
    hide Value, Letter, Group;
    GroupLetters(b);
    var x: int, y: int, z: int := b[0], if |b| > 1 then b[1] else 0, if |b| > 2 then b[2] else 0;
    Recombine(x, y, z);
    assert b == if |b| == 1 then [x] else if |b| == 2 then [x, y] else [x, y, z];
    ValueOfLetter(x / 4);
    ValueOfLetter(x % 4 * 16 + y / 16);
    ValueOfLetter(y % 16 * 4 + z / 64);
    ValueOfLetter(z % 64);
  }

  /** Decoding gives back what was encoded. */
  lemma {:induction false} RoundTrip(s: seq<byte>)
    ensures Decoded(Encoded(s)) == Some(s)
  {
    hide Group, Ungroup;
    if s != [] {
      if |s| <= 3 {
        UngroupGroup(s);
        assert Group(s)[4..] == "" && s + [] == s;
      } else {
        UngroupGroup(s[..3]);
        RoundTrip(s[3..]);
        var g := Group(s[..3]);
        assert (g + Encoded(s[3..]))[4..] == Encoded(s[3..]);
        assert s[..3] + s[3..] == s;
      }
    }
  }

  lemma {:induction false} GroupUngroup(a: char, b: char, c: char, d: char)
    requires Ungroup(a, b, c, d).Some?
    ensures var s := Ungroup(a, b, c, d).value;
      1 <= |s| <= 3 && Group(s) == [a, b, c, d]
  {
    hide Value, Letter, Group;
    var s := Ungroup(a, b, c, d).value;
    GroupLetters(s);
    Separate(
      Value(a).value, Value(b).value, if |s| > 1 then Value(c).value else 0, if |s| > 2 then Value(d).value else 0);
    LetterOfValue(a);
    LetterOfValue(b);
    if |s| > 1 { LetterOfValue(c); }
    if |s| > 2 { LetterOfValue(d); }
  }

  /** No other text decodes to the same bytes. */
  lemma {:induction false} OnlyEncoding(t: string)
    requires Decoded(t).Some?
    ensures Encoded(Decoded(t).value) == t
    decreases |t|
  {
    hide Group, Ungroup;
    if t != "" {
      GroupUngroup(t[0], t[1], t[2], t[3]);
      OnlyEncoding(t[4..]);
      var head, tail := Ungroup(t[0], t[1], t[2], t[3]).value, Decoded(t[4..]).value;
      assert t == [t[0], t[1], t[2], t[3]] + t[4..];
      if |t| > 4 {
        assert (head + tail)[..3] == head && (head + tail)[3..] == tail;
      } else {
        assert t[4..] == "" && head + tail == head;
      }
    }
  }

  lemma {:induction false} EncodedLength(s: seq<byte>)
    ensures |Encoded(s)| == 4 * ((|s| + 2) / 3)
  {
    hide Group;
    if |s| > 3 { EncodedLength(s[3..]); }
  }

  lemma {:induction false} EncodedStep(input: seq<byte>, i: nat, output: string)
    requires i < |input|
    ensures var next := if i + 3 < |input| then i + 3 else |input|;
      output + Encoded(input[i..]) == output + Group(input[i..next]) + Encoded(input[next..])
  {
    hide Group;
    var s := input[i..];
    if |s| > 3 {
      assert s[..3] == input[i..i + 3] && s[3..] == input[i + 3..];
    } else {
      assert s == input[i..|input|] && input[|input|..] == [];
    }
  }

  lemma NothingEncoded()
    ensures Encoded([]) == ""
  {}

  method EncodeGroup(input: seq<byte>, i: nat) returns (group: string)
    requires i < |input|
    ensures group == Group(input[i..if i + 3 < |input| then i + 3 else |input|])
  {
    hide Letter;
    var x: int := input[i];
    var n := x * 65536;
    if i + 1 < |input| {
      var y: int := input[i + 1];
      n := n + y * 256;
    }
    if i + 2 < |input| { n := n + input[i + 2]; }
    assert n == Packed(input[i..if i + 3 < |input| then i + 3 else |input|]);
    group := [Letter(n / 262144 % 64)];
    group := group + [Letter(n / 4096 % 64)];
    group := group + [if i + 1 < |input| then Letter(n / 64 % 64) else '='];
    group := group + [if i + 2 < |input| then Letter(n % 64) else '='];
  }

  method Base64Encode(input: seq<byte>) returns (output: string)
    ensures |output| == 4 * ((|input| + 2) / 3)
    ensures Decoded(output) == Some(input)
    ensures output == Encoded(input)
  {
    hide Encoded, Decoded, Group;
    output := "";
    var i := 0;
    assert input[0..] == input && "" + Encoded(input) == Encoded(input);
    while i < |input|
      invariant output + Encoded(input[if i < |input| then i else |input|..]) == Encoded(input)
    {
      EncodedStep(input, i, output);
      var group := EncodeGroup(input, i);
      output := output + group;
      i := i + 3;
    }
    assert input[|input|..] == [];
    NothingEncoded();
    assert output + "" == output;
    RoundTrip(input);
    EncodedLength(input);
  }
}
