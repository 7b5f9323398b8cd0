/** The URL-safe base 64 encoding without padding (section 5 of RFC 4648), as the
    library encodes and leniently decodes it: trailing bits that section 3.5 of
    RFC 4648 wants to be zero are ignored on decoding. */
module Base64Url {
  import opened Options

  type Byte = n: int | 0 <= n < 256
  type Sextet = n: int | 0 <= n < 64

  // ---- Letters -------------------------------------------------------------------------------------

  predicate InAlphabet(c: char) {
    'A' <= c <= 'Z' || 'a' <= c <= 'z' || '0' <= c <= '9' || c == '-' || c == '_'
  }

  /** A non-empty string over the alphabet. */
  predicate IsB64Url(s: string) {
    s != "" && forall i :: 0 <= i < |s| ==> InAlphabet(s[i])
  }

  function Letter(n: Sextet): (c: char)
    ensures InAlphabet(c)
  {
    if n < 26 then 'A' + n as char
    else if n < 52 then 'a' + (n - 26) as char
    else if n < 62 then '0' + (n - 52) as char
    else if n == 62 then '-' else '_'
  }

  function Value(c: char): Sextet
    requires InAlphabet(c)
  {
    if 'A' <= c <= 'Z' then (c - 'A') as int
    else if 'a' <= c <= 'z' then (c - 'a') as int + 26
    else if '0' <= c <= '9' then (c - '0') as int + 52
    else if c == '-' then 62 else 63
  }

  function Letters(s: seq<Sextet>): (r: string)
    ensures |r| == |s| && forall i :: 0 <= i < |s| ==> r[i] == Letter(s[i])
  {
    seq(|s|, i requires 0 <= i < |s| => Letter(s[i]))
  }

  function Values(s: string): (r: seq<Sextet>)
    requires forall i :: 0 <= i < |s| ==> InAlphabet(s[i])
    ensures |r| == |s| && forall i :: 0 <= i < |s| ==> r[i] == Value(s[i])
  {
    seq(|s|, i requires 0 <= i < |s| => Value(s[i]))
  }

  lemma LettersValues(s: seq<Sextet>)
    ensures Values(Letters(s)) == s
  {
  }

  lemma ValuesLetters(s: string)
    requires forall i :: 0 <= i < |s| ==> InAlphabet(s[i])
    ensures Letters(Values(s)) == s
  {
  }

  // ---- Bits ----------------------------------------------------------------------------------------

  // The four groups of three bytes, and the three bytes of four groups.
  function Group1(x: int): Sextet requires 0 <= x < 256 { x / 4 }
  function Group2(x: int, y: int): Sextet requires 0 <= x < 256 && 0 <= y < 256 { x % 4 * 16 + y / 16 }
  function Group3(y: int, z: int): Sextet requires 0 <= y < 256 && 0 <= z < 256 { y % 16 * 4 + z / 64 }
  function Group4(z: int): Sextet requires 0 <= z < 256 { z % 64 }
  function Byte1(a: int, b: int): Byte requires 0 <= a < 64 && 0 <= b < 64 { a * 4 + b / 16 }
  function Byte2(b: int, c: int): Byte requires 0 <= b < 64 && 0 <= c < 64 { b % 16 * 16 + c / 4 }
  function Byte3(c: int, d: int): Byte requires 0 <= c < 64 && 0 <= d < 64 { c % 4 * 64 + d }

  /** Bytes regrouped by six bits, zero bits filling the last group. */
  function Regroup(b: seq<Byte>): seq<Sextet> {
    if b == [] then []
    else if |b| == 1 then [Group1(b[0]), Group2(b[0], 0)]
    else if |b| == 2 then [Group1(b[0]), Group2(b[0], b[1]), Group3(b[1], 0)]
    else [Group1(b[0]), Group2(b[0], b[1]), Group3(b[1], b[2]), Group4(b[2])] + Regroup(b[3..])
  }

  /** The bytes of the six-bit groups; one group left over is an error, other
      left-over bits are dropped. */
  function Ungroup(s: seq<Sextet>): Option<seq<Byte>> {
    if s == [] then Some([])
    else if |s| == 1 then None
    else if |s| == 2 then Some([Byte1(s[0], s[1])])
    else if |s| == 3 then Some([Byte1(s[0], s[1]), Byte2(s[1], s[2])])
    else
      var rest := Ungroup(s[4..]);
      if rest.None? then None else Some([Byte1(s[0], s[1]), Byte2(s[1], s[2]), Byte3(s[2], s[3])] + rest.value)
  }

  /** The bits beyond the last byte are zero. */
  predicate TrailingZero(s: seq<Sextet>) {
    && (|s| % 4 == 2 ==> s[|s| - 1] % 16 == 0)
    && (|s| % 4 == 3 ==> s[|s| - 1] % 4 == 0)
  }

  lemma ThreeBytes(x: Byte, y: Byte, z: Byte)
    ensures Byte1(Group1(x), Group2(x, y)) == x
    ensures Byte2(Group2(x, y), Group3(y, z)) == y
    ensures Byte3(Group3(y, z), Group4(z)) == z
  {
  }

  lemma FourGroups(a: Sextet, b: Sextet, c: Sextet, d: Sextet)
    ensures Group1(Byte1(a, b)) == a
    ensures Group2(Byte1(a, b), Byte2(b, c)) == b
    ensures Group3(Byte2(b, c), Byte3(c, d)) == c
    ensures Group4(Byte3(c, d)) == d
    ensures Group2(Byte1(a, b), 0) == b <==> b % 16 == 0
    ensures Group3(Byte2(b, c), 0) == c <==> c % 4 == 0
  {
  }

  lemma {:induction false} UngroupRegroup(b: seq<Byte>)
    ensures Ungroup(Regroup(b)) == Some(b)
    decreases |b|
  {
    hide Group1, Group2, Group3, Group4, Byte1, Byte2, Byte3;
    if |b| == 1 {
      ThreeBytes(b[0], 0, 0);
      assert b == [b[0]];
    } else if |b| == 2 {
      ThreeBytes(b[0], b[1], 0);
      assert b == [b[0], b[1]];
    } else if |b| >= 3 {
      ThreeBytes(b[0], b[1], b[2]);
      UngroupRegroup(b[3..]);
      assert Regroup(b)[4..] == Regroup(b[3..]);
      assert b == [b[0], b[1], b[2]] + b[3..];
    }
  }

  /** Re-encoding gives the groups back exactly when the dropped bits were zero. */
  lemma {:induction false} RegroupUngroup(s: seq<Sextet>)
    requires Ungroup(s).Some?
    ensures Regroup(Ungroup(s).value) == s <==> TrailingZero(s)
    decreases |s|
  {
    hide Group1, Group2, Group3, Group4, Byte1, Byte2, Byte3;
    if |s| == 2 {
      FourGroups(s[0], s[1], 0, 0);
      assert s == [s[0], s[1]];
    } else if |s| == 3 {
      FourGroups(s[0], s[1], s[2], 0);
      assert s == [s[0], s[1], s[2]];
    } else if |s| >= 4 {
      RegroupUngroup(s[4..]);
      RegroupHead(s);
      TrailingTail(s);
      var head, tail := [s[0], s[1], s[2], s[3]], Regroup(Ungroup(s[4..]).value);
      hide Regroup, Ungroup, TrailingZero;
      assert s == head + s[4..];
      assert (head + tail)[4..] == tail;
    }
  }

  lemma RegroupHead(s: seq<Sextet>)
    requires |s| >= 4 && Ungroup(s).Some?
    ensures Ungroup(s[4..]).Some?
    ensures Regroup(Ungroup(s).value) == [s[0], s[1], s[2], s[3]] + Regroup(Ungroup(s[4..]).value)
  {
    hide Group1, Group2, Group3, Group4, Byte1, Byte2, Byte3;
    FourGroups(s[0], s[1], s[2], s[3]);
    var b := Ungroup(s).value;
    assert b[3..] == Ungroup(s[4..]).value;
  }

  lemma TrailingTail(s: seq<Sextet>)
    requires |s| >= 4
    ensures TrailingZero(s) <==> TrailingZero(s[4..])
  {
  }

  lemma {:induction false} UngroupFails(s: seq<Sextet>)
    ensures Ungroup(s).None? <==> |s| % 4 == 1
    decreases |s|
  {
    hide Byte1, Byte2, Byte3;
    if |s| >= 4 {
      UngroupFails(s[4..]);
      FourFewer(|s|);
    }
  }

  lemma FourFewer(n: nat)
    requires n >= 4
    ensures (n - 4) % 4 == n % 4
  {
  }

  lemma {:induction false} RegroupLength(b: seq<Byte>)
    ensures |Regroup(b)| == (4 * |b| + 2) / 3
    decreases |b|
  {
    hide Group1, Group2, Group3, Group4;
    if |b| >= 3 { RegroupLength(b[3..]); }
  }

  // ---- Strings -------------------------------------------------------------------------------------

  function Encode(b: seq<Byte>): string {
    Letters(Regroup(b))
  }

  function Decode(s: string): Option<seq<Byte>>
    requires forall i :: 0 <= i < |s| ==> InAlphabet(s[i])
  {
    Ungroup(Values(s))
  }

  lemma DecodeEncode(b: seq<Byte>)
    ensures forall i :: 0 <= i < |Encode(b)| ==> InAlphabet(Encode(b)[i])
    ensures |Encode(b)| == (4 * |b| + 2) / 3
    ensures Decode(Encode(b)) == Some(b)
  {
    LettersValues(Regroup(b));
    UngroupRegroup(b);
    RegroupLength(b);
  }

  /** A string is the encoding of what it decodes to exactly when it is canonical;
      it fails to decode exactly when one letter is left over. */
  lemma EncodeDecode(s: string)
    requires forall i :: 0 <= i < |s| ==> InAlphabet(s[i])
    ensures Decode(s).None? <==> |s| % 4 == 1
    ensures Decode(s).Some? ==> (Encode(Decode(s).value) == s <==> TrailingZero(Values(s)))
  {
    UngroupFails(Values(s));
    ValuesLetters(s);
    if Decode(s).Some? {
      RegroupUngroup(Values(s));
      LettersValues(Regroup(Decode(s).value));
    }
  }
}
