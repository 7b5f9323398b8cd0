/** Cell references such as `AB12`: the scanner that reads them, and the proof
    that its column arithmetic is bijective base 26. */
module CellReference {
  import opened Decimals
  import opened Options

  datatype Coord = Coord(row: int, column: int)

  const MAX_ROW := 1_048_576
  const MAX_COLUMN := 16_384

  predicate IsAscii(c: char) {
    'A' <= c <= 'Z' || 'a' <= c <= 'z'
  }

  /** The Unicode letters outside ASCII whose upper case consists of Latin capitals. */
  const FOLDED: map<char, string> := map[
    '\U{DF}' := "SS", '\U{131}' := "I", '\U{17F}' := "S", '\U{FB00}' := "FF", '\U{FB01}' := "FI",
    '\U{FB02}' := "FL", '\U{FB03}' := "FFI", '\U{FB04}' := "FFL", '\U{FB05}' := "ST", '\U{FB06}' := "ST"]

  /** A letter that can occur in a reference: any other letter has no capital from A to
      Z and is refused, as every other character is. */
  predicate IsLetter(c: char) {
    IsAscii(c) || c in FOLDED
  }

  function Upper(c: char): string {
    if c in FOLDED then FOLDED[c] else if 'a' <= c <= 'z' then [c - 'a' + 'A'] else [c]
  }

  function Uppered(s: string): string {
    if s == "" then "" else Upper(s[0]) + Uppered(s[1..])
  }

  /** How many letters the string starts with. */
  function Leading(s: string): (n: nat)
    ensures n <= |s|
    ensures forall i :: 0 <= i < n ==> IsLetter(s[i])
    ensures n < |s| ==> !IsLetter(s[n])
  {
    if s == "" || !IsLetter(s[0]) then 0 else 1 + Leading(s[1..])
  }

  predicate Capitals(s: string) {
    forall i :: 0 <= i < |s| ==> 'A' <= s[i] <= 'Z'
  }

  function Column(s: string): nat
    requires Capitals(s)
  {
    if s == "" then 0 else 26 * Column(s[..|s| - 1]) + (s[|s| - 1] - 'A') as nat + 1
  }

  lemma UpperCapital(c: char)
    requires IsLetter(c)
    ensures Capitals(Upper(c)) && Upper(c) != ""
  {
  }

  lemma {:induction false} UpperedCapitals(s: string)
    requires forall i :: 0 <= i < |s| ==> IsLetter(s[i])
    ensures Capitals(Uppered(s)) && |Uppered(s)| >= |s|
  {
    if s != "" {
      UpperCapital(s[0]);
      hide Upper;
      UpperedCapitals(s[1..]);
    }
  }

  lemma {:induction false} CapitalsStay(s: string)
    requires Capitals(s)
    ensures Uppered(s) == s
  {
    if s != "" {
      CapitalsStay(s[1..]);
      assert Upper(s[0]) == [s[0]];
    }
  }

  /** What a reference denotes, or nothing. */
  function Parse(value: string): Option<Coord> {
    var n := Leading(value);
    var letters, digits := Uppered(value[..n]), value[n..];
    if value == "" || |value| > 10 || |letters| < 1 || |letters| > 3 || !AllDigits(digits) then None
    else
      assert Capitals(letters) by { UpperedCapitals(value[..n]); }
      var row, column := Decimal(digits), Column(letters);
      if 1 <= row <= MAX_ROW && 1 <= column <= MAX_COLUMN then Some(Coord(row, column)) else None
  }

  lemma {:induction false} LeadingIs(s: string, n: nat)
    requires n <= |s| && (forall i :: 0 <= i < n ==> IsLetter(s[i])) && (n < |s| ==> !IsLetter(s[n]))
    ensures Leading(s) == n
  {
  }

  lemma {:induction false} ColumnStep(s: string, i: nat)
    requires i < |s| && Capitals(s)
    ensures Column(s[..i + 1]) == 26 * Column(s[..i]) + (s[i] - 'A') as nat + 1
  {
    assert s[..i + 1][..i] == s[..i];
  }

  /** The scanner: letters, then digits, then the range checks. */
  method Coordinates(value: string) returns (r: Option<Coord>)
    ensures r == Parse(value)
  {
    if value == "" || |value| > 10 { return None; }
    var n := 0;
    while n < |value| && IsLetter(value[n])
      invariant n <= |value| && forall i :: 0 <= i < n ==> IsLetter(value[i])
    {
      n := n + 1;
    }
    LeadingIs(value, n);
    var letters, digits := Uppered(value[..n]), value[n..];
    UpperedCapitals(value[..n]);
    if |letters| < 1 || |letters| > 3 || !AllDigits(digits) { return None; }
    var column := 0;
    for i := 0 to |letters|
      invariant column == Column(letters[..i])
    {
      ColumnStep(letters, i);
      column := column * 26 + (letters[i] - 'A') as nat + 1;
    }
    assert letters[..|letters|] == letters;
    var row := ReadDecimal(digits);
    r := if 1 <= row <= MAX_ROW && 1 <= column <= MAX_COLUMN then Some(Coord(row, column)) else None;
  }

  // ---- Bijective base 26 ------------------------------------------------------------------------

  /** The letters of a column number. */
  function Letters(column: nat): (s: string)
    ensures Capitals(s)
  {
    if column == 0 then "" else Letters((column - 1) / 26) + [((column - 1) % 26) as char + 'A']
  }

  /** Every column number is written by its letters. */
  lemma {:induction false} ColumnOfLetters(column: nat)
    ensures Column(Letters(column)) == column
  {
    if column > 0 {
      ColumnOfLetters((column - 1) / 26);
      var s := Letters(column);
      assert s[..|s| - 1] == Letters((column - 1) / 26);
    }
  }

  /** No two letter strings, of whatever length, denote the same column. */
  lemma {:induction false} LettersOfColumn(s: string)
    requires Capitals(s)
    ensures Letters(Column(s)) == s
    decreases |s|
  {
    if s != "" {
      var front, digit := s[..|s| - 1], (s[|s| - 1] - 'A') as nat;
      LettersOfColumn(front);
      assert (Column(s) - 1) / 26 == Column(front) && (Column(s) - 1) % 26 == digit;
      assert s == front + [s[|s| - 1]];
    }
  }

  /** Columns up to 16384 need at most three letters, and at least one. */
  lemma LettersFit(column: nat)
    requires 1 <= column <= MAX_COLUMN
    ensures 1 <= |Letters(column)| <= 3
  {
    var a := (column - 1) / 26;
    if a > 0 {
      var b := (a - 1) / 26;
      assert b <= 24;
      if b > 0 {
        assert (b - 1) / 26 == 0;
        assert |Letters(b)| == 1;
      }
    }
  }

  function Print(c: Coord): string
    requires c.row >= 0 && c.column >= 0
  {
    Letters(c.column) + Digits(c.row)
  }

  /** Every cell of the largest sheet has a reference that is read back as it. */
  lemma EveryCellReadable(c: Coord)
    requires 1 <= c.row <= MAX_ROW && 1 <= c.column <= MAX_COLUMN
    ensures Parse(Print(c)) == Some(c)
  {
    var letters, digits := Letters(c.column), Digits(c.row);
    var value := Print(c);
    LettersFit(c.column);
    assert Power10(7) == 10_000_000;
    DigitsFit(c.row, Power10(7), 7);
    LeadingIs(value, |letters|);
    assert value[|letters|..] == digits && value[..|letters|] == letters;
    CapitalsStay(letters);
    ColumnOfLetters(c.column);
    DecimalOfDigits(c.row);
    hide Letters, Digits, Column, Decimal, Leading, Uppered;
  }

  /** Two references to one cell have the same letters up to case, and the same
      row number. */
  lemma SameCell(a: string, b: string)
    requires Parse(a).Some? && Parse(a) == Parse(b)
    ensures Uppered(a[..Leading(a)]) == Uppered(b[..Leading(b)])
    ensures AllDigits(a[Leading(a)..]) && AllDigits(b[Leading(b)..]) && Decimal(a[Leading(a)..]) == Decimal(b[Leading(b)..])
  {
    UpperedCapitals(a[..Leading(a)]);
    UpperedCapitals(b[..Leading(b)]);
    LettersOfColumn(Uppered(a[..Leading(a)]));
    LettersOfColumn(Uppered(b[..Leading(b)]));
    hide Uppered, Leading;
  }
}
