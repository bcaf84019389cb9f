/** Lines, fields and decimal numbers, as the trace writer prints them and the tools read them back. */
module Text {

  predicate Free(s: string, d: char) {
    forall i :: 0 <= i < |s| ==> s[i] != d
  }

  /** The index of the first `d` in `s`, or `|s|`. */
  function Find(s: string, d: char): (i: nat)
    ensures i <= |s| && Free(s[..i], d) && (i < |s| ==> s[i] == d)
  {
    if s == "" || s[0] == d then 0
    else
      var i := 1 + Find(s[1..], d);
      assert s[..i] == [s[0]] + s[1..][..i - 1];
      i
  }

  /** The fields that repeated `getline` calls extract: a delimiter ends a field, and the end of the input
      ends a last field unless that field would be empty. */
  function Fields(s: string, d: char): seq<string>
    decreases |s|
  {
    if s == "" then []
    else
      var i := Find(s, d);
      if i == |s| then [s] else [s[..i]] + Fields(s[i + 1..], d)
  }

  function Join(fields: seq<string>, d: char): string {
    if fields == [] then ""
    else if |fields| == 1 then fields[0]
    else fields[0] + [d] + Join(fields[1..], d)
  }

  /** `split`, one `getline` per turn of its loop. */
  method Split(input: string, delimiter: char) returns (result: seq<string>)
    ensures result == Fields(input, delimiter)
  {
    hide Fields;
    result := [];
    var at := 0;
    assert input[0..] == input;
    while at < |input|
      invariant at <= |input|
      invariant result + Fields(input[at..], delimiter) == Fields(input, delimiter)
      decreases |input| - at
    {
      var end := at;
      while end < |input| && input[end] != delimiter
        invariant at <= end <= |input|
        invariant forall k :: at <= k < end ==> input[k] != delimiter
      {
        end := end + 1;
      }
      NextField(input, at, end, delimiter);
      result := result + [input[at..end]];
      at := if end == |input| then end else end + 1;
    }
    EmptyText(input[at..], delimiter);
  }

  lemma EmptyText(s: string, d: char)
    ensures s == "" ==> Fields(s, d) == []
  {
  }

  lemma NextField(s: string, at: nat, end: nat, d: char)
    requires at <= end <= |s| && at < |s| && (forall k :: at <= k < end ==> s[k] != d) && (end < |s| ==> s[end] == d)
    ensures Fields(s[at..], d) == [s[at..end]] + Fields(s[if end == |s| then end else end + 1..], d)
  {
    var rest := s[at..];
    assert rest[..end - at] == s[at..end];
    FieldEnds(rest, end - at, d);
    if end == |s| {
      assert s[at..end] == rest && s[end..] == "";
    } else {
      assert rest[end - at + 1..] == s[end + 1..];
    }
  }

  lemma {:induction false} FieldEnds(s: string, i: nat, d: char)
    requires i <= |s| && Free(s[..i], d) && (i < |s| ==> s[i] == d)
    ensures Find(s, d) == i
  {
    if i > 0 {
      assert s[..i][0] == s[0];
      assert s[1..][..i - 1] == s[..i][1..];
      FieldEnds(s[1..], i - 1, d);
    }
  }

  /** Joining the fields gives the text back, less a delimiter that ended it. */
  lemma {:induction false} JoinOfFields(s: string, d: char)
    ensures Join(Fields(s, d), d) == if s != "" && s[|s| - 1] == d then s[..|s| - 1] else s
    decreases |s|
  {
    if s != "" {
      var i := Find(s, d);
      if i < |s| {
        var rest := s[i + 1..];
        assert s == s[..i] + [d] + rest;
        JoinOfFields(rest, d);
        if rest == "" {
          assert Fields(rest, d) == [];
          assert s[..|s| - 1] == s[..i];
        } else {
          assert Fields(rest, d) != [];
          assert ([s[..i]] + Fields(rest, d))[1..] == Fields(rest, d);
          assert rest[|rest| - 1] == s[|s| - 1];
          assert s[..|s| - 1] == s[..i] + [d] + rest[..|rest| - 1];
        }
      } else {
        assert s[..i] == s;
        assert s[|s| - 1] == s[..i][|s| - 1];
      }
    }
  }

  lemma {:induction false} FirstField(f: string, rest: string, d: char)
    requires Free(f, d)
    ensures Fields(f + [d] + rest, d) == [f] + Fields(rest, d)
  {
    var s := f + [d] + rest;
    assert s[..|f|] == f && s[|f| + 1..] == rest;
    FieldEnds(s, |f|, d);
  }

  lemma LastField(f: string, d: char)
    requires Free(f, d) && f != ""
    ensures Fields(f, d) == [f]
  {
    assert f[..|f|] == f;
    FieldEnds(f, |f|, d);
  }

  /** Splitting gives a list of delimiter-free fields back exactly when it does not end in an empty field. */
  lemma {:induction false} FieldsOfJoinIff(fields: seq<string>, d: char)
    requires forall f :: f in fields ==> Free(f, d)
    ensures Fields(Join(fields, d), d) == fields <==> fields == [] || fields[|fields| - 1] != ""
  {
    if |fields| == 1 {
      assert fields[0] in fields;
      if fields[0] != "" {
        LastField(fields[0], d);
        assert fields == [fields[0]];
      }
    } else if |fields| > 1 {
      assert fields[0] in fields;
      FirstField(fields[0], Join(fields[1..], d), d);
      FieldsOfJoinIff(fields[1..], d);
      assert fields == [fields[0]] + fields[1..];
      assert ([fields[0]] + Fields(Join(fields[1..], d), d))[1..] == Fields(Join(fields[1..], d), d);
    }
  }

  // ---------------------------------------------------------------- numbers

  const LONG_MAX := 0x7fff_ffff_ffff_ffff
  const ULONG := 0x1_0000_0000_0000_0000

  function DigitChar(n: nat): (c: char)
    requires n < 10
    ensures IsDigit(c) && DigitValue(c) == n
  {
    '0' + n as char
  }

  predicate IsDigit(c: char) {
    '0' <= c <= '9'
  }

  function DigitValue(c: char): nat
    requires IsDigit(c)
  {
    c as int - '0' as int
  }

  /** A number as an output stream prints it. */
  function Decimal(n: nat): (s: string)
    ensures s != "" && forall c :: c in s ==> IsDigit(c)
  {
    if n < 10 then [DigitChar(n)] else Decimal(n / 10) + [DigitChar(n % 10)]
  }

  /** The value of the digits that a string starts with. */
  function Leading(s: string, acc: nat): nat {
    if s == "" || !IsDigit(s[0]) then acc else Leading(s[1..], 10 * acc + DigitValue(s[0]))
  }

  predicate IsSpace(c: char) {
    c == ' ' || '\t' <= c <= '\r'
  }

  /** `atol`, with the saturation of the C library: blanks, a sign, digits; the rest is ignored. */
  function Atol(s: string): int {
    if s == "" then 0
    else if IsSpace(s[0]) then Atol(s[1..])
    else if s[0] == '-' then -Min(Leading(s[1..], 0), LONG_MAX + 1)
    else if s[0] == '+' then Min(Leading(s[1..], 0), LONG_MAX)
    else Min(Leading(s, 0), LONG_MAX)
  }

  function Min(a: int, b: int): int {
    if a < b then a else b
  }

  /** A `long` stored in an `unsigned long`. */
  function Unsigned(n: int): nat {
    n % ULONG
  }

  lemma {:induction false} LeadingOfAppend(s: string, c: char, acc: nat)
    requires forall x :: x in s ==> IsDigit(x)
    requires IsDigit(c)
    ensures Leading(s + [c], acc) == 10 * Leading(s, acc) + DigitValue(c)
    decreases |s|
  {
    if s == "" {
      assert s + [c] == [c];
      assert Leading([c][1..], 10 * acc + DigitValue(c)) == 10 * acc + DigitValue(c);
    } else {
      assert (s + [c])[1..] == s[1..] + [c];
      LeadingOfAppend(s[1..], c, 10 * acc + DigitValue(s[0]));
    }
  }

  lemma {:induction false} LeadingOfDecimal(n: nat)
    ensures Leading(Decimal(n), 0) == n
  {
    if n < 10 {
      assert Decimal(n)[1..] == "";
    } else {
      LeadingOfDecimal(n / 10);
      LeadingOfAppend(Decimal(n / 10), DigitChar(n % 10), 0);
    }
  }

  lemma AtolOfDecimal(n: nat)
    ensures Atol(Decimal(n)) == Min(n, LONG_MAX)
  {
    LeadingOfDecimal(n);
    var c := Decimal(n)[0];
    assert c in Decimal(n);
    assert IsDigit(c) && !IsSpace(c);
  }

  /** A number with text after it that does not start with a digit. */
  lemma {:induction false} LeadingThen(s: string, rest: string, acc: nat)
    requires (forall c :: c in s ==> IsDigit(c)) && (rest == "" || !('0' <= rest[0] <= '9'))
    ensures Leading(s + rest, acc) == Leading(s, acc)
    decreases |s|
  {
    if s == "" {
      assert s + rest == rest;
    } else {
      assert (s + rest)[0] == s[0] && (s + rest)[1..] == s[1..] + rest;
      LeadingThen(s[1..], rest, 10 * acc + DigitValue(s[0]));
    }
  }

  lemma {:induction false} AtolOfBlanks(blanks: string, rest: string)
    requires forall c :: c in blanks ==> c as int == 32 || 9 <= c as int <= 13
    ensures Atol(blanks + rest) == Atol(rest)
    decreases |blanks|
  {
    if blanks == "" {
      assert blanks + rest == rest;
    } else {
      assert blanks[0] in blanks && forall c :: c in blanks[1..] ==> c in blanks;
      assert (blanks + rest)[0] == blanks[0] && (blanks + rest)[1..] == blanks[1..] + rest;
      AtolOfBlanks(blanks[1..], rest);
    }
  }

  /** What `atol` makes of blanks, a sign or none, a number, and text after it: the number, negative after
      a minus sign, and no further from 0 than a `long` can be. */
  lemma AtolReads(blanks: string, sign: string, n: nat, rest: string)
    requires (forall c :: c in blanks ==> c as int == 32 || 9 <= c as int <= 13)
    requires sign in {"", "+", "-"} && (rest == "" || !('0' <= rest[0] <= '9'))
    ensures Atol(blanks + (sign + (Decimal(n) + rest)))
            == if sign == "-" then (if n > 9223372036854775808 then -9223372036854775808 else 0 - n)
               else if n > 9223372036854775807 then 9223372036854775807 else n
  {
    AtolOfBlanks(blanks, sign + (Decimal(n) + rest));
    LeadingOfDecimal(n);
    LeadingThen(Decimal(n), rest, 0);
    var digits := Decimal(n) + rest;
    assert digits[0] == Decimal(n)[0] && Decimal(n)[0] in Decimal(n);
    var s := sign + digits;
    if sign == "" {
      assert s == digits;
    } else {
      assert s[0] == sign[0] && s[1..] == digits;
    }
    hide Decimal, Leading;
  }

  /** A printed time is read back as it was exactly when it fits a `long`. */
  lemma AtolOfDecimalIff(n: nat)
    requires n < 18446744073709551616
    ensures Unsigned(Atol(Decimal(n))) == n <==> n <= 9223372036854775807
  {
    AtolOfDecimal(n);
    hide Atol, Decimal;
  }
}
