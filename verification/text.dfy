/** The JavaScript string operations the activity procedure relies on:
    `split(/[-&]/)`, `trim()`, `startsWith` and the decimal rendering of an
    integer inside a template literal. */
module JsText {

  /** A character `String.prototype.trim` removes: ECMAScript's WhiteSpace
      and LineTerminator characters. */
  predicate IsSpace(ch: char) {
    || ch == '\t' || ch == '\n' || ch == '\U{000B}' || ch == '\U{000C}'
    || ch == '\r' || ch == ' ' || ch == '\U{00A0}' || ch == '\U{1680}'
    || ('\U{2000}' <= ch <= '\U{200A}')
    || ch == '\U{2028}' || ch == '\U{2029}' || ch == '\U{202F}'
    || ch == '\U{205F}' || ch == '\U{3000}' || ch == '\U{FEFF}'
  }

  /** `s` with its leading spaces removed. */
  function TrimStart(s: string): (r: string)
    ensures |r| <= |s|
  {
    if s != [] && IsSpace(s[0]) then TrimStart(s[1..]) else s
  }

  /** `s` with its trailing spaces removed. */
  function TrimEnd(s: string): (r: string)
    ensures |r| <= |s|
  {
    if s != [] && IsSpace(s[|s| - 1]) then TrimEnd(s[..|s| - 1]) else s
  }

  /** `s.trim()`. */
  function Trim(s: string): (r: string)
    ensures |r| <= |TrimStart(s)|
  {
    TrimEnd(TrimStart(s))
  }

  /** TrimStart keeps a suffix, removes only spaces, and stops at a
      non-space. */
  lemma {:induction false} TrimStartCutsLeadingSpace(s: string)
    ensures var r := TrimStart(s);
      && |r| <= |s| && r == s[|s| - |r|..]
      && (forall i | 0 <= i < |s| - |r| :: IsSpace(s[i]))
      && (r == [] || !IsSpace(r[0]))
  {
    if s != [] && IsSpace(s[0]) {
      TrimStartCutsLeadingSpace(s[1..]);
      var r := TrimStart(s);
      forall i | 0 <= i < |s| - |r|
        ensures IsSpace(s[i])
      {
        if i > 0 {
          assert s[i] == s[1..][i - 1];
        }
      }
    }
  }

  /** TrimEnd keeps a prefix, removes only spaces, and stops at a
      non-space. */
  lemma {:induction false} TrimEndCutsTrailingSpace(s: string)
    ensures var r := TrimEnd(s);
      && |r| <= |s| && r == s[..|r|]
      && (forall i | |r| <= i < |s| :: IsSpace(s[i]))
      && (r == [] || !IsSpace(r[|r| - 1]))
  {
    if s != [] && IsSpace(s[|s| - 1]) {
      var init := s[..|s| - 1];
      TrimEndCutsTrailingSpace(init);
      var r := TrimEnd(s);
      assert r == TrimEnd(init);
      forall i | |r| <= i < |s|
        ensures IsSpace(s[i])
      {
        if i < |s| - 1 {
          assert s[i] == init[i];
        }
      }
      assert r == init[..|r|] == s[..|r|];
    }
  }

  /** `s.trim()` is the slice of `s` left once the spaces at both ends are
      removed: everything removed is a space, and the result starts and
      ends with a non-space. */
  lemma TrimCutsOuterSpace(s: string)
    ensures var r := Trim(s);
      var a := |s| - |TrimStart(s)|;
      && a + |r| <= |s| && r == s[a..a + |r|]
      && (forall i | 0 <= i < a :: IsSpace(s[i]))
      && (forall i | a + |r| <= i < |s| :: IsSpace(s[i]))
      && (r == [] || (!IsSpace(r[0]) && !IsSpace(r[|r| - 1])))
  {
    var t := TrimStart(s);
    var r := Trim(s);
    var a := |s| - |t|;
    TrimStartCutsLeadingSpace(s);
    TrimEndCutsTrailingSpace(t);
    assert r == t[..|r|];
    assert r == s[a..a + |r|];
    forall i | a + |r| <= i < |s|
      ensures IsSpace(s[i])
    {
      assert s[i] == t[i - a];
    }
    if r != [] {
      assert r[0] == t[0];
    }
  }

  /** A string that neither starts nor ends with a space is its own trim. */
  lemma TrimKeepsTrimmed(s: string)
    requires s != [] && !IsSpace(s[0]) && !IsSpace(s[|s| - 1])
    ensures Trim(s) == s
  {
  }

  /** A character of the class `[-&]`. */
  predicate IsPageDelimiter(ch: char) {
    ch == '-' || ch == '&'
  }

  predicate NoDelimiter(s: string) {
    forall i | 0 <= i < |s| :: !IsPageDelimiter(s[i])
  }

  /** The delimiter characters of `s`, in order. */
  function Delimiters(s: string): (ds: seq<char>) {
    if s == [] then []
    else (if IsPageDelimiter(s[0]) then [s[0]] else []) + Delimiters(s[1..])
  }

  /** `s.split(/[-&]/)`: the pieces between delimiters, empty ones kept;
      there is always one more piece than there are delimiters. */
  function Split(s: string): (pieces: seq<string>)
    ensures |pieces| == |Delimiters(s)| + 1
  {
    if s == [] then [""]
    else
      var rest := Split(s[1..]);
      if IsPageDelimiter(s[0]) then [""] + rest
      else [[s[0]] + rest[0]] + rest[1..]
  }

  /** No piece of a split holds a delimiter. */
  lemma {:induction false} SplitPiecesArePlain(s: string)
    ensures forall i | 0 <= i < |Split(s)| :: NoDelimiter(Split(s)[i])
  {
    if s != [] {
      SplitPiecesArePlain(s[1..]);
      var rest := Split(s[1..]);
      if !IsPageDelimiter(s[0]) {
        var first := [s[0]] + rest[0];
        assert NoDelimiter(first) by {
          forall j | 0 <= j < |first|
            ensures !IsPageDelimiter(first[j])
          {
            if j > 0 {
              assert first[j] == rest[0][j - 1];
            }
          }
        }
        assert Split(s) == [first] + rest[1..];
      }
    }
  }

  /** The pieces rejoined, each separator between two consecutive pieces. */
  function Interleave(pieces: seq<string>, seps: seq<char>): (joined: string)
    requires |pieces| == |seps| + 1
  {
    if seps == [] then pieces[0]
    else pieces[0] + [seps[0]] + Interleave(pieces[1..], seps[1..])
  }

  lemma {:induction false} InterleavePrepend(x: string, pieces: seq<string>, seps: seq<char>)
    requires |pieces| == |seps| + 1
    ensures Interleave([x + pieces[0]] + pieces[1..], seps) == x + Interleave(pieces, seps)
  {
    var moved := [x + pieces[0]] + pieces[1..];
    assert moved[0] == x + pieces[0] && moved[1..] == pieces[1..];
  }

  /** Splitting loses nothing: the pieces and the delimiters rebuild `s`. */
  lemma {:induction false} SplitJoin(s: string)
    ensures Interleave(Split(s), Delimiters(s)) == s
  {
    if s != [] {
      SplitJoin(s[1..]);
      var rest := Split(s[1..]);
      if IsPageDelimiter(s[0]) {
        assert Delimiters(s) == [s[0]] + Delimiters(s[1..]);
        assert ([""] + rest)[1..] == rest;
        assert s == [s[0]] + s[1..];
      } else {
        assert Delimiters(s) == Delimiters(s[1..]);
        InterleavePrepend([s[0]], rest, Delimiters(s[1..]));
        assert s == [s[0]] + s[1..];
      }
    }
  }

  lemma {:induction false} SplitPrefix(p: string, tail: string)
    requires NoDelimiter(p)
    ensures Split(p + tail) == [p + Split(tail)[0]] + Split(tail)[1..]
  {
    var t := Split(tail);
    if p == [] {
      assert p + tail == tail;
      assert p + t[0] == t[0];
      assert t == [t[0]] + t[1..];
    } else {
      SplitPrefix(p[1..], tail);
      assert (p + tail)[1..] == p[1..] + tail;
      assert [p[0]] + (p[1..] + Split(tail)[0]) == p + Split(tail)[0];
    }
  }

  lemma SplitAfterDelimiter(d: char, rest: string)
    requires IsPageDelimiter(d)
    ensures Split([d] + rest) == [""] + Split(rest)
  {
    assert ([d] + rest)[0] == d && ([d] + rest)[1..] == rest;
  }

  /** Splitting is the only way to cut a string at its delimiters: pieces
      free of delimiters, joined by delimiters, split back into themselves. */
  lemma {:induction false} SplitUnique(pieces: seq<string>, seps: seq<char>)
    requires |pieces| == |seps| + 1
    requires forall i | 0 <= i < |pieces| :: NoDelimiter(pieces[i])
    requires forall i | 0 <= i < |seps| :: IsPageDelimiter(seps[i])
    ensures Split(Interleave(pieces, seps)) == pieces
  {
    var p := pieces[0];
    if seps == [] {
      SplitPrefix(p, []);
      assert p + [] == p;
      assert p + "" == p;
    } else {
      var rest := Interleave(pieces[1..], seps[1..]);
      var tail := [seps[0]] + rest;
      SplitUnique(pieces[1..], seps[1..]);
      SplitAfterDelimiter(seps[0], rest);
      SplitPrefix(p, tail);
      assert Interleave(pieces, seps) == p + tail;
      assert Split(tail)[0] == "" && Split(tail)[1..] == pieces[1..];
      assert p + "" == p;
      assert pieces == [p] + pieces[1..];
    }
  }

  /** A string without delimiters is a single piece. */
  lemma SplitWithoutDelimiter(s: string)
    requires NoDelimiter(s)
    ensures Split(s) == [s]
  {
    SplitUnique([s], []);
  }

  /** A string with a delimiter is at least two pieces. */
  lemma {:induction false} SplitWithDelimiter(s: string)
    requires !NoDelimiter(s)
    ensures |Split(s)| >= 2
  {
    if IsPageDelimiter(s[0]) {
      assert |Delimiters(s)| >= 1;
    } else {
      assert !NoDelimiter(s[1..]) by {
        var i :| 0 <= i < |s| && IsPageDelimiter(s[i]);
        assert s[1..][i - 1] == s[i];
      }
      SplitWithDelimiter(s[1..]);
    }
  }

  predicate StartsWith(s: string, prefix: string) {
    |prefix| <= |s| && s[..|prefix|] == prefix
  }

  /** `s.startsWith(prefix)` holds exactly when `s` is `prefix` followed by
      something. */
  lemma StartsWithIsPrefix(s: string, prefix: string)
    ensures StartsWith(s, prefix) <==> |prefix| <= |s| && s == prefix + s[|prefix|..]
  {
    if |prefix| <= |s| && s == prefix + s[|prefix|..] {
      assert s[..|prefix|] == (prefix + s[|prefix|..])[..|prefix|] == prefix;
    }
    if StartsWith(s, prefix) {
      assert s == s[..|prefix|] + s[|prefix|..];
    }
  }

  predicate IsDigit(ch: char) {
    '0' <= ch <= '9'
  }

  function Digit(d: nat): (ch: char)
    requires d < 10
  {
    ('0' as int + d) as char
  }

  function DigitValue(ch: char): (v: nat)
    requires IsDigit(ch)
  {
    ch as int - '0' as int
  }

  /** The decimal digits of `n`, most significant first, without leading zeros. */
  function NatToDecimal(n: nat): (s: string)
    ensures s != [] && forall i | 0 <= i < |s| :: IsDigit(s[i])
  {
    if n < 10 then [Digit(n)] else NatToDecimal(n / 10) + [Digit(n % 10)]
  }

  /** The number a string of decimal digits denotes. */
  function DecimalValue(s: string): (n: nat)
    requires forall i | 0 <= i < |s| :: IsDigit(s[i])
  {
    if s == [] then 0 else DecimalValue(s[..|s| - 1]) * 10 + DigitValue(s[|s| - 1])
  }

  lemma {:induction false} DecimalRoundTrip(n: nat)
    ensures DecimalValue(NatToDecimal(n)) == n
  {
    var s := NatToDecimal(n);
    if n >= 10 {
      DecimalRoundTrip(n / 10);
      assert s[..|s| - 1] == NatToDecimal(n / 10);
    }
  }

  /** `${i}` for an integer-valued Number. */
  function IntToString(i: int): (r: string) {
    if i < 0 then "-" + NatToDecimal(-i) else NatToDecimal(i)
  }

  /** `${i}` is a minus sign exactly for a negative number, then the digits
      of its magnitude. */
  lemma IntToStringDigits(i: int)
    ensures var r := IntToString(i);
      && r != [] && (r[0] == '-' <==> i < 0)
      && var digits := if i < 0 then r[1..] else r;
         && (forall k | 0 <= k < |digits| :: IsDigit(digits[k]))
         && DecimalValue(digits) == (if i < 0 then -i else i)
  {
    var r := IntToString(i);
    if i < 0 {
      assert r[1..] == NatToDecimal(-i);
      DecimalRoundTrip(-i);
    } else {
      DecimalRoundTrip(i);
    }
  }

  /** Distinct integers render as distinct strings. */
  lemma IntToStringInjective(a: int, b: int)
    requires IntToString(a) == IntToString(b)
    ensures a == b
  {
    var s := IntToString(a);
    assert s[0] == '-' <==> a < 0;
    assert s[0] == '-' <==> b < 0;
    if a < 0 {
      assert s[1..] == NatToDecimal(-a) && s[1..] == NatToDecimal(-b);
      DecimalRoundTrip(-a);
      DecimalRoundTrip(-b);
    } else {
      DecimalRoundTrip(a);
      DecimalRoundTrip(b);
    }
  }
}
