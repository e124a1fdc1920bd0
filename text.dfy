/** The few Python and JavaScript string built-ins the café code relies on:
    `str.strip()`, `str.split(sep)`, `str.isdigit()`, the `\D` character
    class, and the decimal rendering of an integer in an f-string. */
module Text {

  /** The ASCII characters Python counts as whitespace for `str.strip()`
      and the regex class `\s`: space, tab, line feed, vertical tab, form
      feed, carriage return, and the four separators `\x1c` to `\x1f`. */
  predicate IsSpace(c: char) {
    c == ' ' || c == '\t' || c == '\n' || c == '\r' || c == '\U{000B}' || c == '\U{000C}'
    || ('\U{001C}' <= c <= '\U{001F}')
  }

  predicate IsDigit(c: char) {
    '0' <= c <= '9'
  }

  predicate AllDigits(s: string) {
    forall i :: 0 <= i < |s| ==> IsDigit(s[i])
  }

  /** A slice of a string of digits is a string of digits. */
  lemma AllDigitsSlice(s: string, i: int, j: int)
    requires AllDigits(s) && 0 <= i <= j <= |s|
    ensures AllDigits(s[i..j])
  {
    forall k | 0 <= k < j - i ensures IsDigit(s[i..j][k]) {
      assert s[i..j][k] == s[i + k];
    }
  }

  /** Drops leading whitespace. */
  function StripLeft(s: string): (r: string)
    ensures |r| <= |s| && r == s[|s| - |r|..]
    ensures r != [] ==> !IsSpace(r[0])
    ensures forall k :: 0 <= k < |s| - |r| ==> IsSpace(s[k])
  {
    if s != [] && IsSpace(s[0]) then StripLeft(s[1..]) else s
  }

  /** Drops trailing whitespace. */
  function StripRight(s: string): (r: string)
    ensures |r| <= |s| && r == s[..|r|]
    ensures r != [] ==> !IsSpace(r[|r| - 1])
    ensures forall k :: |r| <= k < |s| ==> IsSpace(s[k])
  {
    if s != [] && IsSpace(s[|s| - 1]) then StripRight(s[..|s| - 1]) else s
  }

  /** Python's `s.strip()`. */
  function Strip(s: string): (r: string)
    ensures |r| <= |s|
    ensures r != [] ==> !IsSpace(r[0]) && !IsSpace(r[|r| - 1])
  {
    StripRight(StripLeft(s))
  }

  /** Strip keeps a contiguous middle part of its input and removes only
      whitespace around it. */
  lemma StripIsSlice(s: string) returns (i: nat, j: nat)
    ensures i <= j <= |s| && Strip(s) == s[i..j]
    ensures forall k :: 0 <= k < i ==> IsSpace(s[k])
    ensures forall k :: j <= k < |s| ==> IsSpace(s[k])
  {
    i := |s| - |StripLeft(s)|;
    assert Strip(s) == StripRight(s[i..]);
    StripRightOfSuffix(s, i);
    j := i + |StripRight(s[i..])|;
  }

  lemma StripRightOfSuffix(s: string, i: nat)
    requires i <= |s|
    ensures var m := StripRight(s[i..]);
      && i + |m| <= |s| && m == s[i..i + |m|]
      && forall k :: i + |m| <= k < |s| ==> IsSpace(s[k])
  {
    var t := s[i..];
    var m := StripRight(t);
    assert t[..|m|] == s[i..i + |m|];
    forall k | i + |m| <= k < |s| ensures IsSpace(s[k]) {
      assert s[k] == t[k - i];
    }
  }

  /** A string with no whitespace at either end is its own strip. */
  lemma StripIdempotent(s: string)
    ensures Strip(Strip(s)) == Strip(s)
  {
    var r := Strip(s);
    assert StripLeft(r) == r;
  }

  /** The JavaScript `value.replace(/\D/g, '')` and the Python
      `''.join(filter(str.isdigit, s))`: the digits of `s`, in order. */
  function DigitsOf(s: string): (r: string)
    ensures AllDigits(r) && |r| <= |s|
  {
    if s == [] then []
    else if IsDigit(s[0]) then [s[0]] + DigitsOf(s[1..])
    else DigitsOf(s[1..])
  }

  lemma {:induction false} DigitsOfAllDigits(s: string)
    requires AllDigits(s)
    ensures DigitsOf(s) == s
  {
    if s != [] {
      DigitsOfAllDigits(s[1..]);
    }
  }

  lemma {:induction false} DigitsOfConcat(a: string, b: string)
    ensures DigitsOf(a + b) == DigitsOf(a) + DigitsOf(b)
  {
    if a == [] {
      assert a + b == b;
    } else {
      assert (a + b)[1..] == a[1..] + b;
      DigitsOfConcat(a[1..], b);
    }
  }

  /** Number of occurrences of `c` in `s`. */
  function Count(s: string, c: char): nat
  {
    if s == [] then 0 else (if s[0] == c then 1 else 0) + Count(s[1..], c)
  }

  /** Python's `s.split(sep)` for a one-character separator: the pieces
      between separators, always at least one (`"".split(",") == [""]`). */
  function Split(s: string, sep: char): (r: seq<string>)
    ensures |r| >= 1
  {
    if s == [] then [[]]
    else if s[0] == sep then [[]] + Split(s[1..], sep)
    else
      var rest := Split(s[1..], sep);
      [[s[0]] + rest[0]] + rest[1..]
  }

  /** `sep.join(parts)`, the inverse of Split. */
  function Join(parts: seq<string>, sep: char): string
    requires |parts| >= 1
  {
    if |parts| == 1 then parts[0] else parts[0] + [sep] + Join(parts[1..], sep)
  }

  /** Splitting yields one more piece than there are separators, no piece
      contains the separator, and joining the pieces gives back the text. */
  lemma {:induction false} SplitProperties(s: string, sep: char)
    ensures |Split(s, sep)| == Count(s, sep) + 1
    ensures forall p :: p in Split(s, sep) ==> sep !in p
    ensures Join(Split(s, sep), sep) == s
  {
    if s != [] {
      SplitProperties(s[1..], sep);
      var rest := Split(s[1..], sep);
      if s[0] == sep {
        assert Split(s, sep)[1..] == rest;
        assert s == [sep] + s[1..];
      } else {
        var r := Split(s, sep);
        assert r[1..] == rest[1..];
        forall p | p in r ensures sep !in p {
          if p != r[0] {
            assert p in rest[1..];
          }
        }
        if |rest| == 1 {
          assert s == [s[0]] + rest[0];
        } else {
          assert rest == [rest[0]] + rest[1..];
          assert Join(rest, sep) == rest[0] + [sep] + Join(rest[1..], sep);
          assert s == [s[0]] + s[1..];
        }
      }
    }
  }

  /** `s.split(sep)[0]`: the part of `s` before its first `sep` (the whole
      string when there is none). */
  function FirstPiece(s: string, sep: char): (r: string)
  {
    Split(s, sep)[0]
  }

  /** The first piece is a prefix without the separator in it; it is the
      whole string exactly when the separator does not occur, and otherwise
      it is followed by the separator. */
  lemma {:induction false} FirstPieceShape(s: string, sep: char)
    ensures |FirstPiece(s, sep)| <= |s| && FirstPiece(s, sep) == s[..|FirstPiece(s, sep)|]
    ensures sep !in FirstPiece(s, sep)
    ensures |FirstPiece(s, sep)| < |s| <==> sep in s
    ensures |FirstPiece(s, sep)| < |s| ==> s[|FirstPiece(s, sep)|] == sep
  {
    if s != [] {
      var tail := s[1..];
      FirstPieceShape(tail, sep);
      var p, q := FirstPiece(s, sep), FirstPiece(tail, sep);
      assert s == [s[0]] + tail;
      if s[0] == sep {
        assert p == [];
      } else {
        assert p == [s[0]] + q;
        assert s[..|p|] == [s[0]] + tail[..|q|];
        assert sep in s <==> sep in tail;
        assert |p| < |s| ==> s[|p|] == tail[|q|];
      }
    }
  }

  /** Whatever follows the first separator does not affect the first
      piece. */
  lemma FirstPieceOfJoin(first: string, sep: char, rest: string)
    requires sep !in first
    ensures FirstPiece(first + [sep] + rest, sep) == first
  {
    var s := first + [sep] + rest;
    FirstPieceShape(s, sep);
    assert s[|first|] == sep;
    assert s[..|first|] == first;
  }

  /** `email.split('@')[0]`: the local part of an address. */
  function EmailPrefix(email: string): (r: string)
    ensures '@' !in email ==> r == email
    ensures '@' in email ==> |r| < |email| && email == r + email[|r|..] && email[|r|] == '@'
    ensures '@' !in r
  {
    FirstPieceShape(email, '@');
    FirstPiece(email, '@')
  }

  function DigitChar(d: nat): char
    requires d < 10
  {
    ['0', '1', '2', '3', '4', '5', '6', '7', '8', '9'][d]
  }

  function DigitValue(c: char): nat
    requires IsDigit(c)
  {
    (c as int - '0' as int) as nat
  }

  /** Decimal digits of a natural number, most significant first. */
  function NatToString(n: nat): (r: string)
    ensures |r| >= 1 && AllDigits(r)
  {
    if n < 10 then [DigitChar(n)] else NatToString(n / 10) + [DigitChar(n % 10)]
  }

  /** Reads a string of decimal digits. */
  function ParseNat(s: string): nat
    requires AllDigits(s)
  {
    if s == [] then 0 else 10 * ParseNat(s[..|s| - 1]) + DigitValue(s[|s| - 1])
  }

  /** What an f-string prints for an integer. */
  function IntToString(i: int): (r: string)
    ensures |r| >= 1
  {
    if i < 0 then "-" + NatToString(-i) else NatToString(i)
  }

  /** The decimal rendering loses nothing: reading it back gives the number. */
  lemma {:induction false} NatToStringRoundTrip(n: nat)
    ensures ParseNat(NatToString(n)) == n
  {
    if n >= 10 {
      NatToStringRoundTrip(n / 10);
      var s := NatToString(n);
      assert s[..|s| - 1] == NatToString(n / 10);
    }
  }
}
