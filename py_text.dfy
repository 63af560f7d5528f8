/** The parts of Python's `str` and `int` behaviour the template generator
    relies on: whitespace stripping, substring search, counting and
    splitting, lexicographic comparison, and decimal conversion. */
module PyText {

  datatype Option<T> = None | Some(value: T)

  /** `str.isspace` for one character. */
  predicate IsSpace(c: char)
  {
    c == ' ' || c == '\t' || c == '\n' || c == '\r' || c == '\U{0b}' || c == '\U{0c}'
    || ('\U{1c}' <= c <= '\U{1f}') || c == '\U{85}' || c == '\U{a0}' || c == '\U{1680}'
    || ('\U{2000}' <= c <= '\U{200a}') || c == '\U{2028}' || c == '\U{2029}'
    || c == '\U{202f}' || c == '\U{205f}' || c == '\U{3000}'
  }

  /** Every character is whitespace (vacuously so for the empty string). */
  predicate AllSpace(s: string)
  {
    forall i :: 0 <= i < |s| ==> IsSpace(s[i])
  }

  /** `str.lstrip()`: leading whitespace removed. */
  function LStrip(s: string): string
  {
    if s != [] && IsSpace(s[0]) then LStrip(s[1..]) else s
  }

  /** `str.rstrip()`: trailing whitespace removed. */
  function RStrip(s: string): string
  {
    if s != [] && IsSpace(s[|s| - 1]) then RStrip(s[..|s| - 1]) else s
  }

  /** `str.strip()`: whitespace removed at both ends. */
  function Strip(s: string): string
  {
    RStrip(LStrip(s))
  }

  /** `lstrip()` keeps a suffix, drops only whitespace, and leaves no
      whitespace at the front. */
  lemma {:induction false} LStripShape(s: string)
    ensures var r := LStrip(s);
            |r| <= |s| && r == s[|s| - |r|..] && AllSpace(s[..|s| - |r|])
            && (r == [] || !IsSpace(r[0]))
    decreases |s|
  {
    if s != [] && IsSpace(s[0]) {
      LStripShape(s[1..]);
      var r := LStrip(s[1..]);
      assert s[1..][|s| - 1 - |r|..] == s[|s| - |r|..];
      forall i | 1 <= i < |s| - |r|
        ensures IsSpace(s[i])
      {
        assert s[i] == s[1..][..|s| - 1 - |r|][i - 1];
      }
    } else {
      assert s[|s| - |s|..] == s;
    }
  }

  /** `rstrip()` keeps a prefix, drops only whitespace, and leaves no
      whitespace at the end. */
  lemma {:induction false} RStripShape(s: string)
    ensures var r := RStrip(s);
            |r| <= |s| && r == s[..|r|] && AllSpace(s[|r|..])
            && (r == [] || !IsSpace(r[|r| - 1]))
    decreases |s|
  {
    if s != [] && IsSpace(s[|s| - 1]) {
      RStripShape(s[..|s| - 1]);
      var r := RStrip(s[..|s| - 1]);
      assert s[..|s| - 1][..|r|] == s[..|r|];
      forall i | |r| <= i < |s| - 1
        ensures IsSpace(s[i])
      {
        assert s[i] == s[..|s| - 1][|r|..][i - |r|];
      }
    } else {
      assert s[..|s|] == s;
    }
  }

  /** `strip()` never lengthens and leaves no whitespace at either end. */
  lemma StripShape(s: string)
    ensures var r := Strip(s);
            |r| <= |s| && (r == [] || (!IsSpace(r[0]) && !IsSpace(r[|r| - 1])))
  {
    var l := LStrip(s);
    LStripShape(s);
    RStripShape(l);
    var r := RStrip(l);
    if r != [] {
      assert r[0] == l[0];
    }
  }

  /** A string strips to nothing exactly when it is all whitespace: the
      test that skips blank output fragments. */
  lemma {:induction false} StripEmptyIffAllSpace(s: string)
    ensures Strip(s) == [] <==> AllSpace(s)
  {
    var l := LStrip(s);
    LStripShape(s);
    RStripShape(l);
    if Strip(s) == [] {
      assert l[0..] == l;
      assert l == [];
      assert s[..|s|] == s;
    } else {
      assert l != [];
      assert s[|s| - |l|] == l[0];
    }
  }

  /** A string that neither starts nor ends with whitespace is unchanged by `strip()`. */
  lemma StripUnchanged(s: string)
    requires s == [] || (!IsSpace(s[0]) && !IsSpace(s[|s| - 1]))
    ensures Strip(s) == s
  {
  }

  /** `sub` occurs in `s` at index `i`. */
  predicate OccursAt(s: string, sub: string, i: int)
  {
    0 <= i && i + |sub| <= |s| && s[i..i + |sub|] == sub
  }

  /** `str.find`: the first index where `sub` occurs, or -1. */
  function Find(s: string, sub: string): (r: int)
    ensures -1 <= r <= |s|
    ensures r >= 0 ==> OccursAt(s, sub, r)
    ensures r >= 0 ==> forall j :: 0 <= j < r ==> !OccursAt(s, sub, j)
    ensures r == -1 ==> forall j :: !OccursAt(s, sub, j)
    decreases |s|
  {
    if |s| < |sub| then -1
    else if s[..|sub|] == sub then 0
    else
      var r := Find(s[1..], sub);
      forall j | 1 <= j
        ensures OccursAt(s, sub, j) <==> OccursAt(s[1..], sub, j - 1)
      {
        OccursShift(s, sub, j);
      }
      if r < 0 then -1 else r + 1
  }

  /** An occurrence after the first character is an occurrence in the rest. */
  lemma OccursShift(s: string, sub: string, j: int)
    requires 1 <= j && s != []
    ensures OccursAt(s, sub, j) <==> OccursAt(s[1..], sub, j - 1)
  {
    if j + |sub| <= |s| {
      var shifted, direct := s[1..][j - 1..j - 1 + |sub|], s[j..j + |sub|];
      assert |shifted| == |direct|;
      forall t | 0 <= t < |sub|
        ensures shifted[t] == direct[t]
      {
        assert shifted[t] == s[1..][j - 1 + t] == s[j + t];
      }
      assert shifted == direct;
    }
  }

  /** `str.count`: the number of non-overlapping occurrences of `sub`,
      scanned from the left; the empty string occurs `|s| + 1` times. */
  function Count(s: string, sub: string): (n: nat)
    decreases |s|
  {
    if sub == [] then |s| + 1
    else
      var i := Find(s, sub);
      if i < 0 then 0 else 1 + Count(s[i + |sub|..], sub)
  }

  /** `str.split(sep)` for a non-empty separator: the pieces between the
      non-overlapping occurrences of `sep`, scanned from the left. */
  function Split(s: string, sep: string): (pieces: seq<string>)
    requires sep != []
    ensures |pieces| >= 1
    decreases |s|
  {
    var i := Find(s, sep);
    if i < 0 then [s] else [s[..i]] + Split(s[i + |sep|..], sep)
  }

  /** `sep.join(pieces)`. */
  function Join(pieces: seq<string>, sep: string): string
  {
    if pieces == [] then ""
    else if |pieces| == 1 then pieces[0]
    else pieces[0] + sep + Join(pieces[1..], sep)
  }

  /** Splitting loses nothing: joining the pieces with the separator gives
      the string back. */
  lemma {:induction false} SplitJoin(s: string, sep: string)
    requires sep != []
    ensures Join(Split(s, sep), sep) == s
    decreases |s|
  {
    var i := Find(s, sep);
    if i >= 0 {
      var rest := s[i + |sep|..];
      SplitJoin(rest, sep);
      SplitJoinStep(s, sep, i, Split(rest, sep));
    }
  }

  lemma SplitJoinStep(s: string, sep: string, i: int, tail: seq<string>)
    requires sep != [] && 0 <= i == Find(s, sep)
    requires tail == Split(s[i + |sep|..], sep) && Join(tail, sep) == s[i + |sep|..]
    ensures Join(Split(s, sep), sep) == s
  {
    assert Split(s, sep) == [s[..i]] + tail;
    assert tail != [];
    JoinCons(s[..i], tail, sep);
    assert OccursAt(s, sep, i);
    SplitAround(s, sep, i);
  }

  lemma JoinCons(piece: string, pieces: seq<string>, sep: string)
    requires pieces != []
    ensures Join([piece] + pieces, sep) == piece + sep + Join(pieces, sep)
  {
    assert ([piece] + pieces)[1..] == pieces;
  }

  /** A string is what precedes an occurrence, the occurrence, and what follows. */
  lemma SplitAround(s: string, sub: string, i: int)
    requires OccursAt(s, sub, i)
    ensures s[..i] + sub + s[i + |sub|..] == s
  {
    assert s == s[..i] + s[i..i + |sub|] + s[i + |sub|..];
  }

  /** There is one piece more than there are occurrences of the separator. */
  lemma {:induction false} SplitCount(s: string, sep: string)
    requires sep != []
    ensures |Split(s, sep)| == Count(s, sep) + 1
    decreases |s|
  {
    var i := Find(s, sep);
    if i >= 0 {
      SplitCount(s[i + |sep|..], sep);
    }
  }

  /** No piece contains the separator. */
  lemma {:induction false} SplitPiecesFree(s: string, sep: string)
    requires sep != []
    ensures forall k :: 0 <= k < |Split(s, sep)| ==> Find(Split(s, sep)[k], sep) == -1
    decreases |s|
  {
    var i := Find(s, sep);
    if i >= 0 {
      var rest := s[i + |sep|..];
      SplitPiecesFree(rest, sep);
      var head := s[..i];
      if Find(head, sep) != -1 {
        OccursInPrefix(s, sep, i, Find(head, sep));
        assert false;
      }
      forall k | 0 <= k < |Split(s, sep)| ensures Find(Split(s, sep)[k], sep) == -1
      {
        if k > 0 {
          assert Split(s, sep)[k] == Split(rest, sep)[k - 1];
        }
      }
    }
  }

  lemma OccursInPrefix(s: string, sub: string, i: int, j: int)
    requires 0 <= i <= |s| && OccursAt(s[..i], sub, j)
    ensures OccursAt(s, sub, j)
  {
    assert s[..i][j..j + |sub|] == s[j..j + |sub|];
  }

  /** With exactly one occurrence of the separator there are exactly two
      pieces, which are what `str.split(sep, 1)` returns. */
  lemma {:induction false} SplitOnceOccurrence(s: string, sep: string)
    requires sep != [] && Count(s, sep) == 1
    ensures Find(s, sep) >= 0
    ensures Split(s, sep) == [s[..Find(s, sep)], s[Find(s, sep) + |sep|..]]
  {
    var i := Find(s, sep);
    var rest := s[i + |sep|..];
    assert Count(rest, sep) == 0;
    assert Find(rest, sep) < 0;
  }

  /** Python's `<` on strings: code-point-wise lexicographic order. */
  predicate StrLess(a: string, b: string)
  {
    if a == [] then b != []
    else if b == [] then false
    else if a[0] != b[0] then a[0] < b[0]
    else StrLess(a[1..], b[1..])
  }

  lemma {:induction false} StrLessAsymmetric(a: string, b: string)
    ensures !(StrLess(a, b) && StrLess(b, a))
  {
    if a != [] && b != [] && a[0] == b[0] {
      StrLessAsymmetric(a[1..], b[1..]);
    }
  }

  lemma {:induction false} StrLessTransitive(a: string, b: string, c: string)
    requires StrLess(a, b) && StrLess(b, c)
    ensures StrLess(a, c)
  {
    if a != [] && b != [] && c != [] && a[0] == b[0] && b[0] == c[0] {
      StrLessTransitive(a[1..], b[1..], c[1..]);
    }
  }

  lemma {:induction false} StrLessTotal(a: string, b: string)
    ensures a == b || StrLess(a, b) || StrLess(b, a)
  {
    if a != [] && b != [] && a[0] == b[0] {
      StrLessTotal(a[1..], b[1..]);
      if a[1..] == b[1..] {
        assert a == [a[0]] + a[1..] && b == [b[0]] + b[1..];
      }
    }
  }

  /** "Not after" is transitive, so `!StrLess(b, a)` orders strings. */
  lemma StrLessEqTransitive(a: string, b: string, c: string)
    requires !StrLess(b, a) && !StrLess(c, b)
    ensures !StrLess(c, a)
  {
    StrLessTotal(a, b);
    if StrLess(c, a) && StrLess(a, b) {
      StrLessTransitive(c, a, b);
    }
  }

  /** Decimal digit characters. */
  predicate IsDigit(c: char)
  {
    '0' <= c <= '9'
  }

  /** Only decimal digits. */
  predicate AllDigits(s: string)
  {
    forall i :: 0 <= i < |s| ==> IsDigit(s[i])
  }

  /** The decimal digits of a natural number, without leading zeros. */
  function NatToString(n: nat): (s: string)
    ensures |s| >= 1 && AllDigits(s)
  {
    if n < 10 then [('0' as int + n) as char]
    else NatToString(n / 10) + [('0' as int + n % 10) as char]
  }

  /** `str(n)` for a Python int. */
  function IntToString(n: int): (s: string)
    ensures s != [] && !IsSpace(s[0]) && !IsSpace(s[|s| - 1])
  {
    if n < 0 then "-" + NatToString(-n) else NatToString(n)
  }

  /** The value of a string of decimal digits. */
  function DigitsValue(s: string): nat
    requires AllDigits(s)
  {
    if s == [] then 0
    else
      assert IsDigit(s[|s| - 1]);
      DigitsValue(s[..|s| - 1]) * 10 + (s[|s| - 1] as int - '0' as int)
  }

  /** `int(text)` for a string: surrounding whitespace, an optional sign and
      at least one decimal digit; anything else is a ValueError (`None`). */
  function ParseInt(text: string): (r: Option<int>)
    ensures r.Some? ==> Strip(text) != []
  {
    ParseSignedDigits(Strip(text))
  }

  /** An optional sign followed by at least one decimal digit. */
  function ParseSignedDigits(s: string): (r: Option<int>)
    ensures r.Some? ==> s != []
  {
    if s == [] then None
    else
      var digits := if s[0] == '-' || s[0] == '+' then s[1..] else s;
      if digits != [] && AllDigits(digits)
      then
        var value: int := DigitsValue(digits);
        Some(if s[0] == '-' then -value else value)
      else None
  }

  lemma {:induction false} NatToStringValue(n: nat)
    ensures DigitsValue(NatToString(n)) == n
  {
    if n >= 10 {
      NatToStringValue(n / 10);
      var s := NatToString(n);
      assert s[..|s| - 1] == NatToString(n / 10);
    }
  }

  /** What `str` writes, `int` reads back: the last-run time stamp
      survives its round trip through the last-run file. */
  lemma IntRoundTrip(n: int)
    ensures ParseInt(IntToString(n)) == Some(n)
  {
    if n < 0 {
      NatToStringValue(-n);
      ParseSigned(NatToString(-n), -n);
    } else {
      NatToStringValue(n);
      ParseUnsigned(NatToString(n), n);
    }
  }

  lemma ParseSigned(digits: string, m: nat)
    requires digits != [] && AllDigits(digits) && DigitsValue(digits) == m
    ensures ParseInt("-" + digits) == Some(-(m as int))
  {
    var s := "-" + digits;
    assert s[0] == '-' && s[1..] == digits;
    assert IsDigit(s[|s| - 1]) by {
      assert s[|s| - 1] == digits[|digits| - 1];
    }
    ParseUnpadded(s);
  }

  lemma ParseUnsigned(s: string, m: nat)
    requires s != [] && AllDigits(s) && DigitsValue(s) == m
    ensures ParseInt(s) == Some(m)
  {
    assert IsDigit(s[0]) && IsDigit(s[|s| - 1]);
    ParseUnpadded(s);
  }

  /** Text without surrounding whitespace is parsed as it stands. */
  lemma ParseUnpadded(s: string)
    requires s != [] && !IsSpace(s[0]) && !IsSpace(s[|s| - 1])
    ensures ParseInt(s) == ParseSignedDigits(s)
  {
    StripUnchanged(s);
  }
}
