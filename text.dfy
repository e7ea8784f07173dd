/**
 * The GLib string operations the daemon relies on, over `string`:
 * g_strsplit, g_strdelimit, g_strstrip, g_str_has_suffix and printf's `%d`.
 */
module Text {

  /** g_ascii_isspace: space, tab, line feed, form feed and carriage return (not vertical tab). */
  predicate IsSpace(c: char) {
    c == ' ' || c == '\t' || c == '\n' || c == '\U{000C}' || c == '\r'
  }

  // ---------------------------------------------------------------- splitting

  /**
   * Split `s` at every occurrence of `d`, keeping empty pieces: there is always
   * one piece more than there are delimiters.
   */
  function SplitOn(s: string, d: char): (r: seq<string>)
    ensures |r| >= 1
  {
    if s == [] then [""]
    else
      var rest := SplitOn(s[1..], d);
      if s[0] == d then [""] + rest
      else [[s[0]] + rest[0]] + rest[1..]
  }

  /** No piece holds the delimiter. */
  lemma {:induction false} SplitOnPieces(s: string, d: char)
    ensures forall i :: 0 <= i < |SplitOn(s, d)| ==> d !in SplitOn(s, d)[i]
  {
    if s != [] {
      SplitOnPieces(s[1..], d);
      var rest := SplitOn(s[1..], d);
      var r := SplitOn(s, d);
      if s[0] != d {
        assert r == [[s[0]] + rest[0]] + rest[1..];
        forall i | 0 <= i < |r|
          ensures d !in r[i]
        {
          if i > 0 {
            assert r[i] == rest[i];
          }
        }
      } else {
        assert r == [""] + rest;
        forall i | 0 <= i < |r|
          ensures d !in r[i]
        {
          if i > 0 {
            assert r[i] == rest[i - 1];
          }
        }
      }
    }
  }

  /** The inverse of SplitOn: put `d` back between consecutive pieces. */
  function Join(parts: seq<string>, d: char): string
    requires |parts| >= 1
  {
    if |parts| == 1 then parts[0] else parts[0] + [d] + Join(parts[1..], d)
  }

  /** g_strsplit(s, d, -1): as SplitOn, except that the empty string splits into no pieces. */
  function GSplit(s: string, d: char): seq<string> {
    if s == "" then [] else SplitOn(s, d)
  }

  /** Splitting and joining again gives back the original string. */
  lemma {:induction false} JoinSplitOn(s: string, d: char)
    ensures Join(SplitOn(s, d), d) == s
  {
    if s != [] {
      var rest := SplitOn(s[1..], d);
      JoinSplitOn(s[1..], d);
      if s[0] == d {
        assert SplitOn(s, d) == [""] + rest;
        assert SplitOn(s, d)[1..] == rest;
      } else {
        var r := SplitOn(s, d);
        assert r == [[s[0]] + rest[0]] + rest[1..];
        if |rest| == 1 {
          assert r == [[s[0]] + rest[0]];
        } else {
          assert r[1..] == rest[1..];
          assert Join(rest, d) == rest[0] + [d] + Join(rest[1..], d);
        }
      }
    }
  }

  /** A string splits into a single piece exactly when it holds no delimiter, and that piece is the string. */
  lemma {:induction false} SplitOnSingle(s: string, d: char)
    ensures |SplitOn(s, d)| == 1 <==> d !in s
    ensures d !in s ==> SplitOn(s, d) == [s]
  {
    if s != [] {
      SplitOnSingle(s[1..], d);
      assert s == [s[0]] + s[1..];
    }
  }

  // ---------------------------------------------------------------- delimiting and stripping

  /** g_strdelimit(s, " \t", ' '): every space or tab becomes a space. */
  function TabsToSpaces(s: string): string {
    seq(|s|, i requires 0 <= i < |s| => if s[i] == '\t' then ' ' else s[i])
  }

  /** After delimiting, no tab is left and every other character is where it was. */
  lemma TabsToSpacesSpec(s: string)
    ensures var r := TabsToSpaces(s);
      && |r| == |s| && '\t' !in r
      && (forall i :: 0 <= i < |s| && s[i] == '\t' ==> r[i] == ' ')
      && (forall i :: 0 <= i < |s| && s[i] != '\t' ==> r[i] == s[i])
  {
  }

  /** g_strchug: drop leading white space. */
  function TrimStart(s: string): (r: string)
    ensures |r| <= |s|
  {
    if s != [] && IsSpace(s[0]) then TrimStart(s[1..]) else s
  }

  /** What g_strchug leaves is a suffix that does not start with white space, and all it drops is white space. */
  lemma {:induction false} TrimStartSpec(s: string)
    ensures var r := TrimStart(s);
      && r == s[|s| - |r|..]
      && (r == [] || !IsSpace(r[0]))
      && forall i :: 0 <= i < |s| - |r| ==> IsSpace(s[i])
  {
    if s != [] && IsSpace(s[0]) {
      TrimStartSpec(s[1..]);
    }
  }

  /** g_strchomp: drop trailing white space. */
  function TrimEnd(s: string): (r: string)
    ensures |r| <= |s|
  {
    if s != [] && IsSpace(s[|s| - 1]) then TrimEnd(s[..|s| - 1]) else s
  }

  /** What g_strchomp leaves is a prefix that does not end with white space, and all it drops is white space. */
  lemma {:induction false} TrimEndSpec(s: string)
    ensures var r := TrimEnd(s);
      && r == s[..|r|]
      && (r == [] || !IsSpace(r[|r| - 1]))
      && forall i :: |r| <= i < |s| ==> IsSpace(s[i])
  {
    if s != [] && IsSpace(s[|s| - 1]) {
      TrimEndSpec(s[..|s| - 1]);
    }
  }

  /** g_strstrip: drop leading and trailing white space. */
  function Strip(s: string): string {
    TrimEnd(TrimStart(s))
  }

  /**
   * Strip removes exactly the white space at both ends: what is left is a
   * contiguous part of the input that neither starts nor ends with white space,
   * and everything cut away is white space.
   */
  lemma StripSpec(s: string)
    ensures var a, r := |s| - |TrimStart(s)|, Strip(s);
      && a + |r| <= |s| && r == s[a..a + |r|]
      && (forall i :: 0 <= i < a ==> IsSpace(s[i]))
      && (forall i :: a + |r| <= i < |s| ==> IsSpace(s[i]))
      && (r == [] || (!IsSpace(r[0]) && !IsSpace(r[|r| - 1])))
  {
    var t := TrimStart(s);
    var r := TrimEnd(t);
    var a := |s| - |t|;
    TrimStartSpec(s);
    TrimEndSpec(t);
    assert t == s[a..];
    assert r == t[..|r|];
    assert r == s[a..a + |r|];
    forall i | a + |r| <= i < |s|
      ensures IsSpace(s[i])
    {
      assert s[i] == t[i - a];
    }
  }

  // ---------------------------------------------------------------- suffixes

  /** g_str_has_suffix. */
  predicate HasSuffix(s: string, suffix: string) {
    |suffix| <= |s| && s[|s| - |suffix|..] == suffix
  }

  // ---------------------------------------------------------------- decimal numbers

  predicate IsDigit(c: char) {
    '0' <= c <= '9'
  }

  function DigitChar(n: nat): (c: char)
    requires n < 10
    ensures IsDigit(c)
  {
    (n + '0' as int) as char
  }

  function DigitValue(c: char): (n: nat)
    requires IsDigit(c)
    ensures n < 10 && DigitChar(n) == c
  {
    (c as int - '0' as int)
  }

  /** The decimal digits of `n`, without leading zeros (printf's `%u`). */
  function Decimal(n: nat): (r: string)
    ensures |r| >= 1
    ensures forall i :: 0 <= i < |r| ==> IsDigit(r[i])
  {
    if n < 10 then [DigitChar(n)] else Decimal(n / 10) + [DigitChar(n % 10)]
  }

  /** Read a string of decimal digits back as a number. */
  function ParseDecimal(s: string): nat
    requires forall i :: 0 <= i < |s| ==> IsDigit(s[i])
  {
    if s == [] then 0 else ParseDecimal(s[..|s| - 1]) * 10 + DigitValue(s[|s| - 1])
  }

  /** Reading back what Decimal printed gives the number again. */
  lemma {:induction false} ParseDecimalOfDecimal(n: nat)
    ensures ParseDecimal(Decimal(n)) == n
  {
    if n >= 10 {
      var r := Decimal(n);
      assert r[..|r| - 1] == Decimal(n / 10);
      ParseDecimalOfDecimal(n / 10);
      assert DigitValue(DigitChar(n % 10)) == n % 10;
    } else {
      assert DigitValue(DigitChar(n)) == n;
    }
  }

  /** Different numbers print differently. */
  lemma DecimalInjective(m: nat, n: nat)
    ensures Decimal(m) == Decimal(n) ==> m == n
  {
    ParseDecimalOfDecimal(m);
    ParseDecimalOfDecimal(n);
  }

  /** printf's `%d`: a minus sign for negative values. */
  function FormatInt(i: int): (r: string)
    ensures |r| >= 1
  {
    if i < 0 then "-" + Decimal(-i) else Decimal(i)
  }

  /** The first character of `%d` output is a minus sign exactly for negative values. */
  lemma FormatIntSign(i: int)
    ensures FormatInt(i)[0] == '-' <==> i < 0
  {
    if i >= 0 {
      assert IsDigit(Decimal(i)[0]);
    }
  }

  /** Different values print differently under `%d`. */
  lemma FormatIntInjective(i: int, j: int)
    ensures FormatInt(i) == FormatInt(j) ==> i == j
  {
    if FormatInt(i) == FormatInt(j) {
      FormatIntSign(i);
      FormatIntSign(j);
      if i < 0 {
        assert Decimal(-i) == FormatInt(i)[1..];
        assert Decimal(-j) == FormatInt(j)[1..];
        DecimalInjective(-i, -j);
      } else {
        DecimalInjective(i, j);
      }
    }
  }
}
