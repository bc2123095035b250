/** The part of Go's `strings` and `strconv` packages that shissue relies on,
    over strings taken as sequences of characters (one character per byte). */
module Strs {
  import opened Wrappers

  // ---------------------------------------------------------------------------
  // strings.Split and strings.Join with a one-character separator
  // ---------------------------------------------------------------------------

  /** strings.Split(s, string(sep)): the pieces between the separators, in order;
      there is always one piece more than there are separators. */
  function Split(s: string, sep: char): (parts: seq<string>)
    ensures |parts| >= 1
    ensures forall i :: 0 <= i < |parts| ==> sep !in parts[i]
    decreases |s|
  {
    if |s| == 0 then [""]
    else
      var rest := Split(s[1..], sep);
      if s[0] == sep then [""] + rest
      else [[s[0]] + rest[0]] + rest[1..]
  }

  /** strings.Join(parts, string(sep)). */
  function Join(parts: seq<string>, sep: char): string
  {
    if |parts| == 0 then ""
    else if |parts| == 1 then parts[0]
    else parts[0] + [sep] + Join(parts[1..], sep)
  }

  /** Splitting loses nothing: joining the pieces gives the string back. */
  lemma {:induction false} JoinSplit(s: string, sep: char)
    ensures Join(Split(s, sep), sep) == s
    decreases |s|
  {
    if |s| > 0 {
      var rest := Split(s[1..], sep);
      JoinSplit(s[1..], sep);
      if s[0] == sep {
        assert s == [sep] + s[1..];
      } else if |rest| == 1 {
        assert s == [s[0]] + s[1..];
      } else {
        assert Join(rest, sep) == rest[0] + [sep] + Join(rest[1..], sep);
        assert s == [s[0]] + s[1..];
      }
    }
  }

  /** A separator-free prefix followed by a separator is the first piece. */
  lemma {:induction false} SplitPrefix(a: string, sep: char, b: string)
    requires sep !in a
    ensures Split(a + [sep] + b, sep) == [a] + Split(b, sep)
    decreases |a|
  {
    var s := a + [sep] + b;
    if |a| == 0 {
      assert s[1..] == b;
    } else {
      assert s[1..] == a[1..] + [sep] + b;
      SplitPrefix(a[1..], sep, b);
      assert [a[0]] + a[1..] == a;
    }
  }

  /** A string without the separator is its own single piece. */
  lemma {:induction false} SplitNoSep(s: string, sep: char)
    requires sep !in s
    ensures Split(s, sep) == [s]
    decreases |s|
  {
    if |s| > 0 {
      SplitNoSep(s[1..], sep);
      assert [s[0]] + s[1..] == s;
    }
  }

  /** Joining separator-free pieces and splitting again gives the pieces back. */
  lemma {:induction false} SplitJoin(parts: seq<string>, sep: char)
    requires |parts| >= 1
    requires forall i :: 0 <= i < |parts| ==> sep !in parts[i]
    ensures Split(Join(parts, sep), sep) == parts
    decreases |parts|
  {
    if |parts| == 1 {
      SplitNoSep(parts[0], sep);
    } else {
      SplitJoin(parts[1..], sep);
      SplitPrefix(parts[0], sep, Join(parts[1..], sep));
      assert parts == [parts[0]] + parts[1..];
    }
  }

  // ---------------------------------------------------------------------------
  // strings.Trim
  // ---------------------------------------------------------------------------

  /** How many leading characters of `s` belong to `cut`. */
  function LeadingCount(s: string, cut: set<char>): (k: nat)
    ensures k <= |s|
    ensures forall i :: 0 <= i < k ==> s[i] in cut
    ensures k < |s| ==> s[k] !in cut
    decreases |s|
  {
    if |s| == 0 || s[0] !in cut then 0 else 1 + LeadingCount(s[1..], cut)
  }

  /** How many trailing characters of `s` belong to `cut`. */
  function TrailingCount(s: string, cut: set<char>): (k: nat)
    ensures k <= |s|
    ensures forall i :: |s| - k <= i < |s| ==> s[i] in cut
    ensures k < |s| ==> s[|s| - 1 - k] !in cut
    decreases |s|
  {
    if |s| == 0 || s[|s| - 1] !in cut then 0 else 1 + TrailingCount(s[..|s| - 1], cut)
  }

  /** strings.Trim(s, cutset): drop the leading and then the trailing characters
      that belong to `cut`. What is left starts at the first character outside
      `cut`, ends before a tail made of `cut` characters only, and (unless it is
      empty) begins and ends with characters outside `cut`. */
  function Trim(s: string, cut: set<char>): (r: string)
    ensures LeadingCount(s, cut) + |r| <= |s|
    ensures r == s[LeadingCount(s, cut)..LeadingCount(s, cut) + |r|]
    ensures forall i :: LeadingCount(s, cut) + |r| <= i < |s| ==> s[i] in cut
    ensures |r| > 0 ==> r[0] !in cut && r[|r| - 1] !in cut
  {
    var t := s[LeadingCount(s, cut)..];
    t[..|t| - TrailingCount(t, cut)]
  }

  /** A string that neither starts nor ends with a `cut` character is left
      as it is. */
  lemma TrimUnpadded(s: string, cut: set<char>)
    requires |s| > 0 ==> s[0] !in cut && s[|s| - 1] !in cut
    ensures Trim(s, cut) == s
  {
    if |s| > 0 {
      assert LeadingCount(s, cut) == 0;
      assert s[0..] == s;
      assert TrailingCount(s, cut) == 0;
    }
  }

  /** A line end in `cut` after an unpadded text is trimmed away. */
  lemma TrimLineEnd(s: string, c: char, cut: set<char>)
    requires |s| > 0 && s[0] !in cut && s[|s| - 1] !in cut && c in cut
    ensures Trim(s + [c], cut) == s
  {
    var t := s + [c];
    assert t[0] == s[0];
    assert LeadingCount(t, cut) == 0;
    var r := Trim(t, cut);
    assert t[|s| - 1] == s[|s| - 1];
    assert |r| == |s|;
    assert r == t[..|s|] == s;
  }

  // ---------------------------------------------------------------------------
  // Substring search and strings.Replace
  // ---------------------------------------------------------------------------

  predicate StartsWith(s: string, pat: string)
  {
    |pat| <= |s| && s[..|pat|] == pat
  }

  /** strings.Contains(s, pat). */
  predicate Contains(s: string, pat: string)
    decreases |s|
  {
    StartsWith(s, pat) || (|s| > 0 && Contains(s[1..], pat))
  }

  /** strings.Index(s, pat) as an option: the first position where `pat`
      occurs (IndexOfFirst). */
  function IndexOf(s: string, pat: string): (at: Option<nat>)
    ensures at.Some? ==> at.value + |pat| <= |s| && s[at.value..at.value + |pat|] == pat
    decreases |s|
  {
    if StartsWith(s, pat) then Some(0)
    else if |s| == 0 then None
    else
      match IndexOf(s[1..], pat)
      case None => None
      case Some(i) => Some(i + 1)
  }

  /** IndexOf finds an occurrence exactly when there is one, and no
      occurrence starts before the one it finds. */
  lemma {:induction false} IndexOfFirst(s: string, pat: string)
    ensures IndexOf(s, pat).Some? <==> Contains(s, pat)
    ensures IndexOf(s, pat).Some? ==>
      forall j :: 0 <= j < IndexOf(s, pat).value ==> !StartsWith(s[j..], pat)
    decreases |s|
  {
    if !StartsWith(s, pat) && |s| > 0 {
      IndexOfFirst(s[1..], pat);
      if IndexOf(s[1..], pat).Some? {
        var i := IndexOf(s[1..], pat).value;
        assert IndexOf(s, pat) == Some(i + 1);
        forall j | 1 <= j < i + 1
          ensures !StartsWith(s[j..], pat)
        {
          assert s[j..] == s[1..][j - 1..];
        }
      }
    }
  }

  /** strings.Replace(s, pat, "", -1): every non-overlapping occurrence of `pat`,
      found left to right, is removed (DeleteAllChanges). */
  function DeleteAll(s: string, pat: string): (r: string)
    requires pat != []
    ensures |r| <= |s|
    decreases |s|
  {
    if |s| == 0 then ""
    else if StartsWith(s, pat) then DeleteAll(s[|pat|..], pat)
    else [s[0]] + DeleteAll(s[1..], pat)
  }

  /** DeleteAll shortens the text exactly when the pattern occurs in it, and
      leaves it as it is when it does not. */
  lemma {:induction false} DeleteAllChanges(s: string, pat: string)
    requires pat != []
    ensures |DeleteAll(s, pat)| == |s| <==> !Contains(s, pat)
    ensures !Contains(s, pat) ==> DeleteAll(s, pat) == s
    decreases |s|
  {
    if |s| > 0 && !StartsWith(s, pat) {
      DeleteAllChanges(s[1..], pat);
      assert [s[0]] + s[1..] == s;
    }
  }

  /** strings.Replace(s, pat, repl, 1): the first occurrence of `pat` is
      replaced (ReplacesFirstOccurrence). */
  function ReplaceFirst(s: string, pat: string, repl: string): string
    requires pat != []
    decreases |s|
  {
    if |s| == 0 then ""
    else if StartsWith(s, pat) then repl + s[|pat|..]
    else [s[0]] + ReplaceFirst(s[1..], pat, repl)
  }

  /** ReplaceFirst replaces the first occurrence IndexOf finds, and changes
      nothing when there is none. */
  lemma {:induction false} ReplacesFirstOccurrence(s: string, pat: string, repl: string)
    requires pat != []
    ensures IndexOf(s, pat).None? ==> ReplaceFirst(s, pat, repl) == s
    ensures IndexOf(s, pat).Some? ==>
      var i := IndexOf(s, pat).value;
      ReplaceFirst(s, pat, repl) == s[..i] + repl + s[i + |pat|..]
    decreases |s|
  {
    if |s| == 0 {
      assert !StartsWith(s, pat);
    } else if StartsWith(s, pat) {
      assert IndexOf(s, pat) == Some(0);
      assert s[..0] + repl == repl;
    } else {
      ReplacesFirstOccurrence(s[1..], pat, repl);
      var r := IndexOf(s[1..], pat);
      if r.None? {
        ReplaceFirstNone(s, pat, repl);
      } else {
        ReplaceFirstLater(s, pat, repl, r.value);
      }
    }
  }

  /** The step of ReplacesFirstOccurrence where the tail holds no occurrence. */
  lemma ReplaceFirstNone(s: string, pat: string, repl: string)
    requires pat != [] && |s| > 0 && !StartsWith(s, pat)
    requires IndexOf(s[1..], pat).None?
    requires ReplaceFirst(s[1..], pat, repl) == s[1..]
    ensures IndexOf(s, pat).None?
    ensures ReplaceFirst(s, pat, repl) == s
  {
    assert [s[0]] + s[1..] == s;
  }

  /** The step of ReplacesFirstOccurrence where the first occurrence lies in
      the tail at `i`. */
  lemma ReplaceFirstLater(s: string, pat: string, repl: string, i: nat)
    requires pat != [] && |s| > 0 && !StartsWith(s, pat)
    requires IndexOf(s[1..], pat) == Some(i)
    requires ReplaceFirst(s[1..], pat, repl) == s[1..][..i] + repl + s[1..][i + |pat|..]
    ensures IndexOf(s, pat) == Some(i + 1)
    ensures ReplaceFirst(s, pat, repl) == s[..i + 1] + repl + s[i + 1 + |pat|..]
  {
    assert i + |pat| <= |s| - 1;
    ConsAround(s, i, |pat|, repl);
    assert ReplaceFirst(s, pat, repl) == [s[0]] + ReplaceFirst(s[1..], pat, repl);
  }

  /** Putting the first character back in front of a text cut at `i` and
      `i + n` of its tail. */
  lemma ConsAround(s: string, i: nat, n: nat, repl: string)
    requires |s| > 0 && i + n <= |s| - 1
    ensures [s[0]] + (s[1..][..i] + repl + s[1..][i + n..]) == s[..i + 1] + repl + s[i + 1 + n..]
  {
    assert s[..i + 1] == [s[0]] + s[1..][..i];
    assert s[i + 1 + n..] == s[1..][i + n..];
  }

  /** When the text before an occurrence cannot start one (it lacks the pattern's
      first character), exactly that occurrence is replaced. */
  lemma {:induction false} ReplaceFirstAt(a: string, pat: string, b: string, repl: string)
    requires pat != [] && pat[0] !in a
    ensures ReplaceFirst(a + pat + b, pat, repl) == a + repl + b
    decreases |a|
  {
    var s := a + pat + b;
    if |a| == 0 {
      assert s == pat + b;
      assert s[..|pat|] == pat;
      assert s[|pat|..] == b;
    } else {
      assert s[0] == a[0] != pat[0];
      assert !StartsWith(s, pat);
      assert s[1..] == a[1..] + pat + b;
      ReplaceFirstAt(a[1..], pat, b, repl);
      assert [a[0]] + a[1..] == a;
    }
  }

  // ---------------------------------------------------------------------------
  // strconv: decimal and hexadecimal numbers
  // ---------------------------------------------------------------------------

  predicate IsDigit(c: char)
  {
    '0' <= c <= '9'
  }

  predicate AllDigits(s: string)
  {
    forall i :: 0 <= i < |s| ==> IsDigit(s[i])
  }

  function DigitChar(d: nat): (c: char)
    requires d < 10
    ensures IsDigit(c) && c as int - '0' as int == d
  {
    (d + '0' as int) as char
  }

  /** strconv.Itoa on a natural number: its shortest decimal spelling. */
  function NatToString(n: nat): (s: string)
    ensures |s| >= 1 && AllDigits(s)
  {
    if n < 10 then [DigitChar(n)] else NatToString(n / 10) + [DigitChar(n % 10)]
  }

  /** strconv.Itoa: a leading minus sign for negative numbers. */
  function IntToString(i: int): string
  {
    if i < 0 then "-" + NatToString(-i) else NatToString(i)
  }

  /** The value of a string of decimal digits, most significant first. */
  function DigitsValue(s: string): nat
    requires AllDigits(s)
  {
    if |s| == 0 then 0
    else DigitsValue(s[..|s| - 1]) * 10 + (s[|s| - 1] as int - '0' as int)
  }

  const TwoTo64: nat := 0x1_0000_0000_0000_0000
  const TwoTo63: nat := 0x8000_0000_0000_0000

  /** strconv.ParseUint(s, 10, 64) with its error turned into None: a non-empty
      run of decimal digits (no sign, no underscore) whose value fits 64 bits. */
  function ParseUint64(s: string): (r: Option<nat>)
    ensures r.Some? <==> |s| > 0 && AllDigits(s) && DigitsValue(s) < TwoTo64
    ensures r.Some? ==> r.value == DigitsValue(s) && r.value < TwoTo64
  {
    if |s| > 0 && AllDigits(s) && DigitsValue(s) < TwoTo64 then Some(DigitsValue(s)) else None
  }

  lemma {:induction false} DigitsOfNat(n: nat)
    ensures DigitsValue(NatToString(n)) == n
  {
    var s := NatToString(n);
    if n >= 10 {
      DigitsOfNat(n / 10);
      assert s[..|s| - 1] == NatToString(n / 10);
    }
  }

  /** Printing a 64-bit number and parsing it back gives the number. */
  lemma ParseUint64OfNat(n: nat)
    requires n < TwoTo64
    ensures ParseUint64(NatToString(n)) == Some(n)
  {
    DigitsOfNat(n);
  }

  /** Go's int(x) for a uint64 x on a 64-bit platform: two's-complement reading. */
  function Uint64ToInt(x: nat): (i: int)
    requires x < TwoTo64
    ensures -(TwoTo63 as int) <= i < TwoTo63
    ensures i % TwoTo64 == x
  {
    if x < TwoTo63 then x else x - TwoTo64
  }

  /** Go's uint(x) for an int x (64-bit): reduction modulo 2^64. */
  function IntToUint64(x: int): (u: nat)
    ensures u < TwoTo64
    ensures 0 <= x < TwoTo64 ==> u == x
  {
    x % TwoTo64
  }

  predicate IsHexDigit(c: char)
  {
    ('0' <= c <= '9') || ('a' <= c <= 'f') || ('A' <= c <= 'F')
  }

  function HexValue(c: char): (v: nat)
    requires IsHexDigit(c)
    ensures v < 16
  {
    if '0' <= c <= '9' then c as int - '0' as int
    else if 'a' <= c <= 'f' then c as int - 'a' as int + 10
    else c as int - 'A' as int + 10
  }

  function LowerHexDigit(d: nat): (c: char)
    requires d < 16
    ensures IsHexDigit(c) && HexValue(c) == d
  {
    "0123456789abcdef"[d]
  }

  /** strconv.ParseUint(s, 16, 8) on a two-character string with its error
      discarded: the byte the two hex digits spell, or 0 when either character
      is not a hex digit (a syntax error returns 0). Two hex digits never exceed
      255, so the range error never arises. */
  function ParseHexPair(s: string): (b: nat)
    requires |s| == 2
    ensures b < 256
    ensures !IsHexDigit(s[0]) || !IsHexDigit(s[1]) ==> b == 0
  {
    if IsHexDigit(s[0]) && IsHexDigit(s[1]) then 16 * HexValue(s[0]) + HexValue(s[1]) else 0
  }

  /** The lower-case form of an upper-case hex letter; other characters unchanged. */
  function LowerHexLetter(c: char): (l: char)
    ensures IsHexDigit(c) <==> IsHexDigit(l)
  {
    if 'A' <= c <= 'F' then (c as int - 'A' as int + 'a' as int) as char else c
  }

  /** strconv.ParseUint reads hex digits case-insensitively: "FF" and "ff"
      (and "Ff") are the same byte. */
  lemma HexPairIgnoresCase(s: string)
    requires |s| == 2
    ensures ParseHexPair([LowerHexLetter(s[0]), LowerHexLetter(s[1])]) == ParseHexPair(s)
  {
  }

  /** Two lower-case hex digits for a byte. */
  function HexPair(b: nat): (s: string)
    requires b < 256
    ensures |s| == 2
  {
    [LowerHexDigit(b / 16), LowerHexDigit(b % 16)]
  }

  /** Writing a byte as two hex digits and parsing them gives the byte back. */
  lemma HexPairRoundTrip(b: nat)
    requires b < 256
    ensures ParseHexPair(HexPair(b)) == b
  {
  }
}
