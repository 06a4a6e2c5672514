/** Splitting and joining strings, hexadecimal digits and strtol in base 16. */
module Text {
  import opened Options

  // ----- Splitting

  ghost predicate Free(s: string, sep: char)
  {
    sep !in s
  }

  /** The pieces between the separators; the empty string has one empty piece. */
  function Split(s: string, sep: char): (pieces: seq<string>)
    ensures |pieces| >= 1
  {
    if s == "" then [""] else
      var rest := Split(s[1..], sep);
      if s[0] == sep then [""] + rest else [[s[0]] + rest[0]] + rest[1..]
  }

  function Join(pieces: seq<string>, sep: char): string
    requires |pieces| >= 1
  {
    if |pieces| == 1 then pieces[0] else pieces[0] + [sep] + Join(pieces[1..], sep)
  }

  /** Splitting loses nothing, and no piece contains the separator. */
  lemma {:induction false} JoinSplit(s: string, sep: char)
    ensures Join(Split(s, sep), sep) == s
    ensures forall i | 0 <= i < |Split(s, sep)| :: Free(Split(s, sep)[i], sep)
  {
    if s != "" {
      JoinSplit(s[1..], sep);
      var rest := Split(s[1..], sep);
      if s[0] == sep {
        assert Split(s, sep)[1..] == rest;
      } else {
        assert Split(s, sep)[1..] == rest[1..];
        assert s == [s[0]] + s[1..];
      }
    }
  }

  /** A piece in front of a separator comes off whole. */
  lemma {:induction false} SplitFirst(piece: string, sep: char, rest: string)
    requires Free(piece, sep)
    ensures Split(piece + [sep] + rest, sep) == [piece] + Split(rest, sep)
  {
    var s := piece + [sep] + rest;
    if piece == "" {
      assert s[1..] == rest;
    } else {
      SplitFirst(piece[1..], sep, rest);
      assert s[1..] == piece[1..] + [sep] + rest;
      assert piece == [piece[0]] + piece[1..];
    }
  }

  lemma {:induction false} SplitLast(piece: string, sep: char)
    requires Free(piece, sep)
    ensures Split(piece, sep) == [piece]
  {
    if piece != "" {
      SplitLast(piece[1..], sep);
      assert piece == [piece[0]] + piece[1..];
    }
  }

  /** Joining pieces free of the separator loses nothing either. */
  lemma {:induction false} SplitJoin(pieces: seq<string>, sep: char)
    requires |pieces| >= 1
    requires forall i | 0 <= i < |pieces| :: Free(pieces[i], sep)
    ensures Split(Join(pieces, sep), sep) == pieces
  {
    if |pieces| == 1 {
      SplitLast(pieces[0], sep);
    } else {
      SplitJoin(pieces[1..], sep);
      SplitFirst(pieces[0], sep, Join(pieces[1..], sep));
      assert pieces == [pieces[0]] + pieces[1..];
    }
  }

  function Lengths(pieces: seq<string>): nat
  {
    if pieces == [] then 0 else |pieces[0]| + Lengths(pieces[1..])
  }

  lemma {:induction false} JoinLength(pieces: seq<string>, sep: char)
    requires |pieces| >= 1
    ensures |Join(pieces, sep)| == Lengths(pieces) + |pieces| - 1
  {
    if |pieces| > 1 { JoinLength(pieces[1..], sep); }
  }

  /** Pieces of at least k characters that add up to no more have exactly k each. */
  lemma {:induction false} TightLengths(pieces: seq<string>, k: nat)
    requires forall i | 0 <= i < |pieces| :: |pieces[i]| >= k
    ensures Lengths(pieces) >= k * |pieces|
    ensures Lengths(pieces) == k * |pieces| ==> forall i | 0 <= i < |pieces| :: |pieces[i]| == k
  {
    if pieces != [] {
      TightLengths(pieces[1..], k);
      assert k * |pieces| == k * |pieces[1..]| + k;
      if Lengths(pieces) == k * |pieces| {
        forall i | 0 <= i < |pieces| ensures |pieces[i]| == k {
          if i > 0 { assert pieces[i] == pieces[1..][i - 1]; }
        }
      }
    }
  }

  // ----- Characters

  predicate IsSpace(c: char)
  {
    c == ' ' || '\t' <= c <= '\r'
  }

  predicate IsHex(c: char)
  {
    '0' <= c <= '9' || 'a' <= c <= 'f' || 'A' <= c <= 'F'
  }

  predicate AllHex(s: string)
  {
    forall i | 0 <= i < |s| :: IsHex(s[i])
  }

  function Nibble(c: char): (n: nat)
    requires IsHex(c)
    ensures n < 16
  {
    if '0' <= c <= '9' then c as int - '0' as int
    else if 'a' <= c <= 'f' then c as int - 'a' as int + 10
    else c as int - 'A' as int + 10
  }

  function LowerDigit(n: nat): (c: char)
    requires n < 16
    ensures IsHex(c) && Nibble(c) == n
  {
    if n < 10 then (n + '0' as int) as char else (n - 10 + 'a' as int) as char
  }

  function UpperDigit(n: nat): (c: char)
    requires n < 16
    ensures IsHex(c) && Nibble(c) == n
  {
    if n < 10 then (n + '0' as int) as char else (n - 10 + 'A' as int) as char
  }

  function LowerChar(c: char): (d: char)
  {
    if 'A' <= c <= 'Z' then (c as int - 'A' as int + 'a' as int) as char else c
  }

  function Lower(s: string): (t: string)
    ensures |t| == |s|
    ensures forall i | 0 <= i < |s| :: t[i] == LowerChar(s[i])
  {
    if s == "" then "" else [LowerChar(s[0])] + Lower(s[1..])
  }

  function LowerAll(pieces: seq<string>): (r: seq<string>)
    ensures |r| == |pieces|
  {
    seq(|pieces|, i requires 0 <= i < |pieces| => Lower(pieces[i]))
  }

  lemma {:induction false} LowerConcat(s: string, t: string)
    ensures Lower(s + t) == Lower(s) + Lower(t)
  {
  }

  lemma {:induction false} LowerJoin(pieces: seq<string>, sep: char)
    requires |pieces| >= 1 && LowerChar(sep) == sep
    ensures Lower(Join(pieces, sep)) == Join(LowerAll(pieces), sep)
  {
    if |pieces| > 1 {
      LowerJoin(pieces[1..], sep);
      assert LowerAll(pieces)[1..] == LowerAll(pieces[1..]);
      LowerConcat(pieces[0], [sep]);
      LowerConcat(pieces[0] + [sep], Join(pieces[1..], sep));
    }
  }

  /** Lower-casing neither adds nor removes a separator that is no letter. */
  lemma {:induction false} LowerFree(s: string, sep: char)
    requires Free(s, sep) && !('a' <= sep <= 'z') && !('A' <= sep <= 'Z')
    ensures Free(Lower(s), sep)
  {
    var t := Lower(s);
    forall i | 0 <= i < |t| ensures t[i] != sep { assert t[i] == LowerChar(s[i]) && s[i] in s; }
  }

  lemma {:induction false} LowerDigitOfNibble(c: char)
    requires IsHex(c)
    ensures LowerDigit(Nibble(c)) == LowerChar(c)
  {
  }

  // ----- strtol(token, &end, 16)

  /** The C string a buffer holds: everything before its first NUL. */
  function CString(s: string): (t: string)
    ensures t <= s && '\0' !in t
    ensures |t| < |s| ==> s[|t|] == '\0'
  {
    if s == "" || s[0] == '\0' then "" else [s[0]] + CString(s[1..])
  }

  function Spaces(s: string): (n: nat)
    ensures n <= |s|
  {
    if s != "" && IsSpace(s[0]) then 1 + Spaces(s[1..]) else 0
  }

  function HexRun(s: string): (n: nat)
    ensures n <= |s| && AllHex(s[..n])
    ensures n < |s| ==> !IsHex(s[n])
  {
    if s != "" && IsHex(s[0]) then
      var n := 1 + HexRun(s[1..]);
      assert s[..n] == [s[0]] + s[1..][..n - 1];
      n
    else 0
  }

  function HexValue(s: string): nat
    requires AllHex(s)
  {
    if s == "" then 0 else 16 * HexValue(s[..|s| - 1]) + Nibble(s[|s| - 1])
  }

  /** The number read from a C string, and how many characters were used. */
  function Strtol(s: string): (result: (int, nat))
    ensures result.1 <= |s|
  {
    var i := Spaces(s);
    var negative := i < |s| && s[i] == '-';
    var j := if i < |s| && (s[i] == '-' || s[i] == '+') then i + 1 else i;
    var k := if j + 2 < |s| && s[j] == '0' && (s[j + 1] == 'x' || s[j + 1] == 'X') && IsHex(s[j + 2])
             then j + 2 else j;
    var n := HexRun(s[k..]);
    if n == 0 then (0, 0) else
      var v: int := HexValue(s[k..][..n]);
      (if negative then -v else v, k + n)
  }

  /** A token is accepted when strtol stops at its terminating NUL. */
  predicate Accepts(token: string)
  {
    Strtol(CString(token)).1 == |CString(token)|
  }

  function Number(token: string): int
  {
    Strtol(CString(token)).0
  }

  /** Hexadecimal digits alone are read as the number they spell. */
  lemma {:induction false} HexToken(token: string)
    requires token != "" && AllHex(token)
    ensures Accepts(token) && Number(token) == HexValue(token)
  {
    assert '\0' !in token;
    assert CString(token) == token;
    assert Spaces(token) == 0;
    assert token[0..] == token;
    assert HexRun(token) == |token|;
    assert token[..|token|] == token;
  }

  /** How a number is read from a token, if it is one. */
  type Reader = string -> Option<int>

  function Scan(token: string): Option<int>
  {
    if Accepts(token) then Some(Number(token)) else None
  }

  /** A reader that agrees with strtol on hexadecimal digits and on single characters. */
  ghost predicate ReadsHex(read: Reader)
  {
    && (forall s | s != "" && AllHex(s) :: read(s) == Some(HexValue(s)))
    && (forall s | |s| == 1 && read(s).Some? :: 0 <= read(s).value < 16)
  }

  lemma {:induction false} ScanReadsHex()
    ensures ReadsHex(Scan)
  {
    forall s | s != "" && AllHex(s) ensures Scan(s) == Some(HexValue(s)) { HexToken(s); }
    forall s: string | |s| == 1 && Scan(s).Some? ensures 0 <= Scan(s).value < 16 { OneCharacter(s); }
  }

  /** One accepted character is a digit, or a NUL that reads as zero. */
  lemma {:induction false} OneCharacter(s: string)
    requires |s| == 1 && Accepts(s)
    ensures 0 <= Number(s) < 16
  {
    if s[0] == '\0' {
      assert CString(s) == "";
    } else {
      assert s[1..] == "" && CString(s) == s;
      OneDigit(s);
    }
  }

  lemma {:induction false} OneDigit(s: string)
    requires |s| == 1 && Strtol(s).1 == 1
    ensures 0 <= Strtol(s).0 < 16
  {
    assert s[0..] == s && s[1..] == "";
    if IsHex(s[0]) {
      assert s[..1] == s && s[..0] == "";
      assert HexValue(s) == Nibble(s[0]);
    }
  }
}
