/** The class of device: three bytes, printed as "%03x-%01x-%02x". */
module DeviceClasses {
  import opened Options
  import opened Text
  import opened Addresses

  datatype DeviceClass = DeviceClass(cod0: Byte, cod1: Byte, cod2: Byte)

  // ----- Hexadecimal numbers of a given width

  function Pow16(n: nat): (p: nat)
    ensures p >= 1
  {
    if n == 0 then 1 else 16 * Pow16(n - 1)
  }

  function Digits(v: nat, width: nat): (s: string)
    requires v < Pow16(width)
    ensures |s| == width && AllHex(s)
  {
    if width == 0 then "" else Digits(v / 16, width - 1) + [LowerDigit(v % 16)]
  }

  lemma {:induction false} DigitsValue(v: nat, width: nat)
    requires v < Pow16(width)
    ensures HexValue(Digits(v, width)) == v
  {
    if width > 0 {
      DigitsValue(v / 16, width - 1);
      assert Digits(v, width)[..width - 1] == Digits(v / 16, width - 1);
    }
  }

  lemma {:induction false} ValueDigits(s: string)
    requires AllHex(s)
    ensures HexValue(s) < Pow16(|s|) && Digits(HexValue(s), |s|) == Lower(s)
  {
    if s != "" {
      var n := |s| - 1;
      ValueDigits(s[..n]);
      LowerDigitOfNibble(s[n]);
      assert s == s[..n] + [s[n]];
      LowerConcat(s[..n], [s[n]]);
      var v := HexValue(s);
      assert v / 16 == HexValue(s[..n]) && v % 16 == Nibble(s[n]);
    }
  }

  // ----- Printing and parsing

  /** The upper twelve, the middle four and the lower eight bits. */
  function Upper12(c: DeviceClass): (v: nat)
    ensures v < Pow16(3) && v % 16 == c.cod1 / 16 && v / 16 == c.cod2
  {
    assert Pow16(3) == 4096 by { assert Pow16(2) == 256; }
    (c.cod2 as int) * 16 + (c.cod1 as int) / 16
  }

  function Middle4(c: DeviceClass): (v: nat)
    ensures v < Pow16(1) && v == c.cod1 % 16
  {
    (c.cod1 as int) % 16
  }

  function Lower8(c: DeviceClass): (v: nat)
    ensures v < Pow16(2) && v == c.cod0
  {
    c.cod0 as int
  }

  function Pieces(c: DeviceClass): (p: seq<string>)
    ensures |p| == 3
  {
    [Digits(Upper12(c), 3), Digits(Middle4(c), 1), Digits(Lower8(c), 2)]
  }

  function ToString(c: DeviceClass): string
  {
    Join(Pieces(c), '-')
  }

  const WIDTHS: seq<nat> := [3, 1, 2]

  predicate GoodPiece(read: Reader, piece: string, width: nat)
  {
    |Trim(piece)| == width && read(Trim(piece)).Some?
  }

  /** `values[i]`, a uint16_t. */
  function PieceValue(read: Reader, piece: string): (v: int)
    ensures 0 <= v < 65536
  {
    var r := read(Trim(piece));
    if r.Some? then r.value % 65536 else 0
  }

  predicate AcceptedBy(read: Reader, from: string)
  {
    && |from| == 8
    && |Split(from, '-')| == 3
    && forall i | 0 <= i < 3 :: GoodPiece(read, Split(from, '-')[i], WIDTHS[i])
  }

  /** The bytes from the three values.  The middle value is below 16 (see ReadsHex), so it
      shares no bit with a multiple of 16 and the source's `|` adds them. */
  function Assemble(v0: int, v1: int, v2: int): DeviceClass
  {
    DeviceClass(v2 % 256, (v1 + 16 * (v0 % 16)) % 256, v0 / 16 % 256)
  }

  function Values(read: Reader, pieces: seq<string>): (r: seq<int>)
    ensures |r| == |pieces|
  {
    seq(|pieces|, i requires 0 <= i < |pieces| => PieceValue(read, pieces[i]))
  }

  function ParsedBy(read: Reader, from: string): DeviceClass
    requires AcceptedBy(read, from)
  {
    var v := Values(read, Split(from, '-'));
    Assemble(v[0], v[1], v[2])
  }

  method FromString(from: string) returns (to: Option<DeviceClass>)
    ensures to == if AcceptedBy(Scan, from) then Some(ParsedBy(Scan, from)) else None
  {
    ScanReadsHex();
    to := FromStringBy(from, Scan);
  }

  /** The loop of FromString: all values, or nothing if a token is not a number. */
  method ReadTokens(tokens: seq<string>, read: Reader) returns (values: Option<seq<int>>)
    ensures values == if forall i | 0 <= i < |tokens| :: read(Trim(tokens[i])).Some?
                      then Some(Values(read, tokens)) else None
  {
    var result: seq<int> := [];
    for i := 0 to |tokens|
      invariant result == Values(read, tokens[..i])
      invariant forall k | 0 <= k < i :: read(Trim(tokens[k])).Some?
    {
      var value := read(Trim(tokens[i]));
      if value.None? { return None; }
      result := result + [value.value % 65536];
      assert tokens[..i + 1] == tokens[..i] + [tokens[i]];
    }
    assert tokens[..|tokens|] == tokens;
    return Some(result);
  }

  /** FromString over the reader of its tokens. */
  method FromStringBy(from: string, read: Reader) returns (to: Option<DeviceClass>)
    requires ReadsHex(read)
    ensures to == if AcceptedBy(read, from) then Some(ParsedBy(read, from)) else None
  {
    if |from| != 8 { return None; }
    var tokens := Split(from, '-');
    if |tokens| != 3 { return None; }
    if |Trim(tokens[0])| != WIDTHS[0] { assert !GoodPiece(read, tokens[0], WIDTHS[0]); return None; }
    if |Trim(tokens[1])| != WIDTHS[1] { assert !GoodPiece(read, tokens[1], WIDTHS[1]); return None; }
    if |Trim(tokens[2])| != WIDTHS[2] { assert !GoodPiece(read, tokens[2], WIDTHS[2]); return None; }
    var values := ReadTokens(tokens, read);
    assert values.Some? <==> forall i | 0 <= i < 3 :: GoodPiece(read, tokens[i], WIDTHS[i]);
    if values.None? { return None; }
    return Some(Assemble(values.value[0], values.value[1], values.value[2]));
  }

  // ----- The theorems

  lemma {:induction false} HexPieceBound(s: string)
    requires |s| <= 3 && AllHex(s)
    ensures HexValue(s) < Pow16(|s|) && HexValue(s) < 65536
  {
    ValueDigits(s);
    PowBound(|s|);
  }

  lemma {:induction false} ValueOfRead(read: Reader, s: string, v: nat)
    requires read(Trim(s)) == Some(v) && v < 65536
    ensures PieceValue(read, s) == v
  {
  }

  lemma {:induction false} NoSpaceInHex(s: string)
    requires AllHex(s)
    ensures Trim(s) == s && Free(s, '-')
  {
  }

  lemma {:induction false} HexPiece(read: Reader, s: string, width: nat)
    requires ReadsHex(read) && |s| == width && 1 <= width <= 3 && AllHex(s)
    ensures GoodPiece(read, s, width) && Free(s, '-')
    ensures PieceValue(read, s) == HexValue(s)
  {
    NoSpaceInHex(s);
    HexPieceBound(s);
    ValueOfRead(read, s, HexValue(s));
  }

  lemma {:induction false} PowBound(n: nat)
    requires n <= 3
    ensures Pow16(n) <= 4096
    ensures Pow16(1) == 16 && Pow16(2) == 256 && Pow16(3) == 4096
  {
  }

  lemma {:induction false} Lengths3(p: seq<string>)
    requires |p| == 3
    ensures Lengths(p) == |p[0]| + |p[1]| + |p[2]|
  {
    assert Lengths(p) == |p[0]| + Lengths(p[1..]);
    assert Lengths(p[1..]) == |p[1]| + Lengths(p[1..][1..]);
    assert p[1..][1..] == [p[2]];
    assert Lengths([p[2]]) == |p[2]|;
  }

  /** Pieces of hexadecimal digits of the right widths are accepted. */
  lemma {:induction false} HexPiecesAccepted(read: Reader, p: seq<string>)
    requires ReadsHex(read) && |p| == 3 && forall i | 0 <= i < 3 :: |p[i]| == WIDTHS[i] && AllHex(p[i])
    ensures Split(Join(p, '-'), '-') == p && AcceptedBy(read, Join(p, '-'))
    ensures ParsedBy(read, Join(p, '-')) == Assemble(HexValue(p[0]), HexValue(p[1]), HexValue(p[2]))
  {
    forall i | 0 <= i < 3
      ensures Free(p[i], '-') && GoodPiece(read, p[i], WIDTHS[i]) && PieceValue(read, p[i]) == HexValue(p[i])
    {
      HexPiece(read, p[i], WIDTHS[i]);
    }
    SplitJoin(p, '-');
    JoinLength(p, '-');
    Lengths3(p);
  }

  /** Packing twelve, four and eight bits into three bytes loses none of them. */
  lemma {:induction false} PackedBits(v0: nat, v1: nat)
    requires v0 < 4096 && v1 < 16
    ensures var c1 := (v1 + 16 * (v0 % 16)) % 256;
            c1 / 16 == v0 % 16 && c1 % 16 == v1 && v0 / 16 % 256 == v0 / 16 && 16 * (v0 / 16) + v0 % 16 == v0
  {
    var h := v0 % 16;
    assert v1 + 16 * h < 256;
    assert (v1 + 16 * h) / 16 == h && (v1 + 16 * h) % 16 == v1;
  }

  lemma {:induction false} AssembledParts(c: DeviceClass)
    ensures Assemble(Upper12(c), Middle4(c), Lower8(c)) == c
  {
    PowBound(3);
    PackedBits(Upper12(c), Middle4(c));
  }

  lemma {:induction false} PrintedIsParsed(read: Reader, c: DeviceClass)
    requires ReadsHex(read)
    ensures AcceptedBy(read, ToString(c)) && ParsedBy(read, ToString(c)) == c
  {
    HexPiecesAccepted(read, Pieces(c));
    DigitsValue(Upper12(c), 3);
    DigitsValue(Middle4(c), 1);
    DigitsValue(Lower8(c), 2);
    AssembledParts(c);
  }

  /** An accepted string is three pieces of 3, 1 and 2 characters: nothing was trimmed. */
  lemma {:induction false} AcceptedPieces(read: Reader, from: string)
    requires AcceptedBy(read, from)
    ensures var p := Split(from, '-');
            from == Join(p, '-') && forall i | 0 <= i < 3 :: |p[i]| == WIDTHS[i] && Free(p[i], '-')
  {
    var p := Split(from, '-');
    JoinSplit(from, '-');
    JoinLength(p, '-');
    assert GoodPiece(read, p[0], WIDTHS[0]) && GoodPiece(read, p[1], WIDTHS[1]) && GoodPiece(read, p[2], WIDTHS[2]);
    Lengths3(p);
  }

  /** The pieces printed for three values that fit their widths are those values' digits. */
  lemma {:induction false} PiecesOfValues(v0: nat, v1: nat, v2: nat)
    requires v0 < Pow16(3) && v1 < Pow16(1) && v2 < Pow16(2)
    ensures Pieces(Assemble(v0, v1, v2)) == [Digits(v0, 3), Digits(v1, 1), Digits(v2, 2)]
  {
    PowBound(3);
    PackedBits(v0, v1);
    var c := Assemble(v0, v1, v2);
    assert Upper12(c) == v0 && Middle4(c) == v1 && Lower8(c) == v2;
  }

  lemma {:induction false} HexPrintsBack(read: Reader, p: seq<string>)
    requires ReadsHex(read) && |p| == 3 && forall i | 0 <= i < 3 :: |p[i]| == WIDTHS[i] && AllHex(p[i])
    ensures AcceptedBy(read, Join(p, '-')) && ToString(ParsedBy(read, Join(p, '-'))) == Lower(Join(p, '-'))
  {
    HexPiecesAccepted(read, p);
    PiecesOfHex(p);
    LowerJoin(p, '-');
  }

  /** Printed back exactly when all pieces are hexadecimal digits ("0x1-2-03" is accepted
      too, but prints as "001-2-03"). */
  lemma {:induction false} ParsedIsPrinted(read: Reader, from: string)
    requires ReadsHex(read) && AcceptedBy(read, from)
    ensures ToString(ParsedBy(read, from)) == Lower(from) <==> forall i | 0 <= i < 3 :: AllHex(Split(from, '-')[i])
  {
    AcceptedPieces(read, from);
    var c, p := ParsedBy(read, from), Split(from, '-');
    if forall i | 0 <= i < 3 :: AllHex(p[i]) { HexPrintsBack(read, p); }
    if ToString(c) == Lower(from) { PrintedHasHexPieces(c, p); }
  }

  lemma {:induction false} PrintedHasHexPieces(c: DeviceClass, p: seq<string>)
    requires |p| == 3 && ToString(c) == Lower(Join(p, '-')) && forall i | 0 <= i < 3 :: Free(p[i], '-')
    ensures forall i | 0 <= i < 3 :: AllHex(p[i])
  {
    LowerJoin(p, '-');
    SamePieces(Pieces(c), p);
  }

  /** strtol is such a reader, so both results hold of the source's FromString. */
  lemma {:induction false} StrtolRoundTrip(c: DeviceClass)
    ensures AcceptedBy(Scan, ToString(c)) && ParsedBy(Scan, ToString(c)) == c
  {
    ScanReadsHex();
    PrintedIsParsed(Scan, c);
  }

  lemma {:induction false} PiecesOfHex(p: seq<string>)
    requires |p| == 3 && forall i | 0 <= i < 3 :: |p[i]| == WIDTHS[i] && AllHex(p[i])
    ensures Pieces(Assemble(HexValue(p[0]), HexValue(p[1]), HexValue(p[2]))) == LowerAll(p)
  {
    ValueDigits(p[0]);
    ValueDigits(p[1]);
    ValueDigits(p[2]);
    PiecesOfValues(HexValue(p[0]), HexValue(p[1]), HexValue(p[2]));
  }

  /** If hexadecimal pieces and lower-cased pieces join to the same string, the latter are hexadecimal. */
  lemma {:induction false} SamePieces(q: seq<string>, p: seq<string>)
    requires |p| == |q| == 3 && Join(q, '-') == Join(LowerAll(p), '-')
    requires forall i | 0 <= i < 3 :: AllHex(q[i]) && Free(p[i], '-')
    ensures forall i | 0 <= i < 3 :: AllHex(p[i])
  {
    forall i | 0 <= i < 3 ensures Free(q[i], '-') && Free(LowerAll(p)[i], '-') {
      assert AllHex(q[i]);
      LowerFree(p[i], '-');
    }
    SplitJoin(q, '-');
    SplitJoin(LowerAll(p), '-');
    forall i | 0 <= i < 3 ensures AllHex(p[i]) { HexOfLower(p[i], q[i]); }
  }

  lemma {:induction false} HexOfLower(s: string, t: string)
    requires AllHex(t) && t == Lower(s)
    ensures AllHex(s)
  {
    forall i | 0 <= i < |s| ensures IsHex(s[i]) { assert IsHex(t[i]) && t[i] == LowerChar(s[i]); }
  }

  lemma {:induction false} PrefixedPiece()
    ensures GoodPiece(Scan, "0x1", 3) && !AllHex("0x1")
  {
    var s := "0x1";
    assert !IsHex(s[1]);
    assert s[1..] == "x1" && s[1..][1..] == "1" && "1"[1..] == "";
    assert CString("1") == "1" && CString("x1") == "x1" && CString(s) == s;
    assert Spaces(s) == 0 && s[2..] == "1" && HexRun("1"[1..]) == 0 && HexRun(s[2..]) == 1;
  }

  /** Good pieces that are not all digits are accepted and not printed back. */
  lemma {:induction false} OtherPiecesNotPrintedBack(read: Reader, p: seq<string>, k: nat)
    requires ReadsHex(read) && |p| == 3 && k < 3 && !AllHex(p[k])
    requires forall i | 0 <= i < 3 :: |p[i]| == WIDTHS[i] && Free(p[i], '-') && GoodPiece(read, p[i], WIDTHS[i])
    ensures AcceptedBy(read, Join(p, '-')) && ToString(ParsedBy(read, Join(p, '-'))) != Lower(Join(p, '-'))
  {
    SplitJoin(p, '-');
    JoinLength(p, '-');
    Lengths3(p);
    ParsedIsPrinted(read, Join(p, '-'));
  }

  const PREFIXED: seq<string> := ["0x1", "2", "03"]

  lemma {:induction false} PrefixNotPrintedBackBy(read: Reader)
    requires ReadsHex(read) && GoodPiece(read, "0x1", 3) && !AllHex("0x1")
    ensures var from := Join(PREFIXED, '-');
            AcceptedBy(read, from) && ToString(ParsedBy(read, from)) != Lower(from)
  {
    HexPiece(read, "2", 1);
    HexPiece(read, "03", 2);
    OtherPiecesNotPrintedBack(read, PREFIXED, 0);
  }

  /** A prefix is accepted and not printed back: "0x1-2-03". */
  lemma {:induction false} PrefixNotPrintedBack()
    ensures var from := Join(PREFIXED, '-');
            AcceptedBy(Scan, from) && ToString(ParsedBy(Scan, from)) != Lower(from)
  {
    ScanReadsHex();
    PrefixedPiece();
    PrefixNotPrintedBackBy(Scan);
  }
}
