/** Device addresses, their printed forms and their parser. */
module Addresses {
  import opened Options
  import opened Text

  type Byte = x: int | 0 <= x < 256

  /** A RawAddress: six bytes. */
  type Address = a: seq<Byte> | |a| == 6 witness [0, 0, 0, 0, 0, 0]

  function Hex2(b: Byte): (s: string)
    ensures |s| == 2 && AllHex(s)
  {
    [LowerDigit(b / 16), LowerDigit(b % 16)]
  }

  function UpperHex2(b: Byte): (s: string)
    ensures |s| == 2 && AllHex(s)
  {
    [UpperDigit(b / 16), UpperDigit(b % 16)]
  }

  function LowerPairs(a: Address): (p: seq<string>)
    ensures |p| == 6
  {
    seq(6, i requires 0 <= i < 6 => Hex2(a[i]))
  }

  function UpperPairs(a: Address): (p: seq<string>)
    ensures |p| == 6
  {
    seq(6, i requires 0 <= i < 6 => UpperHex2(a[i]))
  }

  /** RawAddress::ToString: "%02x:%02x:%02x:%02x:%02x:%02x". */
  function ToString(a: Address): string
  {
    Join(LowerPairs(a), ':')
  }

  /** "%02X:%02X:%02X:%02X:%02X:%02X". */
  function BtAddrString(a: Address): string
  {
    Join(UpperPairs(a), ':')
  }

  function Trim(s: string): (t: string)
    ensures |t| <= |s| && (|t| == |s| ==> t == s)
    ensures (forall i | 0 <= i < |s| :: !IsSpace(s[i])) ==> t == s
  {
    if s != "" && IsSpace(s[0]) then Trim(s[1..])
    else if s != "" && IsSpace(s[|s| - 1]) then Trim(s[..|s| - 1])
    else s
  }

  /** A piece of an address as FromString sees it. */
  predicate GoodPair(piece: string)
  {
    |Trim(piece)| == 2 && Accepts(Trim(piece))
  }

  /** Conversion to uint8_t. */
  function LowByte(n: int): (b: Byte)
    ensures 0 <= n < 256 ==> b == n
  {
    n % 256
  }

  function PairByte(piece: string): Byte
  {
    LowByte(Number(Trim(piece)))
  }

  predicate Accepted(from: string)
  {
    && |from| == 17
    && |Split(from, ':')| == 6
    && forall i | 0 <= i < 6 :: GoodPair(Split(from, ':')[i])
  }

  function Bytes(pieces: seq<string>): (bytes: seq<Byte>)
    ensures |bytes| == |pieces|
  {
    seq(|pieces|, i requires 0 <= i < |pieces| => PairByte(pieces[i]))
  }

  /** The address FromString stores for a string it accepts. */
  function Parsed(from: string): Address
    requires Accepted(from)
  {
    Bytes(Split(from, ':'))
  }

  /** One turn of the loop of FromString. */
  function ReadPair(piece: string): Option<Byte>
  {
    var token := Trim(piece);
    if |token| != 2 || !Accepts(token) then None else Some(LowByte(Number(token)))
  }

  function AllRead(tokens: seq<string>, read: string -> Option<Byte>): (bytes: Option<seq<Byte>>)
    ensures bytes.Some? <==> forall i | 0 <= i < |tokens| :: read(tokens[i]).Some?
    ensures bytes.Some? ==>
              |bytes.value| == |tokens| && forall i | 0 <= i < |tokens| :: read(tokens[i]) == Some(bytes.value[i])
  {
    if tokens == [] then Some([]) else
      var n := |tokens| - 1;
      var front, last := AllRead(tokens[..n], read), read(tokens[n]);
      if front.Some? && last.Some? then Some(front.value + [last.value]) else None
  }

  /** The loop of FromString. */
  method ReadPairs(tokens: seq<string>, read: string -> Option<Byte>) returns (bytes: Option<seq<Byte>>)
    ensures bytes == AllRead(tokens, read)
  {
    var address: seq<Byte> := [];
    for i := 0 to |tokens|
      invariant AllRead(tokens[..i], read) == Some(address)
    {
      assert tokens[..i + 1][..i] == tokens[..i];
      var value := read(tokens[i]);
      if value.None? { return None; }
      address := address + [value.value];
    }
    assert tokens[..|tokens|] == tokens;
    return Some(address);
  }

  lemma {:induction false} PairsRead(tokens: seq<string>)
    ensures AllRead(tokens, ReadPair) ==
            if forall i | 0 <= i < |tokens| :: GoodPair(tokens[i]) then Some(Bytes(tokens)) else None
  {
    forall i | 0 <= i < |tokens|
      ensures ReadPair(tokens[i]) == if GoodPair(tokens[i]) then Some(PairByte(tokens[i])) else None
    {
    }
    var bytes := AllRead(tokens, ReadPair);
    if bytes.Some? { assert bytes.value == Bytes(tokens); }
  }

  method FromString(from: string) returns (to: Option<Address>)
    ensures to == if Accepted(from) then Some(Parsed(from)) else None
  {
    if |from| != 17 { return None; }
    var tokens := Split(from, ':');
    if |tokens| != 6 { return None; }
    PairsRead(tokens);
    var bytes := ReadPairs(tokens, ReadPair);
    if bytes.None? { return None; }
    return Some(bytes.value);
  }

  // ----- Pairs of hexadecimal digits

  lemma {:induction false} HexPairValue(s: string)
    requires |s| == 2 && AllHex(s)
    ensures HexValue(s) == 16 * Nibble(s[0]) + Nibble(s[1])
  {
    assert s[..1][..0] == "";
    assert HexValue(s[..1]) == Nibble(s[0]);
  }

  lemma {:induction false} HexPairPrinted(s: string, b: Byte)
    requires |s| == 2 && AllHex(s) && b == HexValue(s)
    ensures Hex2(b) == Lower(s)
  {
    HexPairValue(s);
    assert b / 16 == Nibble(s[0]) && b % 16 == Nibble(s[1]);
    LowerDigitOfNibble(s[0]);
    LowerDigitOfNibble(s[1]);
    assert Lower(s) == [LowerChar(s[0]), LowerChar(s[1])];
  }

  lemma {:induction false} HexPairRead(s: string)
    requires |s| == 2 && AllHex(s)
    ensures GoodPair(s) && Free(s, ':')
    ensures Number(Trim(s)) == HexValue(s)
  {
    HexToken(s);
  }

  lemma {:induction false} HexPairByte(s: string) returns (b: Byte)
    requires |s| == 2 && AllHex(s)
    ensures b == HexValue(s)
  {
    HexPairValue(s);
    b := HexValue(s);
  }

  lemma {:induction false} HexPair(s: string)
    requires |s| == 2 && AllHex(s)
    ensures GoodPair(s) && PairByte(s) == HexValue(s)
    ensures Hex2(PairByte(s)) == Lower(s)
    ensures Free(s, ':')
  {
    var b := HexPairByte(s);
    HexPairRead(s);
    HexPairPrinted(s, b);
  }

  /** A pair is printed back in lower case exactly when it is two hexadecimal digits. */
  lemma {:induction false} PairPrintsBack(s: string)
    requires |s| == 2 && GoodPair(s)
    ensures Hex2(PairByte(s)) == Lower(s) <==> AllHex(s)
  {
    if AllHex(s) {
      HexPair(s);
    } else {
      var i :| 0 <= i < 2 && !IsHex(s[i]);
      assert !IsHex(Lower(s)[i]);
    }
  }

  /** Six pairs of hexadecimal digits are accepted and read pair by pair. */
  lemma {:induction false} HexPairsAccepted(p: seq<string>)
    requires |p| == 6 && forall i | 0 <= i < 6 :: |p[i]| == 2 && AllHex(p[i])
    ensures Split(Join(p, ':'), ':') == p && Accepted(Join(p, ':'))
  {
    forall i | 0 <= i < 6 ensures Free(p[i], ':') && GoodPair(p[i]) { HexPair(p[i]); }
    SplitJoin(p, ':');
    JoinLength(p, ':');
    TightLengths(p, 2);
    SameLengths(p, 2);
  }

  lemma {:induction false} SameLengths(pieces: seq<string>, k: nat)
    requires forall i | 0 <= i < |pieces| :: |pieces[i]| == k
    ensures Lengths(pieces) == k * |pieces|
  {
    if pieces != [] {
      SameLengths(pieces[1..], k);
      assert k * |pieces| == k * |pieces[1..]| + k;
    }
  }

  /** An accepted string is six pieces of two characters: nothing was trimmed. */
  lemma {:induction false} AcceptedPieces(from: string)
    requires Accepted(from)
    ensures var p := Split(from, ':');
            from == Join(p, ':') && forall i | 0 <= i < 6 :: |p[i]| == 2 && Free(p[i], ':')
  {
    var p := Split(from, ':');
    JoinSplit(from, ':');
    JoinLength(p, ':');
    forall i | 0 <= i < 6 ensures |p[i]| >= 2 { assert GoodPair(p[i]); }
    TightLengths(p, 2);
  }

  // ----- The theorems

  lemma {:induction false} PairsParsed(p: seq<string>, a: Address)
    requires |p| == 6 && forall i | 0 <= i < 6 :: |p[i]| == 2 && AllHex(p[i]) && HexValue(p[i]) == a[i]
    ensures Accepted(Join(p, ':')) && Parsed(Join(p, ':')) == a
  {
    HexPairsAccepted(p);
    forall i | 0 <= i < 6 ensures PairByte(p[i]) == a[i] { HexPair(p[i]); }
  }

  lemma {:induction false} PrintedIsParsed(a: Address)
    ensures Accepted(ToString(a)) && Parsed(ToString(a)) == a
    ensures Accepted(BtAddrString(a)) && Parsed(BtAddrString(a)) == a
  {
    forall i | 0 <= i < 6 ensures HexValue(LowerPairs(a)[i]) == a[i] && HexValue(UpperPairs(a)[i]) == a[i] {
      HexPairValue(Hex2(a[i]));
      HexPairValue(UpperHex2(a[i]));
    }
    PairsParsed(LowerPairs(a), a);
    PairsParsed(UpperPairs(a), a);
  }

  /** Two devices never share a printed address. */
  lemma {:induction false} BtAddrStringInjective(a: Address, b: Address)
    requires BtAddrString(a) == BtAddrString(b)
    ensures a == b
  {
    PrintedIsParsed(a);
    PrintedIsParsed(b);
  }

  /** Printing what was parsed gives the lower-case input exactly when its pieces are all
      hexadecimal digits: a sign or a NUL is accepted too, but not printed back. */
  lemma {:induction false} ParsedIsPrinted(from: string)
    requires Accepted(from)
    ensures ToString(Parsed(from)) == Lower(from) <==> forall i | 0 <= i < 6 :: AllHex(Split(from, ':')[i])
  {
    AcceptedPieces(from);
    var p := Split(from, ':');
    var q := LowerPairs(Parsed(from));
    forall i | 0 <= i < 6 ensures AllHex(q[i]) && (q[i] == Lower(p[i]) <==> AllHex(p[i])) {
      assert GoodPair(p[i]);
      PairPrintsBack(p[i]);
    }
    JoinedBack(p, q);
  }

  /** Two joined strings agree exactly when their pieces do. */
  lemma {:induction false} JoinedBack(p: seq<string>, q: seq<string>)
    requires |p| == |q| == 6 && forall i | 0 <= i < 6 :: Free(p[i], ':') && AllHex(q[i])
    requires forall i | 0 <= i < 6 :: q[i] == Lower(p[i]) <==> AllHex(p[i])
    ensures Join(q, ':') == Lower(Join(p, ':')) <==> forall i | 0 <= i < 6 :: AllHex(p[i])
  {
    LowerJoin(p, ':');
    forall i | 0 <= i < 6 ensures Free(q[i], ':') && Free(LowerAll(p)[i], ':') {
      assert AllHex(q[i]);
      LowerFree(p[i], ':');
    }
    SplitJoin(q, ':');
    SplitJoin(LowerAll(p), ':');
    if forall i | 0 <= i < 6 :: AllHex(p[i]) { assert q == LowerAll(p); }
  }

  lemma {:induction false} SignedPair()
    ensures GoodPair("+1") && !AllHex("+1")
  {
    var s := "+1";
    assert !IsHex(s[0]);
    assert s[1..] == "1" && CString("1"[1..]) == "" && CString(s[1..]) == "1" && CString(s) == s;
    assert Spaces(s) == 0 && HexRun("1"[1..]) == 0 && HexRun(s[1..]) == 1;
  }

  /** Good pairs that are not all digits are accepted and not printed back. */
  lemma {:induction false} OtherPairsNotPrintedBack(p: seq<string>, k: nat)
    requires |p| == 6 && forall i | 0 <= i < 6 :: |p[i]| == 2 && Free(p[i], ':') && GoodPair(p[i])
    requires k < 6 && !AllHex(p[k])
    ensures Accepted(Join(p, ':')) && ToString(Parsed(Join(p, ':'))) != Lower(Join(p, ':'))
  {
    SplitJoin(p, ':');
    JoinLength(p, ':');
    SameLengths(p, 2);
    ParsedIsPrinted(Join(p, ':'));
  }

  /** A sign is accepted and not printed back: "+1:00:00:00:00:00" and its like. */
  lemma {:induction false} SignNotPrintedBack(rest: seq<string>)
    requires |rest| == 5 && forall i | 0 <= i < 5 :: |rest[i]| == 2 && AllHex(rest[i])
    ensures var from := Join(["+1"] + rest, ':'); Accepted(from) && ToString(Parsed(from)) != Lower(from)
  {
    var p := ["+1"] + rest;
    SignedPair();
    forall i | 0 <= i < 6 ensures |p[i]| == 2 && Free(p[i], ':') && GoodPair(p[i]) {
      if i > 0 { HexPair(rest[i - 1]); }
    }
    OtherPairsNotPrintedBack(p, 0);
  }
}
