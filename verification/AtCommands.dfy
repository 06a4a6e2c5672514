/** One AT command line: finding its command in the table and its argument's form. */
module AtCommands {
  import opened Options
  import opened Text

  /** The argument forms of bta_ag_at.h; an allowed-forms bit mask is a set of them. */
  datatype ArgType = NoArgument | SetValue | ReadValue | TestRange | FreeForm

  /** `min` is a uint8_t and `max` an int16_t. */
  datatype Entry = Entry(name: string, id: int, allowed: set<ArgType>, isInt: bool, min: int, max: int)

  /** A table ends at its empty name, so its names are C strings that are not empty. */
  type Table = t: seq<Entry> | forall i | 0 <= i < |t| :: t[i].name != "" && '\0' !in t[i].name witness []

  datatype Event =
    | Command(id: int, argType: ArgType, arg: string, intArg: int)
    | Error(unknown: bool, text: Option<string>)

  function CharAt(s: string, i: nat): char
  {
    if i < |s| then s[i] else '\0'
  }

  function UpperChar(c: char): char
  {
    if 'a' <= c <= 'z' then (c as int - 0x20) as char else c
  }

  // ----- utl_strucmp

  /** The command name, character by character, starts the line up to letter case. */
  ghost predicate Matches(name: string, line: string)
  {
    |name| <= |CString(line)| && forall i | 0 <= i < |name| :: name[i] == UpperChar(line[i])
  }

  lemma {:induction false} CStringIndex(s: string, i: nat)
    requires i <= |CString(s)|
    ensures CharAt(s, i) == '\0' <==> i == |CString(s)|
  {
    if i < |CString(s)| { assert CString(s)[i] in CString(s); }
  }

  method StrUcmp(name: string, line: string) returns (r: int)
    requires '\0' !in name
    ensures r == 0 <==> Matches(name, line)
  {
    var i := 0;
    CStringIndex(line, 0);
    while i < |name| && CharAt(line, i) != '\0'
      invariant i <= |name| && i <= |CString(line)|
      invariant forall k | 0 <= k < i :: name[k] == UpperChar(line[k])
    {
      CStringIndex(line, i);
      if name[i] != UpperChar(CharAt(line, i)) { return -1; }
      i := i + 1;
    }
    CStringIndex(line, i);
    if CharAt(line, i) == '\0' && i < |name| { return 1; }
    return 0;
  }

  // ----- utl_str2int

  predicate IsDigit(c: char)
  {
    '0' <= c <= '9'
  }

  predicate AllDigits(s: string)
  {
    forall i | 0 <= i < |s| :: IsDigit(s[i])
  }

  function Decimal(s: string): nat
    requires AllDigits(s)
  {
    if s == "" then 0 else 10 * Decimal(s[..|s| - 1]) + (s[|s| - 1] as int - '0' as int)
  }

  function SkipBlanks(s: string): string
  {
    if s != "" && s[0] == ' ' then SkipBlanks(s[1..]) else s
  }

  const INT16_MAX: int := 32767

  /** The decimal number a C string spells after blanks, or -1. */
  function StringToInt(s: string): int
  {
    var t := SkipBlanks(s);
    if t != "" && AllDigits(t) && Decimal(t) <= INT16_MAX then Decimal(t) else -1
  }

  lemma {:induction false} DecimalGrows(t: string, k: nat)
    requires AllDigits(t) && k <= |t|
    ensures Decimal(t[..k]) <= Decimal(t)
  {
    if k < |t| {
      DecimalGrows(t[..|t| - 1], k);
      assert t[..|t| - 1][..k] == t[..k];
    } else {
      assert t[..k] == t;
    }
  }

  method Str2Int(s: string) returns (r: int)
    ensures r == StringToInt(s)
  {
    var i := 0;
    while i < |s| && s[i] == ' '
      invariant i <= |s| && SkipBlanks(s[i..]) == SkipBlanks(s)
    {
      assert s[i..][1..] == s[i + 1..];
      i := i + 1;
    }
    ghost var t := s[i..];
    if i == |s| { return -1; }
    ghost var start := i;
    var val := 0;
    while true
      invariant start <= i < |s| && AllDigits(t[..i - start]) && val == 10 * Decimal(t[..i - start])
      decreases |s| - i
    {
      if s[i] < '0' || s[i] > '9' {
        assert !IsDigit(t[i - start]);
        return -1;
      }
      val := val + (s[i] as int - '0' as int);
      assert t[..i - start + 1][..i - start] == t[..i - start];
      i := i + 1;
      if val > INT16_MAX {
        if AllDigits(t) { DecimalGrows(t, i - start); }
        return -1;
      }
      if i == |s| {
        assert t[..i - start] == t;
        return val;
      }
      val := val * 10;
    }
  }

  // ----- bta_ag_process_at

  /** The form of an argument, from its text as a C string. */
  function Classify(arg: string): (form: ArgType)
    ensures form == SetValue ==> |arg| >= 2 && arg[0] == '='
  {
    var a := CString(arg);
    if a == "" then NoArgument
    else if a == "?" then ReadValue
    else if a == "=?" then TestRange
    else if |a| >= 2 && a[0] == '=' then SetValue
    else FreeForm
  }

  /** What a matching table entry makes of the argument. */
  function Apply(entry: Entry, arg: string): Event
  {
    var form := Classify(arg);
    if form !in entry.allowed then Error(false, None)
    else if form != SetValue then Command(entry.id, form, arg, 0)
    else if !entry.isInt then Command(entry.id, form, arg[1..], 0)
    else
      var n := StringToInt(CString(arg[1..]));
      if n < entry.min || n > entry.max then Error(false, None) else Command(entry.id, form, arg[1..], n)
  }

  /** The first entry at or after i that matches, or the end of the table. */
  ghost function FirstMatch(table: Table, line: string, i: nat): (r: nat)
    requires i <= |table|
    ensures i <= r <= |table|
    ensures forall k | i <= k < r :: !Matches(table[k].name, line)
    ensures r < |table| ==> Matches(table[r].name, line)
    decreases |table| - i
  {
    if i == |table| || Matches(table[i].name, line) then i else FirstMatch(table, line, i + 1)
  }

  /** The one event for a line (given without its "AT"). */
  ghost function Interpret(table: Table, line: string): Event
  {
    var i := FirstMatch(table, line, 0);
    if i == |table| then Error(true, Some(CString(line)))
    else Apply(table[i], line[|table[i].name|..])
  }

  /** The tests of the source on p_arg[0], p_arg[1] and p_arg[2]. */
  method ClassifyByChar(arg: string) returns (form: ArgType)
    ensures form == Classify(arg)
  {
    ghost var a := CString(arg);
    CStringIndex(arg, 0);
    if |a| >= 1 { CStringIndex(arg, 1); }
    if |a| >= 2 { CStringIndex(arg, 2); }
    if CharAt(arg, 0) == '\0' {
      form := NoArgument;
    } else if CharAt(arg, 0) == '?' && CharAt(arg, 1) == '\0' {
      assert a == "?";
      form := ReadValue;
    } else if CharAt(arg, 0) == '=' && CharAt(arg, 1) != '\0' {
      if CharAt(arg, 1) == '?' && CharAt(arg, 2) == '\0' {
        assert a == "=?";
        form := TestRange;
      } else {
        form := SetValue;
      }
    } else {
      form := FreeForm;
    }
  }

  /** A match never reaches past the end of the line: the source's check for that never fails. */
  lemma {:induction false} MatchIsInLine(name: string, line: string)
    requires Matches(name, line)
    ensures |name| <= |line|
  {
    assert CString(line) <= line;
  }

  method ProcessAt(table: Table, line: string) returns (e: Event)
    ensures e == Interpret(table, line)
  {
    var idx := 0;
    while idx < |table|
      invariant idx <= |table| && FirstMatch(table, line, 0) == FirstMatch(table, line, idx)
    {
      var differs := StrUcmp(table[idx].name, line);
      if differs == 0 { break; }
      idx := idx + 1;
    }
    if idx == |table| { return Error(true, Some(CString(line))); }
    var entry := table[idx];
    MatchIsInLine(entry.name, line);
    var arg := line[|entry.name|..];
    var form := ClassifyByChar(arg);
    if form == SetValue { arg := arg[1..]; }
    if form in entry.allowed {
      if form == SetValue && entry.isInt {
        var intArg := Str2Int(CString(arg));
        if intArg < entry.min || intArg > entry.max { return Error(false, None); }
        return Command(entry.id, form, arg, intArg);
      }
      return Command(entry.id, form, arg, 0);
    }
    return Error(false, None);
  }

  // ----- The event of a line, from its text

  /** The same character, or the small letter of a capital one; small letters of a name match nothing. */
  predicate Spells(name: char, c: char)
  {
    if 'a' <= c <= 'z' then c as int == name as int + 32 else c == name
  }

  /** The line starts with the name, before any NUL. */
  ghost predicate Begins(name: string, line: string)
  {
    |name| <= |line| && forall i | 0 <= i < |name| :: line[i] != '\0' && Spells(name[i], line[i])
  }

  lemma {:induction false} BeginsMatches(name: string, line: string)
    ensures Begins(name, line) <==> Matches(name, line)
  {
    if Begins(name, line) {
      CStringIndex(line, |CString(line)|);
    } else if Matches(name, line) {
      forall i | 0 <= i < |name| ensures line[i] != '\0' && Spells(name[i], line[i]) { CStringIndex(line, i); }
    }
  }

  /** Entry i is the first of the table that the line starts with. */
  ghost predicate FirstMatching(table: Table, line: string, i: nat)
  {
    i < |table| && Begins(table[i].name, line) && forall k | 0 <= k < i :: !Begins(table[k].name, line)
  }

  lemma {:induction false} FirstMatchingIsFirst(table: Table, line: string, i: nat)
    requires FirstMatching(table, line, i)
    ensures Matches(table[i].name, line) && FirstMatch(table, line, 0) == i
  {
    forall k | 0 <= k <= i ensures Begins(table[k].name, line) <==> Matches(table[k].name, line) {
      BeginsMatches(table[k].name, line);
    }
  }

  /** What the entry gets: the command with this form, text and number if it allows the form. */
  function IfAllowed(entry: Entry, form: ArgType, arg: string, n: int): Event
  {
    if form in entry.allowed then Command(entry.id, form, arg, n) else Error(false, None)
  }

  lemma {:induction false} RestAfterEquals(rest: string)
    requires |CString(rest)| >= 1
    ensures CString(rest[1..]) == CString(rest)[1..]
  {
  }

  /** A line that starts with a command: nothing more is the plain form, "?" reads, "=?" tests,
      "=" with other text sets, and anything else is free form. */
  lemma {:induction false} InterpretsLine(table: Table, line: string, i: nat)
    requires FirstMatching(table, line, i)
    ensures var entry := table[i]; var rest := line[|entry.name|..]; var a := CString(rest);
            var e := Interpret(table, line);
            && (a == "" ==> e == IfAllowed(entry, NoArgument, rest, 0))
            && (a == "?" ==> e == IfAllowed(entry, ReadValue, rest, 0))
            && (a == "=?" ==> e == IfAllowed(entry, TestRange, rest, 0))
            && (|a| >= 2 && a[0] == '=' && a != "=?" && !entry.isInt ==> e == IfAllowed(entry, SetValue, rest[1..], 0))
            && (a != "" && a != "?" && !(|a| >= 2 && a[0] == '=') ==> e == IfAllowed(entry, FreeForm, rest, 0))
  {
    FirstMatchingIsFirst(table, line, i);
    MatchIsInLine(table[i].name, line);
  }

  /** A line that starts with no command of the table is reported with its text. */
  lemma {:induction false} ReportsUnknownLine(table: Table, line: string)
    requires forall k | 0 <= k < |table| :: !Begins(table[k].name, line)
    ensures Interpret(table, line) == Error(true, Some(CString(line)))
  {
    forall k | 0 <= k < |table| ensures !Matches(table[k].name, line) { BeginsMatches(table[k].name, line); }
  }

  /** Setting an integer command calls it exactly when the text is a decimal number that fits 16
      bits and the range of the table, or is no such number and the range holds -1. */
  lemma {:induction false} InterpretsNumber(table: Table, line: string, i: nat)
    requires FirstMatching(table, line, i) && table[i].isInt
    requires var a := CString(line[|table[i].name|..]); |a| >= 2 && a[0] == '=' && a != "=?"
    ensures var entry := table[i]; var rest := line[|entry.name|..];
            var text := SkipBlanks(CString(rest)[1..]);
            var number := text != "" && AllDigits(text) && Decimal(text) <= 32767;
            var n := if number then Decimal(text) else -1;
            Interpret(table, line) ==
            if entry.min <= n <= entry.max then IfAllowed(entry, SetValue, rest[1..], n) else Error(false, None)
  {
    FirstMatchingIsFirst(table, line, i);
    RestAfterEquals(line[|table[i].name|..]);
  }

  /** The digits of a number. */
  function Numeral(n: nat): (s: string)
    ensures s != "" && AllDigits(s)
  {
    if n < 10 then [(n + '0' as int) as char] else Numeral(n / 10) + [(n % 10 + '0' as int) as char]
  }

  lemma {:induction false} NumeralValue(n: nat)
    ensures Decimal(Numeral(n)) == n
  {
    if n >= 10 {
      NumeralValue(n / 10);
      var s := Numeral(n);
      assert s[..|s| - 1] == Numeral(n / 10);
    } else {
      assert Numeral(n)[..0] == "";
    }
  }

  /** A number printed in decimal, after any blanks, is read back if and only if it fits 16 bits. */
  lemma {:induction false} NumeralReadBack(n: nat, blanks: string)
    requires forall i | 0 <= i < |blanks| :: blanks[i] == ' '
    ensures StringToInt(blanks + Numeral(n)) == if n <= 32767 then n else -1
    decreases |blanks|
  {
    if blanks == "" {
      NumeralValue(n);
      assert blanks + Numeral(n) == Numeral(n) && IsDigit(Numeral(n)[0]);
    } else {
      NumeralReadBack(n, blanks[1..]);
      assert (blanks + Numeral(n))[1..] == blanks[1..] + Numeral(n);
    }
  }
}
