/** "key=value;" parameter strings of the audio HAL: the parser and the printing loop. */
module AudioParams {
  import opened Text

  type Params = map<string, string>

  // ----- ParseAudioParams

  function Insert(m: Params, segment: string): Params
  {
    var kv := Split(segment, '=');
    if segment == "" || kv[0] == "" then m
    else m[kv[0] := if |kv| > 1 then kv[1] else ""]
  }

  function InsertAll(m: Params, segments: seq<string>): Params
    decreases |segments|
  {
    if segments == [] then m else InsertAll(Insert(m, segments[0]), segments[1..])
  }

  function Parsed(s: string): Params
  {
    InsertAll(map[], Split(s, ';'))
  }

  method ParseAudioParams(params: string) returns (paramsMap: Params)
    ensures paramsMap == Parsed(params)
  {
    var segments := Split(params, ';');
    paramsMap := map[];
    for i := 0 to |segments|
      invariant InsertAll(paramsMap, segments[i..]) == Parsed(params)
    {
      var segment := segments[i];
      assert segments[i..][1..] == segments[i + 1..];
      if |segment| == 0 { continue; }
      var kv := Split(segment, '=');
      if |kv[0]| == 0 { continue; }
      paramsMap := paramsMap[kv[0] := if |kv| > 1 then kv[1] else ""];
    }
  }

  // ----- The printing loop of out_get_parameters

  /** The string printed for m when its keys are visited in the given order. */
  function Printed(m: Params, order: seq<string>): string
    requires forall k | k in order :: k in m
  {
    if order == [] then "" else Entry(order[0], m[order[0]]) + Printed(m, order[1..])
  }

  function Entry(key: string, value: string): string
  {
    key + "=" + value + ";"
  }

  ghost predicate Enumerates(order: seq<string>, keys: set<string>)
  {
    && (forall k :: k in order <==> k in keys)
    && (forall i, j | 0 <= i < j < |order| :: order[i] != order[j])
  }

  lemma {:induction false} PrintedAppend(m: Params, order: seq<string>, k: string)
    requires k in m && forall x | x in order :: x in m
    ensures Printed(m, order + [k]) == Printed(m, order) + Entry(k, m[k])
  {
    if order != [] {
      PrintedAppend(m, order[1..], k);
      assert (order + [k])[1..] == order[1..] + [k];
    } else {
      assert (order + [k])[1..] == [];
    }
  }

  /** A map is visited in an order the caller does not control. */
  method Print(m: Params) returns (result: string)
    ensures exists order :: Enumerates(order, m.Keys) && result == Printed(m, order)
  {
    result := "";
    ghost var order: seq<string> := [];
    var remaining := m.Keys;
    while remaining != {}
      invariant remaining <= m.Keys && Enumerates(order, m.Keys - remaining)
      invariant result == Printed(m, order)
      decreases remaining
    {
      var k :| k in remaining;
      PrintedAppend(m, order, k);
      result := result + (k + "=" + m[k] + ";");
      order, remaining := order + [k], remaining - {k};
    }
  }

  // ----- They undo each other

  predicate CleanText(s: string)
  {
    ';' !in s && '=' !in s
  }

  ghost predicate Clean(m: Params)
  {
    forall k | k in m :: k != "" && CleanText(k) && CleanText(m[k])
  }

  /** Inserting a printed entry inserts exactly that entry. */
  lemma {:induction false} InsertPrinted(acc: Params, k: string, v: string)
    requires k != "" && CleanText(k) && CleanText(v)
    ensures Insert(acc, k + "=" + v) == acc[k := v]
  {
    SplitFirst(k, '=', v);
    SplitLast(v, '=');
    assert Split(k + "=" + v, '=') == [k, v];
  }

  /** The first printed entry is the first segment. */
  lemma {:induction false} SplitPrinted(m: Params, order: seq<string>)
    requires order != [] && forall k | k in order :: k in m
    requires CleanText(order[0]) && CleanText(m[order[0]])
    ensures Split(Printed(m, order), ';') ==
            [order[0] + "=" + m[order[0]]] + Split(Printed(m, order[1..]), ';')
  {
    var entry := order[0] + "=" + m[order[0]];
    assert Free(entry, ';');
    SplitFirst(entry, ';', Printed(m, order[1..]));
  }

  lemma {:induction false} InsertAllCons(acc: Params, segment: string, segments: seq<string>)
    ensures InsertAll(acc, [segment] + segments) == InsertAll(Insert(acc, segment), segments)
  {
    assert ([segment] + segments)[1..] == segments;
  }

  /** The entries of m under the given keys. */
  function Select(m: Params, order: seq<string>): Params
    requires forall k | k in order :: k in m
  {
    map k | k in order :: m[k]
  }

  lemma {:induction false} SelectFirst(acc: Params, m: Params, order: seq<string>)
    requires order != [] && forall k | k in order :: k in m
    ensures acc[order[0] := m[order[0]]] + Select(m, order[1..]) == acc + Select(m, order)
  {
    assert order == [order[0]] + order[1..];
  }

  lemma {:induction false} InsertAllPrinted(acc: Params, m: Params, order: seq<string>)
    requires Clean(m) && forall k | k in order :: k in m
    ensures InsertAll(acc, Split(Printed(m, order), ';')) == acc + Select(m, order)
    decreases |order|
  {
    if order == [] {
      InsertAllCons(acc, "", []);
      assert acc + Select(m, order) == acc;
    } else {
      var k := order[0];
      assert k in order;
      SplitPrinted(m, order);
      InsertAllCons(acc, k + "=" + m[k], Split(Printed(m, order[1..]), ';'));
      InsertPrinted(acc, k, m[k]);
      InsertAllPrinted(acc[k := m[k]], m, order[1..]);
      SelectFirst(acc, m, order);
    }
  }

  lemma {:induction false} CharsOfPieces(s: string, sep: char, i: nat, c: char)
    requires i < |Split(s, sep)| && c in Split(s, sep)[i]
    ensures c in s && c != sep
  {
    JoinSplit(s, sep);
    assert Free(Split(s, sep)[i], sep);
    CharsOfJoin(Split(s, sep), sep, i, c);
  }

  lemma {:induction false} CharsOfJoin(pieces: seq<string>, sep: char, i: nat, c: char)
    requires i < |pieces| && c in pieces[i]
    ensures c in Join(pieces, sep)
  {
    if |pieces| > 1 && i > 0 { CharsOfJoin(pieces[1..], sep, i - 1, c); }
  }

  /** Whatever the input, the parser returns a clean map. */
  lemma {:induction false} InsertAllClean(m: Params, segments: seq<string>)
    requires Clean(m) && forall i | 0 <= i < |segments| :: Free(segments[i], ';')
    ensures Clean(InsertAll(m, segments))
    decreases |segments|
  {
    if segments != [] {
      var segment := segments[0];
      var kv := Split(segment, '=');
      forall i, c | 0 <= i < |kv| && c in kv[i] ensures c != '=' && c != ';' { CharsOfPieces(segment, '=', i, c); }
      assert CleanText(kv[0]) && (|kv| > 1 ==> CleanText(kv[1]));
      forall i | 0 <= i < |segments[1..]| ensures Free(segments[1..][i], ';') {
        assert segments[1..][i] == segments[i + 1];
      }
      InsertAllClean(Insert(m, segment), segments[1..]);
    }
  }

  /** In whatever order a map is printed, parsing gives it back exactly when its keys are
      non-empty and neither keys nor values contain a separator. */
  lemma {:induction false} ParsePrinted(m: Params, order: seq<string>)
    requires Enumerates(order, m.Keys)
    ensures Parsed(Printed(m, order)) == m <==> Clean(m)
  {
    if Clean(m) {
      InsertAllPrinted(map[], m, order);
      assert map[] + Select(m, order) == m;
    }
    JoinSplit(Printed(m, order), ';');
    InsertAllClean(map[], Split(Printed(m, order), ';'));
  }

  const SEPARATED: Params := map["a" := "b;c"]

  /** A value with a separator is not parsed back. */
  lemma {:induction false} SeparatorNotParsedBack()
    ensures Parsed(Printed(SEPARATED, ["a"])) != SEPARATED
  {
    var value := SEPARATED["a"];
    assert value[1] == ';';
    ParsePrinted(SEPARATED, ["a"]);
  }

  // ----- What a parsed map holds

  /** The segment is "key" or "key=value", perhaps followed by another '=' and more text. */
  predicate Sets(segment: string, key: string, value: string)
  {
    && key != "" && '=' !in key && '=' !in value
    && ((segment == key && value == "")
        || (key + "=" + value <= segment
            && (|segment| == |key| + 1 + |value| || segment[|key| + 1 + |value|] == '=')))
  }

  lemma {:induction false} FirstPiece(piece: string, rest: string)
    requires Free(piece, '=') && piece <= rest && (|rest| == |piece| || rest[|piece|] == '=')
    ensures Split(rest, '=')[0] == piece && (|rest| == |piece| ==> |Split(rest, '=')| == 1)
  {
    if |rest| == |piece| {
      assert rest == piece;
      SplitLast(piece, '=');
    } else {
      assert rest == piece + ['='] + rest[|piece| + 1..];
      SplitFirst(piece, '=', rest[|piece| + 1..]);
    }
  }

  /** A segment that sets a key is inserted under that key, replacing what was there. */
  lemma {:induction false} InsertSets(m: Params, segment: string, key: string, value: string)
    requires Sets(segment, key, value)
    ensures Insert(m, segment) == m[key := value]
  {
    FirstPiece(key, segment);
    if |segment| > |key| {
      var rest := segment[|key| + 1..];
      assert segment == key + ['='] + rest;
      SplitFirst(key, '=', rest);
      assert value <= rest;
      FirstPiece(value, rest);
    }
  }

  /** An empty segment, and one without a key, is skipped. */
  lemma {:induction false} InsertSkips(m: Params, segment: string)
    requires segment == "" || segment[0] == '='
    ensures Insert(m, segment) == m
  {
    if segment != "" { FirstPiece("", segment); }
  }

  /** Every other segment sets a key. */
  lemma {:induction false} SomeKey(segment: string) returns (key: string, value: string)
    requires segment != "" && segment[0] != '='
    ensures Sets(segment, key, value)
  {
    key := Upto(segment);
    var rest := segment[|key|..];
    value := if rest == "" then "" else Upto(rest[1..]);
  }

  /** The text before the first '='. */
  function Upto(s: string): (r: string)
    ensures r <= s && '=' !in r && (|r| == |s| || s[|r|] == '=')
  {
    if s == "" || s[0] == '=' then "" else [s[0]] + Upto(s[1..])
  }

  /** Segment i sets the key, and no later segment does. */
  ghost predicate LastSets(segments: seq<string>, i: int, key: string, value: string)
  {
    && 0 <= i < |segments| && Sets(segments[i], key, value)
    && forall j, v | i < j < |segments| :: !Sets(segments[j], key, v)
  }

  ghost predicate NeverSets(segments: seq<string>, key: string)
  {
    forall j, v | 0 <= j < |segments| :: !Sets(segments[j], key, v)
  }

  /** Inserting a segment does to a key what the segment says of it. */
  lemma {:induction false} InsertedKey(m: Params, segment: string, key: string) returns (found: bool, value: string)
    ensures found ==> Sets(segment, key, value) && key in Insert(m, segment) && Insert(m, segment)[key] == value
    ensures !found ==> forall v :: !Sets(segment, key, v)
    ensures !found ==> (key in Insert(m, segment) <==> key in m)
    ensures !found && key in m ==> Insert(m, segment)[key] == m[key]
  {
    found, value := false, "";
    if segment == "" || segment[0] == '=' {
      InsertSkips(m, segment);
    } else {
      var k, v := SomeKey(segment);
      InsertSets(m, segment, k, v);
      forall x | Sets(segment, key, x) ensures key == k {
        InsertSets(map[], segment, key, x);
        InsertSets(map[], segment, k, v);
        assert key in map[k := v];
      }
      found, value := key == k, v;
    }
  }

  /** The last segment that sets a key wins. */
  lemma {:induction false} InsertAllLookup(m: Params, segments: seq<string>, key: string)
    returns (i: int, value: string)
    ensures var r := InsertAll(m, segments);
            if i < 0 then
              NeverSets(segments, key) && (key in r <==> key in m) && (key in m ==> r[key] == m[key])
            else LastSets(segments, i, key, value) && key in r && r[key] == value
    decreases |segments|
  {
    i, value := -1, "";
    if segments != [] {
      var found, v := InsertedKey(m, segments[0], key);
      i, value := InsertAllLookup(Insert(m, segments[0]), segments[1..], key);
      assert forall j | 0 < j < |segments| :: segments[j] == segments[1..][j - 1];
      if i >= 0 {
        i := i + 1;
      } else if found {
        i, value := 0, v;
      }
    }
  }

  /** A parsed string holds a key with a value exactly when a segment sets it and no later one does. */
  lemma {:induction false} ParsedLookup(s: string, key: string, value: string)
    ensures (exists i :: LastSets(Split(s, ';'), i, key, value)) ==> key in Parsed(s) && Parsed(s)[key] == value
    ensures key in Parsed(s) && Parsed(s)[key] == value ==> exists i :: LastSets(Split(s, ';'), i, key, value)
  {
    var segments := Split(s, ';');
    var i, v := InsertAllLookup(map[], segments, key);
    if key in Parsed(s) && Parsed(s)[key] == value {
      assert LastSets(segments, i, key, value);
    }
    if j :| LastSets(segments, j, key, value) {
      assert i >= 0 && i == j;
      InsertSets(map[], segments[i], key, value);
      var inserted := Insert(map[], segments[i]);
      assert inserted[key] == value;
      InsertSets(map[], segments[i], key, v);
      assert inserted[key] == v;
    }
  }
}
