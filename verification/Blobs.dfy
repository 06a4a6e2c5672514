/** The blob attributes of the old GATT server: values longer than an attribute, read window
    by window, with updates latched by a fresh read. */
module Blobs {
  import G = GattServices

  type Uuid = G.Uuid
  type Byte = x: int | 0 <= x < 256

  const MAX_ATTRIBUTE_SIZE := 512
  const EMPTY_UUID: Uuid := ""

  datatype Characteristic =
    Characteristic(uuid: Uuid, section: nat, blob: seq<Byte>, nextBlob: seq<Byte>, pending: bool, notify: bool)

  const DEFAULT := Characteristic(EMPTY_UUID, 0, [], [], false, false)

  /** `controlled` gives the value attribute of a control attribute; `pipe` is what the
      application has been told was written. */
  datatype State = State(
    attributes: map<Uuid, int>, characteristics: map<int, Characteristic>, controlled: map<int, int>,
    lastWrite: Uuid, pipe: seq<Uuid>)

  /** The entry of a handle: looking one up creates it. */
  function At(s: State, handle: int): Characteristic
  {
    if handle in s.characteristics then s.characteristics[handle] else DEFAULT
  }

  function With(s: State, handle: int, ch: Characteristic): State
  {
    s.(characteristics := s.characteristics[handle := ch])
  }

  function Least(a: nat, b: nat): nat
  {
    if a <= b then a else b
  }

  // ----- The operations

  /** A read at the beginning of section 0 takes over the value set last. */
  function Latched(ch: Characteristic, offset: nat): Characteristic
  {
    if ch.pending && offset == 0 && ch.section == 0 then
      ch.(blob := ch.nextBlob, nextBlob := ch.blob, pending := false)
    else ch
  }

  /** Where a section begins in the blob. */
  function SectionStart(blob: seq<Byte>, section: nat): nat
  {
    Least(|blob|, section * MAX_ATTRIBUTE_SIZE)
  }

  /** The part of the blob that a section shows. */
  function Window(blob: seq<Byte>, section: nat): seq<Byte>
  {
    var begin := SectionStart(blob, section);
    blob[begin..begin + Least(MAX_ATTRIBUTE_SIZE, |blob| - begin)]
  }

  /** What a read answers. */
  function Answer(s: State, handle: int, offset: nat): seq<Byte>
  {
    var ch := Latched(At(s, handle), offset);
    var window := Window(ch.blob, ch.section);
    if offset < |window| then window[offset..] else []
  }

  function AfterRead(s: State, handle: int, offset: nat): State
  {
    With(s, handle, Latched(At(s, handle), offset))
  }

  /** vector::resize: cuts, or fills with zeros. */
  function Resized(blob: seq<Byte>, size: nat): (r: seq<Byte>)
    ensures |r| == size
  {
    if size <= |blob| then blob[..size] else blob + seq(size - |blob|, _ => 0)
  }

  function Overwritten(blob: seq<Byte>, offset: nat, value: seq<Byte>): (r: seq<Byte>)
    ensures |r| == offset + |value|
  {
    Resized(blob, offset + |value|)[..offset] + value
  }

  /** Prepared writes take effect at once. A control attribute of size one selects a section. */
  function AfterWrite(s: State, handle: int, offset: nat, value: seq<Byte>, isPrep: bool): State
  {
    var ch := At(s, handle).(blob := Overwritten(At(s, handle).blob, offset, value));
    var s' := With(s, handle, ch);
    if handle in s.controlled && |ch.blob| == 1 then
      var target := s.controlled[handle];
      With(s', target, At(s', target).(section := ch.blob[0]))
    else if !isPrep then s'.(pipe := s.pipe + [ch.uuid])
    else s'.(lastWrite := ch.uuid)
  }

  function AfterExec(s: State, exec: bool): State
  {
    if exec then s.(pipe := s.pipe + [s.lastWrite]) else s
  }

  /** The handle of an attribute: looking an unknown one up files it under handle 0. */
  function HandleOf(s: State, id: Uuid): int
  {
    if id in s.attributes then s.attributes[id] else 0
  }

  function AfterSet(s: State, id: Uuid, value: seq<Byte>): State
  {
    var handle := HandleOf(s, id);
    With(s.(attributes := s.attributes[id := handle]), handle, At(s, handle).(nextBlob := value, pending := true))
  }

  datatype Op =
    | Read(handle: int, offset: nat)
    | Write(handle: int, offset: nat, value: seq<Byte>, isPrep: bool)
    | Exec(exec: bool)
    | Set(id: Uuid, value: seq<Byte>)

  function Next(s: State, op: Op): State
  {
    match op
    case Read(handle, offset) => AfterRead(s, handle, offset)
    case Write(handle, offset, value, isPrep) => AfterWrite(s, handle, offset, value, isPrep)
    case Exec(exec) => AfterExec(s, exec)
    case Set(id, value) => AfterSet(s, id, value)
  }

  // ----- Fetching a blob section by section

  /** A client reading `value` with the help of `control`: where it is and what it has. */
  datatype Client = Client(s: State, section: nat, offset: nat, got: seq<Byte>)

  /** What happens while a client fetches: an operation of somebody else, a read at the client's
      offset of which at most `size` bytes reach it, or a step to the next section. */
  datatype Turn = Other(op: Op) | Chunk(size: nat) | NextSection

  function Received(client: Client, value: int, size: nat): Client
  {
    var answer := Answer(client.s, value, client.offset);
    var part := answer[..Least(size, |answer|)];
    Client(AfterRead(client.s, value, client.offset), client.section, client.offset + |part|, client.got + part)
  }

  /** Selects section 0 and makes a fresh read. */
  function Begin(s: State, control: int, value: int, size: nat): Client
  {
    Received(Client(AfterWrite(s, control, 0, [0], false), 0, 0, []), value, size)
  }

  function Taken(client: Client, control: int, value: int, turn: Turn): Client
    requires turn.NextSection? ==> client.section < 255
  {
    match turn
    case Other(op) => client.(s := Next(client.s, op))
    case Chunk(size) => Received(client, value, size)
    case NextSection =>
      Client(AfterWrite(client.s, control, 0, [client.section + 1], false), client.section + 1, 0, client.got)
  }

  /** Others may set any value at any time and read anything, but start no fresh read that
      latches a new value of this blob, and do not write or steer it.  The client starts no
      second fresh read and leaves a section only at its end. */
  predicate Allowed(client: Client, value: int, turn: Turn)
  {
    match turn
    case Other(Read(handle, offset)) =>
      handle != value || offset > 0 || client.section > 0 || !At(client.s, value).pending
    case Other(Write(handle, _, _, _)) =>
      handle != value && !(handle in client.s.controlled && client.s.controlled[handle] == value)
    case Other(_) => true
    case Chunk(_) => client.section > 0 || client.offset > 0
    case NextSection => client.section < 255 && AtEnd(client, value)
  }

  predicate AtEnd(client: Client, value: int)
  {
    client.offset >= |Window(At(client.s, value).blob, client.section)|
  }

  function Fetch(client: Client, control: int, value: int, turns: seq<Turn>): Client
    requires AllAllowed(client, control, value, turns)
    decreases |turns|
  {
    if turns == [] then client else Fetch(Taken(client, control, value, turns[0]), control, value, turns[1..])
  }

  predicate AllAllowed(client: Client, control: int, value: int, turns: seq<Turn>)
    decreases |turns|
  {
    turns != [] ==>
      && Allowed(client, value, turns[0])
      && AllAllowed(Taken(client, control, value, turns[0]), control, value, turns[1..])
  }

  predicate Controls(s: State, control: int, value: int)
  {
    control != value && control in s.controlled && s.controlled[control] == value
  }

  /** The value a fresh read takes over: the one set last, or the one already there. */
  function FreshValue(s: State, value: int): seq<Byte>
  {
    if At(s, value).pending then At(s, value).nextBlob else At(s, value).blob
  }

  /** The client holds the blob up to where it is, whatever has been set since. */
  predicate Fetching(client: Client, control: int, value: int, blob: seq<Byte>)
  {
    && Controls(client.s, control, value)
    && At(client.s, value).blob == blob
    && At(client.s, value).section == client.section <= 255
    && client.offset <= |Window(blob, client.section)|
    && client.got == blob[..SectionStart(blob, client.section) + client.offset]
  }

  /** Selecting a section changes nothing else of the value attribute. */
  lemma {:induction false} Selects(s: State, control: int, value: int, section: Byte)
    requires Controls(s, control, value)
    ensures var s' := AfterWrite(s, control, 0, [section], false);
            Controls(s', control, value) && At(s', value) == At(s, value).(section := section)
  {
    assert Overwritten(At(s, control).blob, 0, [section]) == [section];
  }

  lemma {:induction false} OthersDoNotDisturb(client: Client, control: int, value: int, blob: seq<Byte>, op: Op)
    requires Fetching(client, control, value, blob) && Allowed(client, value, Other(op))
    ensures Fetching(client.(s := Next(client.s, op)), control, value, blob)
  {
    OthersLeave(client, value, op);
  }

  /** The operations of others leave the blob and its section alone. */
  lemma {:induction false} OthersLeave(client: Client, value: int, op: Op)
    requires Allowed(client, value, Other(op)) && At(client.s, value).section == client.section
    ensures var s := client.s;
            var s' := Next(s, op);
            && s'.controlled == s.controlled
            && At(s', value).blob == At(s, value).blob && At(s', value).section == At(s, value).section
  {
  }

  lemma {:induction false} ChunkExtends(blob: seq<Byte>, section: nat, offset: nat, n: nat)
    requires offset + n <= |Window(blob, section)|
    ensures var begin := SectionStart(blob, section);
            blob[..begin + offset] + Window(blob, section)[offset..][..n] == blob[..begin + offset + n]
  {
  }

  /** A read that latches nothing answers the rest of the section and changes nothing. */
  lemma {:induction false} QuietRead(s: State, value: int, offset: nat)
    requires offset > 0 || At(s, value).section > 0 || !At(s, value).pending
    requires offset <= |Window(At(s, value).blob, At(s, value).section)|
    ensures Answer(s, value, offset) == Window(At(s, value).blob, At(s, value).section)[offset..]
    ensures At(AfterRead(s, value, offset), value) == At(s, value)
    ensures AfterRead(s, value, offset).controlled == s.controlled
  {
  }

  lemma {:induction false} ReceivedKeeps(client: Client, control: int, value: int, blob: seq<Byte>, size: nat)
    requires Fetching(client, control, value, blob)
    requires !At(client.s, value).pending || Allowed(client, value, Chunk(size))
    ensures Fetching(Received(client, value, size), control, value, blob)
  {
    QuietRead(client.s, value, client.offset);
    var answer, window := Answer(client.s, value, client.offset), Window(blob, client.section);
    var n := Least(size, |answer|);
    assert |answer| == |window| - client.offset && client.offset + n <= |window|;
    var after := Received(client, value, size);
    assert after.section == client.section && after.offset == client.offset + n;
    assert after.got == client.got + window[client.offset..][..n];
    ChunkExtends(blob, client.section, client.offset, n);
  }

  lemma {:induction false} NextSectionKeeps(client: Client, control: int, value: int, blob: seq<Byte>)
    requires Fetching(client, control, value, blob) && Allowed(client, value, NextSection)
    ensures Fetching(Taken(client, control, value, NextSection), control, value, blob)
  {
    Selects(client.s, control, value, client.section + 1);
  }

  lemma {:induction false} BeginFetches(s: State, control: int, value: int, size: nat)
    requires Controls(s, control, value)
    ensures Fetching(Begin(s, control, value, size), control, value, FreshValue(s, value))
  {
    Selects(s, control, value, 0);
    var s' := AfterWrite(s, control, 0, [0], false);
    var latched := Client(AfterRead(s', value, 0), 0, 0, []);
    FreshReadLatches(s', control, value);
    ReceivedKeeps(latched, control, value, FreshValue(s, value), size);
  }

  /** A fresh read leaves nothing waiting, so that reading once more changes nothing. */
  lemma {:induction false} FreshReadLatches(s: State, control: int, value: int)
    requires Controls(s, control, value) && At(s, value).section == 0
    ensures var s' := AfterRead(s, value, 0);
            && At(s', value).blob == FreshValue(s, value) && !At(s', value).pending
            && Controls(s', control, value) && At(s', value).section == 0
            && Answer(s', value, 0) == Answer(s, value, 0) && AfterRead(s', value, 0) == s'
  {
  }

  lemma {:induction false} FetchKeeps(client: Client, control: int, value: int, blob: seq<Byte>, turns: seq<Turn>)
    requires Fetching(client, control, value, blob) && AllAllowed(client, control, value, turns)
    ensures Fetching(Fetch(client, control, value, turns), control, value, blob)
    decreases |turns|
  {
    if turns != [] {
      match turns[0] {
        case Other(op) => OthersDoNotDisturb(client, control, value, blob, op);
        case Chunk(size) => ReceivedKeeps(client, control, value, blob, size);
        case NextSection => NextSectionKeeps(client, control, value, blob);
      }
      FetchKeeps(Taken(client, control, value, turns[0]), control, value, blob, turns[1..]);
    }
  }

  /** A client knows it is done at the end of a section that is not full, or of the last one. */
  predicate Done(client: Client, value: int)
  {
    AtEnd(client, value) && (client.offset < MAX_ATTRIBUTE_SIZE || client.section == 255)
  }

  lemma {:induction false} DoneHasAll(client: Client, control: int, value: int, blob: seq<Byte>)
    requires Fetching(client, control, value, blob)
    ensures client.got <= blob
    ensures Done(client, value) ==> (client.got == blob <==> |blob| <= 256 * 512)
  {
    assert |client.got| == SectionStart(blob, client.section) + client.offset;
    assert blob[..|blob|] == blob;
  }

  /** Whatever pieces the client reads and whatever values are set meanwhile, it always holds
      a prefix of the one value its fresh read took over; when it is done it holds exactly
      that value if and only if 256 sections are enough. */
  lemma {:induction false} FetchReassembles(s: State, control: int, value: int, size: nat, turns: seq<Turn>)
    requires Controls(s, control, value)
    requires AllAllowed(Begin(s, control, value, size), control, value, turns)
    ensures var end := Fetch(Begin(s, control, value, size), control, value, turns);
            var blob := FreshValue(s, value);
            && end.got <= blob
            && (Done(end, value) ==> (end.got == blob <==> |blob| <= 256 * 512))
  {
    BeginFetches(s, control, value, size);
    var blob := FreshValue(s, value);
    FetchKeeps(Begin(s, control, value, size), control, value, blob, turns);
    DoneHasAll(Fetch(Begin(s, control, value, size), control, value, turns), control, value, blob);
  }

  /** A fetch that begins after a value was set gets that value, whatever was there before,
      is set later, and is read in between. */
  lemma {:induction false} SetIsFetched(s: State, id: Uuid, blob: seq<Byte>, control: int, size: nat, turns: seq<Turn>)
    requires Controls(s, control, HandleOf(s, id))
    requires AllAllowed(Begin(AfterSet(s, id, blob), control, HandleOf(s, id), size), control, HandleOf(s, id), turns)
    ensures var value := HandleOf(s, id);
            var end := Fetch(Begin(AfterSet(s, id, blob), control, value, size), control, value, turns);
            && end.got <= blob
            && (Done(end, value) ==> (end.got == blob <==> |blob| <= 256 * 512))
  {
    FetchReassembles(AfterSet(s, id, blob), control, HandleOf(s, id), size, turns);
  }

  /** Every fetch that is past its fresh read can be completed. */
  lemma {:induction false} FetchCanFinish(client: Client, control: int, value: int, blob: seq<Byte>)
    returns (turns: seq<Turn>)
    requires Fetching(client, control, value, blob)
    requires client.section > 0 || client.offset > 0 || AtEnd(client, value)
    ensures AllAllowed(client, control, value, turns)
    ensures Done(Fetch(client, control, value, turns), value)
  {
    if AtEnd(client, value) {
      turns := FinishesFromEnd(client, control, value, blob);
    } else {
      ReceivedKeeps(client, control, value, blob, MAX_ATTRIBUTE_SIZE);
      WholeSection(client, control, value, blob);
      var rest := FinishesFromEnd(Taken(client, control, value, Chunk(MAX_ATTRIBUTE_SIZE)), control, value, blob);
      turns := [Chunk(MAX_ATTRIBUTE_SIZE)] + rest;
      assert turns[1..] == rest;
    }
  }

  lemma {:induction false} FinishesFromEnd(client: Client, control: int, value: int, blob: seq<Byte>)
    returns (turns: seq<Turn>)
    requires Fetching(client, control, value, blob) && AtEnd(client, value)
    ensures AllAllowed(client, control, value, turns)
    ensures Done(Fetch(client, control, value, turns), value)
    decreases 255 - client.section
  {
    if Done(client, value) {
      turns := [];
    } else {
      NextSectionKeeps(client, control, value, blob);
      var next := Taken(client, control, value, NextSection);
      ReceivedKeeps(next, control, value, blob, MAX_ATTRIBUTE_SIZE);
      var full := Taken(next, control, value, Chunk(MAX_ATTRIBUTE_SIZE));
      WholeSection(next, control, value, blob);
      var rest := FinishesFromEnd(full, control, value, blob);
      turns := [NextSection] + ([Chunk(MAX_ATTRIBUTE_SIZE)] + rest);
      assert turns[1..] == [Chunk(MAX_ATTRIBUTE_SIZE)] + rest;
      assert turns[1..][1..] == rest;
    }
  }

  lemma {:induction false} WholeSection(client: Client, control: int, value: int, blob: seq<Byte>)
    requires Fetching(client, control, value, blob) && Allowed(client, value, Chunk(MAX_ATTRIBUTE_SIZE))
    ensures AtEnd(Received(client, value, MAX_ATTRIBUTE_SIZE), value)
  {
    var answer := Answer(client.s, value, client.offset);
    assert |answer| == |Window(blob, client.section)| - client.offset <= MAX_ATTRIBUTE_SIZE;
  }

  // ----- Prepared writes

  function Concat(chunks: seq<seq<Byte>>): seq<Byte>
  {
    if chunks == [] then [] else chunks[0] + Concat(chunks[1..])
  }

  /** Prepared writes of consecutive chunks. */
  function Prepared(s: State, handle: int, offset: nat, chunks: seq<seq<Byte>>): State
    decreases |chunks|
  {
    if chunks == [] then s
    else Prepared(AfterWrite(s, handle, offset, chunks[0], true), handle, offset + |chunks[0]|, chunks[1..])
  }

  predicate ControlsItself(s: State, handle: int)
  {
    handle in s.controlled && s.controlled[handle] == handle
  }

  /** A write, prepared or not, keeps what lies before its offset, fills a gap with zeros, ends the
      value with the bytes written, and changes nothing else of the attribute. */
  lemma {:induction false} WriteStores(s: State, handle: int, offset: nat, value: seq<Byte>, isPrep: bool)
    requires !ControlsItself(s, handle)
    ensures var s' := Next(s, Write(handle, offset, value, isPrep)); var ch, ch' := At(s, handle), At(s', handle);
            && |ch'.blob| == offset + |value|
            && (forall i | 0 <= i < offset :: ch'.blob[i] == if i < |ch.blob| then ch.blob[i] else 0)
            && (forall i | 0 <= i < |value| :: ch'.blob[offset + i] == value[i])
            && ch'.(blob := ch.blob) == ch
  {
    var ch := At(s, handle);
    var blob := Overwritten(ch.blob, offset, value);
    assert forall i | 0 <= i < offset :: blob[i] == Resized(ch.blob, offset + |value|)[i];
    assert At(Next(s, Write(handle, offset, value, isPrep)), handle) == ch.(blob := blob);
  }

  /** A write that leaves a control attribute one byte long selects that section of its target and
      announces nothing; any other is announced at once, or remembered when prepared.  No other
      attribute changes. */
  lemma {:induction false} WriteTells(s: State, handle: int, offset: nat, value: seq<Byte>, isPrep: bool)
    requires !ControlsItself(s, handle)
    ensures var s' := Next(s, Write(handle, offset, value, isPrep)); var ch, ch' := At(s, handle), At(s', handle);
            && s'.attributes == s.attributes && s'.controlled == s.controlled
            && var selects := handle in s.controlled && offset + |value| == 1;
            && (selects ==>
                  var target := s.controlled[handle];
                  && |ch'.blob| == 1 && At(s', target) == At(s, target).(section := ch'.blob[0])
                  && s'.pipe == s.pipe && s'.lastWrite == s.lastWrite)
            && (!selects && !isPrep ==> s'.pipe == s.pipe + [ch.uuid] && s'.lastWrite == s.lastWrite)
            && (!selects && isPrep ==> s'.pipe == s.pipe && s'.lastWrite == ch.uuid)
            && (forall h | h != handle && !(selects && h == s.controlled[handle]) :: At(s', h) == At(s, h))
  {
  }

  /** From s to s', prepared writes made `blob` the value of the attribute and left everything
      else of it; nothing was announced yet. */
  predicate Wrote(s: State, s': State, handle: int, blob: seq<Byte>)
  {
    && At(s', handle) == At(s, handle).(blob := blob)
    && (handle !in s.controlled ==> s'.lastWrite == At(s, handle).uuid)
    && s'.pipe == s.pipe && s'.controlled == s.controlled
  }

  lemma {:induction false} PreparedWrite(s: State, handle: int, offset: nat, value: seq<Byte>)
    requires offset <= |At(s, handle).blob| && !ControlsItself(s, handle)
    ensures Wrote(s, AfterWrite(s, handle, offset, value, true), handle, At(s, handle).blob[..offset] + value)
  {
  }

  lemma {:induction false} AppendsThen(s: State, s1: State, s2: State, handle: int, b: seq<Byte>, rest: seq<Byte>)
    requires Wrote(s, s1, handle, b) && Wrote(s1, s2, handle, b[..|b|] + rest)
    ensures Wrote(s, s2, handle, b + rest)
  {
    assert b[..|b|] == b;
  }

  lemma {:induction false} ConcatFrom(before: seq<Byte>, chunks: seq<seq<Byte>>)
    requires chunks != []
    ensures before + Concat(chunks) == before + chunks[0] + Concat(chunks[1..])
  {
  }

  /** Consecutive writes append to what lies before the first, and leave everything else of
      an attribute that does not control itself. */
  lemma {:induction false} PreparedAppends(s: State, handle: int, offset: nat, chunks: seq<seq<Byte>>)
    requires offset <= |At(s, handle).blob| && chunks != [] && !ControlsItself(s, handle)
    ensures Wrote(s, Prepared(s, handle, offset, chunks), handle, At(s, handle).blob[..offset] + Concat(chunks))
    decreases |chunks|
  {
    var blob, rest := At(s, handle).blob[..offset] + chunks[0], chunks[1..];
    var s' := AfterWrite(s, handle, offset, chunks[0], true);
    PreparedWrite(s, handle, offset, chunks[0]);
    ConcatFrom(At(s, handle).blob[..offset], chunks);
    if rest == [] {
      assert blob + [] == blob;
    } else {
      PreparedAppends(s', handle, |blob|, rest);
      AppendsThen(s, s', Prepared(s', handle, |blob|, rest), handle, blob, Concat(rest));
    }
  }

  /** Prepared writes from offset 0, executed, are announced once under the attribute's own
      identifier (unless it is a control attribute), cancelled are not announced, and a read from the start then answers
      the selected section of their concatenation, if and only if the read does not latch a
      waiting value that begins differently. */
  lemma {:induction false} WritesReadBack(s: State, handle: int, chunks: seq<seq<Byte>>)
    requires chunks != [] && !ControlsItself(s, handle)
    ensures var s' := AfterExec(Prepared(s, handle, 0, chunks), true);
            var written, section := Concat(chunks), At(s, handle).section;
            && At(s', handle).blob == written
            && AfterExec(Prepared(s, handle, 0, chunks), false).pipe == s.pipe
            && (handle !in s.controlled ==> s'.pipe == s.pipe + [At(s, handle).uuid])
            && (Answer(s', handle, 0) == Window(written, section) <==>
                !(section == 0 && At(s, handle).pending && Window(At(s, handle).nextBlob, 0) != Window(written, 0)))
  {
    PreparedAppends(s, handle, 0, chunks);
    assert At(s, handle).blob[..0] + Concat(chunks) == Concat(chunks);
    ReadFromStart(Prepared(s, handle, 0, chunks), handle);
  }

  lemma {:induction false} ReadFromStart(s: State, handle: int)
    ensures var ch := At(s, handle);
            Answer(s, handle, 0) ==
            if ch.section == 0 && ch.pending then Window(ch.nextBlob, 0) else Window(ch.blob, ch.section)
  {
  }

  /** A value set before an attribute is written hides what is written from the next read. */
  lemma {:induction false} WaitingValueHidesWrite(s: State, id: Uuid)
    requires s.controlled == map[] && At(s, HandleOf(s, id)).section == 0
    ensures var h := HandleOf(s, id);
            Answer(AfterExec(Prepared(AfterSet(s, id, [7]), h, 0, [[9]]), true), h, 0) == [7]
  {
    var h, s' := HandleOf(s, id), AfterSet(s, id, [7]);
    PreparedAppends(s', h, 0, [[9]]);
    assert Window([7], 0) == [7];
  }

  // ----- Declaring blobs and filing the handles of a service

  const NOTIFY := 0x10
  const READ_WRITE_PROPERTIES := 0x0A
  const READ_WRITE_PERMISSIONS := 0x11

  predicate HasNotify(properties: int)
  {
    properties / NOTIFY % 2 == 1
  }

  datatype Declaration =
    | Plain(uuid: Uuid, properties: int, permissions: int)
    | Blob(uuid: Uuid, control: Uuid, properties: int, permissions: int)

  /** The service declared so far and the positions of its control attributes. */
  datatype Pending = Pending(elements: seq<G.Element>, blobIndex: set<nat>)

  function CharacteristicElement(uuid: Uuid, properties: int, permissions: int): G.Element
  {
    G.Element(G.CharacteristicKind, uuid, 0, properties, permissions)
  }

  function Declared(p: Pending, d: Declaration): Pending
  {
    var first := CharacteristicElement(d.uuid, d.properties, d.permissions);
    match d
    case Plain(_, _, _) => p.(elements := p.elements + [first])
    case Blob(_, control, _, _) =>
      Pending(p.elements + [first, CharacteristicElement(control, READ_WRITE_PROPERTIES, READ_WRITE_PERMISSIONS)],
              p.blobIndex + {|p.elements| + 1})
  }

  function DeclaredAll(app: Uuid, ds: seq<Declaration>): Pending
  {
    if ds == [] then Pending([G.Element(G.PrimaryService, app, 0, 0, 0)], {}) else
      var n := |ds| - 1;
      Declared(DeclaredAll(app, ds[..n]), ds[n])
  }

  /** The filing loop: what is filed, and the characteristic met last. */
  datatype Filing = Filing(s: State, previous: int, properties: int)

  function Filed(f: Filing, el: G.Element, isControl: bool): Filing
  {
    if el.kind != G.CharacteristicKind then f else
      var s := With(f.s.(attributes := f.s.attributes[el.uuid := el.handle]), el.handle,
                    At(f.s, el.handle).(uuid := el.uuid, section := 0));
      var s' :=
        if !isControl then s else
          var linked := With(s.(controlled := s.controlled[el.handle := f.previous]), f.previous,
                             At(s, f.previous).(notify := HasNotify(f.properties)));
          With(linked, el.handle,
               At(linked, el.handle).(nextBlob := [0], pending := true, section := 0, notify := false));
      Filing(s', el.handle, el.properties)
  }

  /** The elements after the service's own, up to position n. */
  function FiledUpTo(s: State, service: seq<G.Element>, blobIndex: set<nat>, n: nat): Filing
    requires 1 <= n <= |service|
  {
    if n == 1 then Filing(s, 0, 0)
    else Filed(FiledUpTo(s, service, blobIndex, n - 1), service[n - 1], n - 1 in blobIndex)
  }

  /** The service the HAL returns: the one declared, with a handle of its own for each element. */
  predicate Answers(service: seq<G.Element>, declared: seq<G.Element>)
  {
    && |service| == |declared|
    && (forall i | 0 <= i < |service| :: declared[i] == service[i].(handle := 0))
    && (forall i, j | 0 <= i < j < |service| :: service[i].handle != service[j].handle)
  }

  predicate Paired(p: Pending)
  {
    && |p.elements| >= 1
    && (forall i | 1 <= i < |p.elements| :: p.elements[i].kind == G.CharacteristicKind)
    && (forall i: nat | i in p.blobIndex :: 2 <= i < |p.elements| && i - 1 !in p.blobIndex)
  }

  lemma {:induction false} DeclarationsPaired(app: Uuid, ds: seq<Declaration>)
    ensures Paired(DeclaredAll(app, ds))
  {
    if ds != [] {
      var n := |ds| - 1;
      DeclarationsPaired(app, ds[..n]);
    }
  }

  /** A control attribute starts as a readable zero. */
  predicate IsControl(ch: Characteristic)
  {
    ch.pending && ch.nextBlob == [0] && ch.section == 0 && !ch.notify
  }

  predicate Linked(s: State, service: seq<G.Element>, blobIndex: set<nat>, i: nat)
    requires 1 <= i < |service|
  {
    if i in blobIndex then
      && Controls(s, service[i].handle, service[i - 1].handle)
      && IsControl(At(s, service[i].handle))
      && At(s, service[i - 1].handle).notify == HasNotify(service[i - 1].properties)
    else service[i].handle !in s.controlled
  }

  lemma {:induction false} FilingLinks(s: State, service: seq<G.Element>, p: Pending, n: nat)
    requires Paired(p) && Answers(service, p.elements) && s.controlled == map[] && 1 <= n <= |service|
    ensures var f := FiledUpTo(s, service, p.blobIndex, n);
            && (n > 1 ==> f.previous == service[n - 1].handle && f.properties == service[n - 1].properties)
            && (forall i | 1 <= i < n :: Linked(f.s, service, p.blobIndex, i))
            && (forall k | k in f.s.controlled :: exists i :: 1 <= i < n && service[i].handle == k)
  {
    if n > 1 {
      FilingLinks(s, service, p, n - 1);
      var f, f' := FiledUpTo(s, service, p.blobIndex, n - 1), FiledUpTo(s, service, p.blobIndex, n);
      assert p.elements[n - 1].kind == service[n - 1].kind;
      forall i | 1 <= i < n
        ensures Linked(f'.s, service, p.blobIndex, i)
      {
        if i < n - 1 {
          assert Linked(f.s, service, p.blobIndex, i);
          assert service[i].handle != service[n - 1].handle;
          assert service[i - 1].handle != service[n - 1].handle;
          if n - 1 in p.blobIndex && i in p.blobIndex {
            assert service[i].handle != service[n - 2].handle;
            assert service[i - 1].handle != service[n - 2].handle;
          }
        }
      }
      forall k | k in f'.s.controlled
        ensures exists i :: 1 <= i < n && service[i].handle == k
      {
        if k != service[n - 1].handle { assert k in f.s.controlled; }
      }
    }
  }

  /** Where the declaration at i begins in the element list. */
  function Position(ds: seq<Declaration>, i: nat): nat
    requires i <= |ds|
  {
    if i == 0 then 1 else Position(ds, i - 1) + if ds[i - 1].Blob? then 2 else 1
  }

  lemma {:induction false} ElementCount(app: Uuid, ds: seq<Declaration>)
    ensures |DeclaredAll(app, ds).elements| == Position(ds, |ds|)
  {
    if ds != [] {
      var n := |ds| - 1;
      ElementCount(app, ds[..n]);
      PositionPrefix(ds, n, n);
    }
  }

  /** The declaration's elements stand at position k. */
  predicate StandsAt(p: Pending, d: Declaration, k: nat)
  {
    && 1 <= k < |p.elements|
    && p.elements[k] == G.Element(G.CharacteristicKind, d.uuid, 0, d.properties, d.permissions)
    && (d.Blob? ==>
          && k + 1 < |p.elements| && k + 1 in p.blobIndex
          && p.elements[k + 1] == G.Element(G.CharacteristicKind, d.control, 0, 0x0A, 0x11))
  }

  lemma {:induction false} StandsStill(p: Pending, d: Declaration, k: nat, next: Declaration)
    requires StandsAt(p, d, k)
    ensures StandsAt(Declared(p, next), d, k)
  {
  }

  lemma {:induction false} StandsLast(p: Pending, d: Declaration)
    requires |p.elements| >= 1
    ensures StandsAt(Declared(p, d), d, |p.elements|)
  {
  }

  lemma {:induction false} Positions(app: Uuid, ds: seq<Declaration>, i: nat)
    requires i < |ds|
    ensures StandsAt(DeclaredAll(app, ds), ds[i], Position(ds, i))
    decreases |ds|
  {
    var n := |ds| - 1;
    var p := DeclaredAll(app, ds[..n]);
    PositionPrefix(ds, n, i);
    if i < n {
      Positions(app, ds[..n], i);
      StandsStill(p, ds[i], Position(ds, i), ds[n]);
    } else {
      ElementCount(app, ds[..n]);
      DeclarationsPaired(app, ds[..n]);
      StandsLast(p, ds[n]);
    }
  }

  lemma {:induction false} PositionPrefix(ds: seq<Declaration>, n: nat, i: nat)
    requires i <= n <= |ds|
    ensures Position(ds[..n], i) == Position(ds, i)
  {
    if i > 0 { PositionPrefix(ds, n, i - 1); }
  }

  /** Whatever handles a declared service gets, each blob's control attribute ends up steering
      that blob's own value attribute. */
  lemma {:induction false} BlobsAssociated(s: State, app: Uuid, ds: seq<Declaration>, service: seq<G.Element>, i: nat)
    requires s.controlled == map[] && Answers(service, DeclaredAll(app, ds).elements)
    requires i < |ds| && ds[i].Blob?
    ensures var k := Position(ds, i);
            && 1 <= k && k + 1 < |service| && service[k].uuid == ds[i].uuid && service[k + 1].uuid == ds[i].control
            && var s' := FiledUpTo(s, service, DeclaredAll(app, ds).blobIndex, |service|).s;
            && Controls(s', service[k + 1].handle, service[k].handle)
            && IsControl(At(s', service[k + 1].handle))
            && At(s', service[k].handle).notify == (ds[i].properties / 0x10 % 2 == 1)
  {
    var p := DeclaredAll(app, ds);
    DeclarationsPaired(app, ds);
    Positions(app, ds, i);
    FilingLinks(s, service, p, |service|);
    var k := Position(ds, i);
    assert Linked(FiledUpTo(s, service, p.blobIndex, |service|).s, service, p.blobIndex, k + 1);
    assert p.elements[k] == service[k].(handle := 0) && p.elements[k + 1] == service[k + 1].(handle := 0);
  }

  predicate IsBlobControl(ds: seq<Declaration>, i: nat, k: int)
  {
    i < |ds| && ds[i].Blob? && k == Position(ds, i) + 1
  }

  lemma {:induction false} IndexedAreControls(app: Uuid, ds: seq<Declaration>, k: nat) returns (i: nat)
    requires k in DeclaredAll(app, ds).blobIndex
    ensures IsBlobControl(ds, i, k)
    decreases |ds|
  {
    var n := |ds| - 1;
    PositionPrefix(ds, n, n);
    if k in DeclaredAll(app, ds[..n]).blobIndex {
      i := IndexedAreControls(app, ds[..n], k);
      PositionPrefix(ds, n, i);
    } else {
      i := n;
      ElementCount(app, ds[..n]);
    }
  }

  lemma {:induction false} ControlledIsIndexed(s: State, service: seq<G.Element>, p: Pending, handle: int)
    returns (k: nat)
    requires s.controlled == map[] && Paired(p) && Answers(service, p.elements)
    requires handle in FiledUpTo(s, service, p.blobIndex, |service|).s.controlled
    ensures k in p.blobIndex && k < |service| && service[k].handle == handle
  {
    FilingLinks(s, service, p, |service|);
    k :| 1 <= k < |service| && service[k].handle == handle;
    assert Linked(FiledUpTo(s, service, p.blobIndex, |service|).s, service, p.blobIndex, k);
  }

  /** No attribute but the control of a declared blob steers anything. */
  lemma {:induction false} OnlyBlobsAssociated(
    s: State, app: Uuid, ds: seq<Declaration>, service: seq<G.Element>, handle: int) returns (i: nat)
    requires s.controlled == map[] && |service| >= 1 && Answers(service, DeclaredAll(app, ds).elements)
    requires handle in FiledUpTo(s, service, DeclaredAll(app, ds).blobIndex, |service|).s.controlled
    ensures i < |ds| && ds[i].Blob? && Position(ds, i) + 1 < |service|
    ensures handle == service[Position(ds, i) + 1].handle
  {
    DeclarationsPaired(app, ds);
    var k := ControlledIsIndexed(s, service, DeclaredAll(app, ds), handle);
    i := IndexedAreControls(app, ds, k);
  }

  /** The handle of element i is known under its identifier, unless a later element has the same. */
  predicate FiledAt(s: State, service: seq<G.Element>, i: nat, n: nat)
    requires i < n <= |service|
  {
    && At(s, service[i].handle).uuid == service[i].uuid && At(s, service[i].handle).section == 0
    && ((forall j | i < j < n :: service[j].uuid != service[i].uuid) ==>
          service[i].uuid in s.attributes && s.attributes[service[i].uuid] == service[i].handle)
  }

  lemma {:induction false} FilingFiles(s: State, service: seq<G.Element>, p: Pending, n: nat, i: nat)
    requires Paired(p) && Answers(service, p.elements) && s.controlled == map[] && 1 <= i < n <= |service|
    ensures FiledAt(FiledUpTo(s, service, p.blobIndex, n).s, service, i, n)
    decreases n
  {
    FilingLinks(s, service, p, n - 1);
    assert p.elements[n - 1].kind == service[n - 1].kind;
    if i < n - 1 {
      FilingFiles(s, service, p, n - 1, i);
      assert service[i].handle != service[n - 1].handle;
      KeepsFiled(FiledUpTo(s, service, p.blobIndex, n - 1), service, i, n, n - 1 in p.blobIndex);
    }
  }

  lemma {:induction false} KeepsFiled(f: Filing, service: seq<G.Element>, i: nat, n: nat, isControl: bool)
    requires i < n - 1 && n <= |service| && FiledAt(f.s, service, i, n - 1)
    requires service[i].handle != service[n - 1].handle
    ensures FiledAt(Filed(f, service[n - 1], isControl).s, service, i, n)
  {
  }

  /** The identifiers of a service, all different, and the handle of one of them. */
  predicate Names(service: seq<G.Element>, id: Uuid, handle: int)
  {
    && (forall x, y | 1 <= x < y < |service| :: service[x].uuid != service[y].uuid)
    && exists k | 1 <= k < |service| :: service[k].uuid == id && service[k].handle == handle
  }

  /** What is filed of a declared blob: its identifier leads to its value attribute, which the
      attribute declared with it controls. */
  lemma {:induction false} DeclaredBlobIsFiled(
    s: State, app: Uuid, ds: seq<Declaration>, service: seq<G.Element>, i: nat, control: int)
    requires s.controlled == map[] && Answers(service, DeclaredAll(app, ds).elements) && i < |ds| && ds[i].Blob?
    requires Names(service, ds[i].control, control)
    ensures var filed := FiledUpTo(s, service, DeclaredAll(app, ds).blobIndex, |service|).s;
            var value := HandleOf(filed, ds[i].uuid);
            Controls(filed, control, value) && At(filed, value).uuid == ds[i].uuid
  {
    BlobsAssociated(s, app, ds, service, i);
    DeclarationsPaired(app, ds);
    FilingFiles(s, service, DeclaredAll(app, ds), |service|, Position(ds, i));
  }

  /** Blobs work as a whole.  Declare any characteristics and blobs with identifiers of their own,
      file the handles the stack assigns, set the value of a blob by its identifier, and read it
      through the control attribute declared with it: a client that is done holds that value if
      and only if 256 sections are enough. */
  lemma {:induction false} DeclaredBlobIsFetched(
    s: State, app: Uuid, ds: seq<Declaration>, service: seq<G.Element>, i: nat, filed: State, control: int,
    blob: seq<Byte>, size: nat, turns: seq<Turn>)
    requires s.controlled == map[] && Answers(service, DeclaredAll(app, ds).elements) && i < |ds| && ds[i].Blob?
    requires Names(service, ds[i].control, control)
    requires filed == FiledUpTo(s, service, DeclaredAll(app, ds).blobIndex, |service|).s
    requires var value := HandleOf(filed, ds[i].uuid);
             AllAllowed(Begin(AfterSet(filed, ds[i].uuid, blob), control, value, size), control, value, turns)
    ensures var value := HandleOf(filed, ds[i].uuid);
            var end := Fetch(Begin(AfterSet(filed, ds[i].uuid, blob), control, value, size), control, value, turns);
            && end.got <= blob
            && (Done(end, value) ==> (end.got == blob <==> |blob| <= 256 * 512))
  {
    DeclaredBlobIsFiled(s, app, ds, service, i, control);
    SetIsFetched(filed, ds[i].uuid, blob, control, size, turns);
  }
}
