/** A GATT service as a tree, and as the flat list of attributes the HAL works with. */
module GattServices {

  type Uuid = string

  datatype Descriptor = Descriptor(handle: int, uuid: Uuid, permissions: int)

  datatype Characteristic =
    Characteristic(handle: int, uuid: Uuid, properties: int, permissions: int, descriptors: seq<Descriptor>)

  datatype Service =
    Service(handle: int, primary: bool, uuid: Uuid, characteristics: seq<Characteristic>, included: seq<Service>)

  datatype Kind = PrimaryService | SecondaryService | CharacteristicKind | DescriptorKind | IncludedService

  /** btgatt_db_element_t; fields that AddService leaves out are zero. */
  datatype Element = Element(kind: Kind, uuid: Uuid, handle: int, properties: int, permissions: int)

  // ----- AddService

  function OfDescriptor(d: Descriptor): Element
  {
    Element(DescriptorKind, d.uuid, 0, 0, d.permissions)
  }

  function OfCharacteristic(c: Characteristic): Element
  {
    Element(CharacteristicKind, c.uuid, 0, c.properties, c.permissions)
  }

  function FlatDescriptors(ds: seq<Descriptor>): seq<Element>
  {
    if ds == [] then [] else FlatDescriptors(ds[..|ds| - 1]) + [OfDescriptor(ds[|ds| - 1])]
  }

  function FlatCharacteristics(cs: seq<Characteristic>): seq<Element>
  {
    if cs == [] then [] else
      var c := cs[|cs| - 1];
      FlatCharacteristics(cs[..|cs| - 1]) + [OfCharacteristic(c)] + FlatDescriptors(c.descriptors)
  }

  function FlatIncluded(included: seq<Service>): seq<Element>
  {
    if included == [] then [] else
      FlatIncluded(included[..|included| - 1]) + [Element(IncludedService, "", included[|included| - 1].handle, 0, 0)]
  }

  function Flat(s: Service): seq<Element>
  {
    [Element(if s.primary then PrimaryService else SecondaryService, s.uuid, 0, 0, 0)]
    + FlatCharacteristics(s.characteristics) + FlatIncluded(s.included)
  }

  /** The inner loop of AddService. */
  method AddDescriptors(svc: seq<Element>, ds: seq<Descriptor>) returns (r: seq<Element>)
    ensures r == svc + FlatDescriptors(ds)
  {
    r := svc;
    for j := 0 to |ds|
      invariant r == svc + FlatDescriptors(ds[..j])
    {
      assert ds[..j + 1][..j] == ds[..j];
      r := r + [OfDescriptor(ds[j])];
    }
    assert ds[..|ds|] == ds;
  }

  /** The element list AddService passes to the HAL. */
  method Flatten(service: Service) returns (svc: seq<Element>)
    ensures svc == Flat(service)
  {
    svc := [Element(if service.primary then PrimaryService else SecondaryService, service.uuid, 0, 0, 0)];
    ghost var head := svc;
    var cs := service.characteristics;
    for i := 0 to |cs|
      invariant svc == head + FlatCharacteristics(cs[..i])
    {
      assert cs[..i + 1][..i] == cs[..i];
      svc := svc + [OfCharacteristic(cs[i])];
      svc := AddDescriptors(svc, cs[i].descriptors);
    }
    assert cs[..|cs|] == cs;
    ghost var body := svc;
    for i := 0 to |service.included|
      invariant svc == body + FlatIncluded(service.included[..i])
    {
      assert service.included[..i + 1][..i] == service.included[..i];
      svc := svc + [Element(IncludedService, "", service.included[i].handle, 0, 0)];
    }
    assert service.included[..|service.included|] == service.included;
  }

  // ----- ServiceAddedCallback

  function Absorb(cs: seq<Characteristic>, e: Element): seq<Characteristic>
  {
    match e.kind
    case CharacteristicKind => cs + [Characteristic(e.handle, e.uuid, e.properties, e.permissions, [])]
    case DescriptorKind =>
      if cs == [] then cs else
        var n, last := |cs| - 1, cs[|cs| - 1];
        cs[n := last.(descriptors := last.descriptors + [Descriptor(e.handle, e.uuid, e.permissions)])]
    case _ => cs
  }

  function AbsorbAll(cs: seq<Characteristic>, elements: seq<Element>): seq<Characteristic>
  {
    if elements == [] then cs else
      var n := |elements| - 1;
      Absorb(AbsorbAll(cs, elements[..n]), elements[n])
  }

  function Rebuilt(svc: seq<Element>): Service
    requires svc != []
  {
    Service(svc[0].handle, true, svc[0].uuid, AbsorbAll([], svc[1..]), [])
  }

  /** Every descriptor comes after a characteristic it can belong to. */
  ghost predicate Orderly(elements: seq<Element>)
  {
    forall i | 0 <= i < |elements| && elements[i].kind.DescriptorKind? ::
      exists j :: 0 <= j < i && elements[j].kind.CharacteristicKind?
  }

  /** The service ServiceAddedCallback reports. */
  method Rebuild(svc: seq<Element>) returns (service: Service)
    requires svc != [] && Orderly(svc[1..])
    ensures service == Rebuilt(svc)
  {
    var cs: seq<Characteristic> := [];
    ghost var elements := svc[1..];
    for i := 1 to |svc|
      invariant cs == AbsorbAll([], elements[..i - 1])
      invariant (exists j :: 0 <= j < i - 1 && elements[j].kind.CharacteristicKind?) ==> cs != []
    {
      var curr := svc[i];
      assert elements[..i][..i - 1] == elements[..i - 1] && elements[i - 1] == curr;
      if curr.kind == CharacteristicKind {
        cs := cs + [Characteristic(curr.handle, curr.uuid, curr.properties, curr.permissions, [])];
      } else if curr.kind == DescriptorKind {
        var back := cs[|cs| - 1];
        var added := Descriptor(curr.handle, curr.uuid, curr.permissions);
        cs := cs[|cs| - 1 := back.(descriptors := back.descriptors + [added])];
      }
    }
    assert elements[..|svc| - 1] == elements;
    service := Service(svc[0].handle, true, svc[0].uuid, cs, []);
  }

  // ----- Handles set aside, the tree comes back

  function NoHandles(cs: seq<Characteristic>): (r: seq<Characteristic>)
    ensures |r| == |cs|
  {
    seq(|cs|, i requires 0 <= i < |cs| => NoHandle(cs[i]))
  }

  function NoHandle(c: Characteristic): Characteristic
  {
    c.(handle := 0, descriptors := Bare(c.descriptors))
  }

  function Bare(ds: seq<Descriptor>): (r: seq<Descriptor>)
    ensures |r| == |ds|
  {
    seq(|ds|, i requires 0 <= i < |ds| => ds[i].(handle := 0))
  }

  function WithHandles(elements: seq<Element>, handles: seq<int>): (r: seq<Element>)
    requires |handles| == |elements|
    ensures |r| == |elements|
  {
    seq(|elements|, i requires 0 <= i < |elements| => elements[i].(handle := handles[i]))
  }

  /** The handles of a list of characteristics, in the order of the attributes. */
  function Handles(cs: seq<Characteristic>): seq<int>
  {
    if cs == [] then [] else
      var c := cs[|cs| - 1];
      Handles(cs[..|cs| - 1]) + [c.handle] + DescriptorHandles(c.descriptors)
  }

  function DescriptorHandles(ds: seq<Descriptor>): seq<int>
  {
    if ds == [] then [] else DescriptorHandles(ds[..|ds| - 1]) + [ds[|ds| - 1].handle]
  }

  lemma {:induction false} AbsorbConcat(cs: seq<Characteristic>, a: seq<Element>, b: seq<Element>)
    ensures AbsorbAll(cs, a + b) == AbsorbAll(AbsorbAll(cs, a), b)
  {
    if b == [] {
      assert a + b == a;
    } else {
      var n := |b| - 1;
      AbsorbConcat(cs, a, b[..n]);
      assert (a + b)[..|a| + n] == a + b[..n];
    }
  }

  /** Setting handles aside commutes with one element. */
  lemma {:induction false} AbsorbNoHandle(cs: seq<Characteristic>, e: Element, h: int)
    ensures NoHandles(Absorb(cs, e.(handle := h))) == Absorb(NoHandles(cs), e.(handle := 0))
  {
    assert Bare([]) == [];
    if e.kind.DescriptorKind? && cs != [] {
      var n := |cs| - 1;
      var lhs, rhs := NoHandles(Absorb(cs, e.(handle := h))), Absorb(NoHandles(cs), e.(handle := 0));
      assert lhs[n].descriptors == rhs[n].descriptors;
      assert lhs[n] == rhs[n];
    }
  }

  lemma {:induction false} AbsorbAllNoHandles(elements: seq<Element>, handles: seq<int>)
    requires |handles| == |elements|
    requires forall i | 0 <= i < |elements| && !elements[i].kind.IncludedService? :: elements[i].handle == 0
    ensures NoHandles(AbsorbAll([], WithHandles(elements, handles))) == AbsorbAll([], elements)
  {
    if elements != [] {
      var n := |elements| - 1;
      AbsorbAllNoHandles(elements[..n], handles[..n]);
      assert WithHandles(elements, handles)[..n] == WithHandles(elements[..n], handles[..n]);
      AbsorbNoHandle(AbsorbAll([], WithHandles(elements[..n], handles[..n])), elements[n], handles[n]);
      var front := AbsorbAll([], elements[..n]);
      assert Absorb(front, elements[n].(handle := 0)) == Absorb(front, elements[n]);
    }
  }

  lemma {:induction false} AbsorbLast(cs: seq<Characteristic>, elements: seq<Element>, e: Element)
    ensures AbsorbAll(cs, elements + [e]) == Absorb(AbsorbAll(cs, elements), e)
  {
    assert (elements + [e])[..|elements|] == elements;
  }

  lemma {:induction false} AbsorbDescriptor(cs: seq<Characteristic>, c: Characteristic, d: Descriptor)
    ensures Absorb(cs + [c], OfDescriptor(d)) == cs + [c.(descriptors := c.descriptors + [d.(handle := 0)])]
  {
  }

  lemma {:induction false} BareLast(ds: seq<Descriptor>, d: Descriptor)
    ensures Bare(ds + [d]) == Bare(ds) + [d.(handle := 0)]
  {
  }

  lemma {:induction false} AbsorbDescriptors(cs: seq<Characteristic>, c: Characteristic, ds: seq<Descriptor>)
    requires c.descriptors == []
    ensures AbsorbAll(cs + [c], FlatDescriptors(ds)) == cs + [c.(descriptors := Bare(ds))]
  {
    if ds == [] {
      assert Bare(ds) == [];
    } else {
      var n, d := |ds| - 1, ds[|ds| - 1];
      var front := FlatDescriptors(ds[..n]);
      AbsorbDescriptors(cs, c, ds[..n]);
      assert AbsorbAll(cs + [c], FlatDescriptors(ds)) == Absorb(AbsorbAll(cs + [c], front), OfDescriptor(d)) by {
        AbsorbLast(cs + [c], front, OfDescriptor(d));
      }
      AbsorbDescriptor(cs, c.(descriptors := Bare(ds[..n])), d);
      assert Bare(ds) == Bare(ds[..n]) + [d.(handle := 0)] by {
        BareLast(ds[..n], d);
        assert ds == ds[..n] + [d];
      }
    }
  }

  /** A flattened list of characteristics is absorbed into the same list. */
  lemma {:induction false} AbsorbFlat(cs: seq<Characteristic>)
    ensures AbsorbAll([], FlatCharacteristics(cs)) == NoHandles(cs)
  {
    if cs != [] {
      var n, c := |cs| - 1, cs[|cs| - 1];
      var front := FlatCharacteristics(cs[..n]);
      AbsorbFlat(cs[..n]);
      AbsorbConcat([], front + [OfCharacteristic(c)], FlatDescriptors(c.descriptors));
      assert (front + [OfCharacteristic(c)])[..|front|] == front;
      var bare := Characteristic(0, c.uuid, c.properties, c.permissions, []);
      AbsorbDescriptors(NoHandles(cs[..n]), bare, c.descriptors);
      assert NoHandles(cs) == NoHandles(cs[..n]) + [NoHandle(c)];
    }
  }

  lemma {:induction false} AbsorbIncluded(cs: seq<Characteristic>, included: seq<Service>)
    ensures AbsorbAll(cs, FlatIncluded(included)) == cs
  {
    if included != [] {
      var n := |included| - 1;
      AbsorbIncluded(cs, included[..n]);
      assert FlatIncluded(included)[..|FlatIncluded(included)| - 1] == FlatIncluded(included[..n]);
    }
  }

  // ----- The handles come in order

  lemma {:induction false} HandlesConcat(cs: seq<Characteristic>, c: Characteristic)
    ensures Handles(cs + [c]) == Handles(cs) + [c.handle] + DescriptorHandles(c.descriptors)
  {
    assert (cs + [c])[..|cs|] == cs;
  }

  /** An absorbed characteristic or descriptor adds its handle at the end. */
  lemma {:induction false} AbsorbHandle(cs: seq<Characteristic>, e: Element)
    requires e.kind.DescriptorKind? ==> cs != []
    ensures Handles(Absorb(cs, e)) ==
            Handles(cs) + if IsAttribute(e) then [e.handle] else []
  {
    if e.kind.CharacteristicKind? {
      HandlesConcat(cs, Characteristic(e.handle, e.uuid, e.properties, e.permissions, []));
    } else if e.kind.DescriptorKind? {
      var n, last := |cs| - 1, cs[|cs| - 1];
      var ds := last.descriptors + [Descriptor(e.handle, e.uuid, e.permissions)];
      assert ds[..|last.descriptors|] == last.descriptors;
      HandlesConcat(cs[..n], last.(descriptors := ds));
      assert Absorb(cs, e) == cs[..n] + [last.(descriptors := ds)];
    }
  }

  predicate IsAttribute(e: Element)
  {
    e.kind.CharacteristicKind? || e.kind.DescriptorKind?
  }

  function ElementHandles(elements: seq<Element>): (r: seq<int>)
    ensures |r| == |elements|
  {
    if elements == [] then [] else
      var n := |elements| - 1;
      ElementHandles(elements[..n]) + [elements[n].handle]
  }

  lemma {:induction false} AbsorbAllHandles(elements: seq<Element>)
    requires forall i | 0 <= i < |elements| :: IsAttribute(elements[i])
    requires elements != [] ==> elements[0].kind.CharacteristicKind?
    ensures Handles(AbsorbAll([], elements)) == ElementHandles(elements)
    ensures elements != [] ==> AbsorbAll([], elements) != []
  {
    if elements != [] {
      var n := |elements| - 1;
      AbsorbAllHandles(elements[..n]);
      assert IsAttribute(elements[n]);
      AbsorbNext(AbsorbAll([], elements[..n]), elements[n]);
    }
  }

  lemma {:induction false} HandlesGiven(elements: seq<Element>, handles: seq<int>)
    requires |handles| == |elements|
    ensures ElementHandles(WithHandles(elements, handles)) == handles
  {
    if elements != [] {
      var n := |elements| - 1;
      HandlesGiven(elements[..n], handles[..n]);
      assert WithHandles(elements, handles)[..n] == WithHandles(elements[..n], handles[..n]);
      assert handles == handles[..n] + [handles[n]];
    }
  }

  lemma {:induction false} AbsorbNext(cs: seq<Characteristic>, e: Element)
    requires IsAttribute(e) && (e.kind.DescriptorKind? ==> cs != [])
    ensures Handles(Absorb(cs, e)) == Handles(cs) + [e.handle] && Absorb(cs, e) != []
  {
    AbsorbHandle(cs, e);
  }

  lemma {:induction false} FlatDescriptorsKinds(ds: seq<Descriptor>)
    ensures forall i | 0 <= i < |FlatDescriptors(ds)| ::
              FlatDescriptors(ds)[i].kind.DescriptorKind? && FlatDescriptors(ds)[i].handle == 0
  {
    if ds != [] { FlatDescriptorsKinds(ds[..|ds| - 1]); }
  }

  lemma {:induction false} FlatCharacteristicsKinds(cs: seq<Characteristic>)
    ensures var es := FlatCharacteristics(cs);
            && (forall i | 0 <= i < |es| :: IsAttribute(es[i]) && es[i].handle == 0)
            && (es != [] ==> es[0].kind.CharacteristicKind?)
  {
    if cs != [] {
      var n, c := |cs| - 1, cs[|cs| - 1];
      FlatCharacteristicsKinds(cs[..n]);
      FlatDescriptorsKinds(c.descriptors);
    }
  }

  lemma {:induction false} FlatIncludedKinds(included: seq<Service>)
    ensures forall i | 0 <= i < |FlatIncluded(included)| :: FlatIncluded(included)[i].kind.IncludedService?
  {
    if included != [] { FlatIncludedKinds(included[..|included| - 1]); }
  }

  lemma {:induction false} IncludedInOrder(included: seq<Service>, i: nat)
    requires i < |included|
    ensures |FlatIncluded(included)| == |included|
    ensures FlatIncluded(included)[i].handle == included[i].handle
  {
    var n := |included| - 1;
    if n > 0 { IncludedInOrder(included[..n], if i < n then i else 0); }
  }

  /** The list starts with the service itself, primary or secondary as asked, goes on with its
      characteristics and descriptors, and ends with the handles of the included services. */
  lemma {:induction false} FlatTells(s: Service, i: nat)
    requires i < |Flat(s)|
    ensures var e, n := Flat(s)[i], |Flat(s)| - |s.included|;
            && n >= 1
            && (i == 0 ==> e.uuid == s.uuid && e.kind == if s.primary then PrimaryService else SecondaryService)
            && (0 < i < n ==> e.kind.CharacteristicKind? || e.kind.DescriptorKind?)
            && (n <= i ==> e.kind.IncludedService? && e.handle == s.included[i - n].handle)
  {
    var body, tail := FlatCharacteristics(s.characteristics), FlatIncluded(s.included);
    FlatCharacteristicsKinds(s.characteristics);
    FlatIncludedKinds(s.included);
    if s.included != [] {
      var n := 1 + |body|;
      IncludedInOrder(s.included, 0);
      IncludedInOrder(s.included, if n <= i then i - n else 0);
    }
  }

  // ----- The theorem

  /** Whatever handles the stack assigns to the flattened service, in order, rebuilding it
      recovers the characteristics with their uuids, properties, permissions and nested
      descriptors, and gives each attribute the handle assigned to it. */
  lemma {:induction false} RebuildFlattened(s: Service, handles: seq<int>)
    requires |handles| == |Flat(s)|
    ensures Orderly(WithHandles(Flat(s), handles)[1..])
    ensures var r := Rebuilt(WithHandles(Flat(s), handles));
            && r.uuid == s.uuid && r.handle == handles[0]
            && NoHandles(r.characteristics) == NoHandles(s.characteristics)
            && Handles(r.characteristics) == handles[1..1 + |FlatCharacteristics(s.characteristics)|]
            && r.primary && r.included == []
  {
    var body, tail := FlatCharacteristics(s.characteristics), FlatIncluded(s.included);
    var h := handles[1..];
    HandlesOfBody(s, handles);
    assert handles[1..1 + |body|] == h[..|body|];
    ShapeComesBack(s, h);
    HandlesComeBack(s, h);
  }

  lemma {:induction false} HandlesOfBody(s: Service, handles: seq<int>)
    requires |handles| == |Flat(s)|
    ensures WithHandles(Flat(s), handles)[1..] ==
            WithHandles(FlatCharacteristics(s.characteristics) + FlatIncluded(s.included), handles[1..])
  {
    HandlesOfRest(Flat(s), handles);
    RestOfConcat(Flat(s)[0], FlatCharacteristics(s.characteristics), FlatIncluded(s.included));
  }

  lemma {:induction false} HandlesOfRest(elements: seq<Element>, handles: seq<int>)
    requires |handles| == |elements| > 0
    ensures WithHandles(elements, handles)[1..] == WithHandles(elements[1..], handles[1..])
  {
  }

  lemma {:induction false} RestOfConcat(e: Element, a: seq<Element>, b: seq<Element>)
    ensures ([e] + a + b)[1..] == a + b
  {
  }

  lemma {:induction false} ShapeComesBack(s: Service, h: seq<int>)
    requires |h| == |FlatCharacteristics(s.characteristics) + FlatIncluded(s.included)|
    ensures NoHandles(AbsorbAll([], WithHandles(FlatCharacteristics(s.characteristics) + FlatIncluded(s.included), h)))
            == NoHandles(s.characteristics)
  {
    var body, tail := FlatCharacteristics(s.characteristics), FlatIncluded(s.included);
    FlatCharacteristicsKinds(s.characteristics);
    FlatIncludedKinds(s.included);
    AbsorbAllNoHandles(body + tail, h);
    AbsorbConcat([], body, tail);
    AbsorbFlat(s.characteristics);
    AbsorbIncluded(NoHandles(s.characteristics), s.included);
  }

  lemma {:induction false} HandlesComeBack(s: Service, h: seq<int>)
    requires |h| == |FlatCharacteristics(s.characteristics) + FlatIncluded(s.included)|
    ensures var es := WithHandles(FlatCharacteristics(s.characteristics) + FlatIncluded(s.included), h);
            Orderly(es) && Handles(AbsorbAll([], es)) == h[..|FlatCharacteristics(s.characteristics)|]
  {
    var body, tail := FlatCharacteristics(s.characteristics), FlatIncluded(s.included);
    FlatCharacteristicsKinds(s.characteristics);
    FlatIncludedKinds(s.included);
    var a, b := WithHandles(body, h[..|body|]), WithHandles(tail, h[|body|..]);
    assert WithHandles(body + tail, h) == a + b;
    AbsorbConcat([], a, b);
    IgnoreIncluded(AbsorbAll([], a), b);
    AbsorbAllHandles(a);
    HandlesGiven(body, h[..|body|]);
    OrderlyBody(a, b);
  }

  lemma {:induction false} IgnoreIncluded(cs: seq<Characteristic>, elements: seq<Element>)
    requires forall i | 0 <= i < |elements| :: elements[i].kind.IncludedService?
    ensures AbsorbAll(cs, elements) == cs
  {
    if elements != [] { IgnoreIncluded(cs, elements[..|elements| - 1]); }
  }

  lemma {:induction false} OrderlyBody(a: seq<Element>, b: seq<Element>)
    requires forall i | 0 <= i < |b| :: b[i].kind.IncludedService?
    requires a != [] ==> a[0].kind.CharacteristicKind?
    ensures Orderly(a + b)
  {
    forall i | 0 <= i < |a + b| && (a + b)[i].kind.DescriptorKind?
      ensures exists j :: 0 <= j < i && (a + b)[j].kind.CharacteristicKind?
    {
      assert i < |a|;
      assert (a + b)[0].kind.CharacteristicKind?;
    }
  }
}
