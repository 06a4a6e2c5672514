/** The old GATT server as it updates its tables; Blobs gives each method's meaning. */
module BlobServers {
  import opened Blobs
  import G = GattServices

  class BlobServer {
    var uuidToAttribute: map<Uuid, int>
    var characteristics: map<int, Characteristic>
    var controlledBlobs: map<int, int>
    var lastWrite: Uuid
    var pipe: seq<Uuid>
    var pendingDecl: seq<G.Element>
    var blobIndex: set<nat>

    function Value(): State
      reads this
    {
      State(uuidToAttribute, characteristics, controlledBlobs, lastWrite, pipe)
    }

    constructor (app: Uuid)
      ensures Value() == State(map[], map[], map[], EMPTY_UUID, [])
      ensures Pending(pendingDecl, blobIndex) == DeclaredAll(app, [])
    {
      uuidToAttribute, characteristics, controlledBlobs := map[], map[], map[];
      lastWrite, pipe, blobIndex := EMPTY_UUID, [], {};
      pendingDecl := [G.Element(G.PrimaryService, app, 0, 0, 0)];
    }

    method AddCharacteristic(uuid: Uuid, properties: int, permissions: int)
      modifies `pendingDecl
      ensures Pending(pendingDecl, blobIndex) ==
              Declared(old(Pending(pendingDecl, blobIndex)), Plain(uuid, properties, permissions))
    {
      pendingDecl := pendingDecl + [G.Element(G.CharacteristicKind, uuid, 0, properties, permissions)];
    }

    method AddBlob(id: Uuid, controlId: Uuid, properties: int, permissions: int)
      modifies `pendingDecl, `blobIndex
      ensures Pending(pendingDecl, blobIndex) ==
              Declared(old(Pending(pendingDecl, blobIndex)), Blob(id, controlId, properties, permissions))
    {
      AddCharacteristic(id, properties, permissions);
      blobIndex := blobIndex + {|pendingDecl|};
      AddCharacteristic(controlId, READ_WRITE_PROPERTIES, READ_WRITE_PERMISSIONS);
    }

    /** The HAL hands back the service with its handles. */
    method ServiceAdded(service: seq<G.Element>)
      requires |service| >= 1
      modifies `uuidToAttribute, `characteristics, `controlledBlobs, `pendingDecl, `blobIndex
      ensures Value() == FiledUpTo(old(Value()), service, old(blobIndex), |service|).s
      ensures pendingDecl == [] && blobIndex == {}
    {
      var previous, previousProperties := 0, 0;
      var i := 1;
      while i < |service|
        invariant 1 <= i <= |service| && blobIndex == old(blobIndex)
        invariant Filing(Value(), previous, previousProperties) == FiledUpTo(old(Value()), service, blobIndex, i)
      {
        var el := service[i];
        if el.kind == G.CharacteristicKind {
          FileCharacteristic(el, i in blobIndex, previous, previousProperties);
          previous, previousProperties := el.handle, el.properties;
        }
        i := i + 1;
      }
      pendingDecl, blobIndex := [], {};
    }

    method FileCharacteristic(el: G.Element, isControl: bool, previous: int, previousProperties: int)
      requires el.kind == G.CharacteristicKind
      modifies `uuidToAttribute, `characteristics, `controlledBlobs
      ensures Filing(Value(), el.handle, el.properties) ==
              Filed(Filing(old(Value()), previous, previousProperties), el, isControl)
    {
      uuidToAttribute := uuidToAttribute[el.uuid := el.handle];
      Put(el.handle, At(Value(), el.handle).(uuid := el.uuid, section := 0));
      if isControl {
        controlledBlobs := controlledBlobs[el.handle := previous];
        Put(previous, At(Value(), previous).(notify := HasNotify(previousProperties)));
        Put(el.handle, At(Value(), el.handle).(nextBlob := [0], pending := true, section := 0, notify := false));
      }
    }

    method Put(handle: int, ch: Characteristic)
      modifies `characteristics
      ensures characteristics == old(characteristics)[handle := ch]
    {
      characteristics := characteristics[handle := ch];
    }

    method RequestRead(handle: int, offset: nat) returns (response: seq<Byte>)
      modifies `characteristics
      ensures Value() == AfterRead(old(Value()), handle, offset)
      ensures response == Answer(old(Value()), handle, offset) && |response| <= 512
    {
      var ch := At(Value(), handle);
      if ch.pending && offset == 0 && ch.section == 0 {
        ch := ch.(blob := ch.nextBlob, nextBlob := ch.blob, pending := false);
      }
      Put(handle, ch);
      var blobOffset := Least(|ch.blob|, ch.section * MAX_ATTRIBUTE_SIZE);
      var remaining := |ch.blob| - blobOffset;
      var size := Least(MAX_ATTRIBUTE_SIZE, remaining);
      response := [];
      if offset < size {
        response := ch.blob[blobOffset + offset..blobOffset + size];
      }
    }

    method RequestWrite(handle: int, offset: nat, value: seq<Byte>, isPrep: bool)
      modifies `characteristics, `lastWrite, `pipe
      ensures Value() == AfterWrite(old(Value()), handle, offset, value, isPrep)
    {
      var ch := At(Value(), handle);
      var resized := Resized(ch.blob, offset + |value|);
      ch := ch.(blob := resized[..offset] + value);
      Put(handle, ch);
      if handle in controlledBlobs && |ch.blob| == 1 {
        var target := controlledBlobs[handle];
        Put(target, At(Value(), target).(section := ch.blob[0]));
      } else if !isPrep {
        pipe := pipe + [ch.uuid];
      } else {
        lastWrite := ch.uuid;
      }
    }

    method RequestExecWrite(exec: bool)
      modifies `pipe
      ensures Value() == AfterExec(old(Value()), exec)
    {
      if !exec {
        return;
      }
      pipe := pipe + [lastWrite];
    }

    method SetCharacteristicValue(id: Uuid, value: seq<Byte>)
      modifies `uuidToAttribute, `characteristics
      ensures Value() == AfterSet(old(Value()), id, value)
    {
      var handle := if id in uuidToAttribute then uuidToAttribute[id] else 0;
      uuidToAttribute := uuidToAttribute[id := handle];
      Put(handle, At(Value(), handle).(nextBlob := value, pending := true));
    }
  }
}
