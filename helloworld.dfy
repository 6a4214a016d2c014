/**
 * The services of the helloworld test crate: the greeter, and the to-do list
 * kept in a map from item id to item.
 */
module HelloWorld {
  import opened Wrappers
  import opened Primitives
  import Tonic

  datatype FabricRequest = FabricRequest(fabricName: string)
  datatype FabricResponse = FabricResponse(fabricMessage: string)

  const Greeting: string := "Hello: "

  /** `say_hello`: always succeeds, with "Hello: " followed by the name. */
  function SayHello(request: FabricRequest): (r: Result<FabricResponse, Tonic.Status>)
    ensures r.Ok?
    ensures |r.value.fabricMessage| == |Greeting| + |request.fabricName|
    ensures r.value.fabricMessage[..|Greeting|] == Greeting
    ensures r.value.fabricMessage[|Greeting|..] == request.fabricName
  {
    var msgReply := Greeting + request.fabricName;
    Ok(FabricResponse(msgReply))
  }

  /** Different names get different greetings. */
  lemma SayHelloInjective(a: FabricRequest, b: FabricRequest)
    requires SayHello(a) == SayHello(b)
    ensures a == b
  {
    assert a.fabricName == SayHello(a).value.fabricMessage[|Greeting|..];
  }

  /** The wire message `Item` of the todolist package. */
  datatype ProtoItem = ProtoItem(id: int32, description: string, completed: bool)

  /** The service's own item record. */
  datatype Item = Item(id: int32, description: string, completed: bool)

  function IntoProto(item: Item): ProtoItem
  {
    ProtoItem(item.id, item.description, item.completed)
  }

  function FromProto(proto: ProtoItem): Item
  {
    Item(proto.id, proto.description, proto.completed)
  }

  /** The two conversions are inverse to each other and keep the id. */
  lemma ProtoConversionsInverse(item: Item, proto: ProtoItem)
    ensures FromProto(IntoProto(item)) == item
    ensures IntoProto(FromProto(proto)) == proto
    ensures IntoProto(item).id == item.id && FromProto(proto).id == proto.id
  {
  }

  datatype FindRequest = FindRequest
  datatype FindResponse = FindResponse(items: seq<ProtoItem>)
  datatype AddOneRequest = AddOneRequest(payload: Option<ProtoItem>)
  datatype AddOneResponse = AddOneResponse(payload: Option<ProtoItem>)
  datatype DeleteOneRequest = DeleteOneRequest(id: int32)
  datatype DeleteOneResponse = DeleteOneResponse(payload: Option<ProtoItem>)

  const EmptyPayload: string := "empty payload"
  const AlreadyExist: string := "entry already exist"
  const IdNotFound: string := "id not found"

  /** `TodoSvcImpl`: the entries, keyed by id. */
  class TodoSvcImpl {
    var entries: map<int32, Item>

    /** Every entry is stored under its own id. */
    predicate Valid()
      reads this
    {
      forall id :: id in entries ==> entries[id].id == id
    }

    /** `TodoSvcImpl::default()`. */
    constructor ()
      ensures Valid() && entries == map[]
    {
      entries := map[];
    }

    /**
     * `find`: every entry once, in no particular order; no two items share an id.
     */
    method Find() returns (items: seq<Item>)
      requires Valid()
      ensures |items| == |entries|
      ensures forall x :: x in items <==> x in entries.Values
      ensures forall i, j :: 0 <= i < j < |items| ==> items[i].id != items[j].id
    {
      items := [];
      var remaining := entries.Keys;
      ghost var taken: seq<int32> := [];
      while remaining != {}
        invariant remaining <= entries.Keys
        invariant |taken| == |items|
        invariant forall i :: 0 <= i < |taken| ==> taken[i] in entries && taken[i] !in remaining && items[i] == entries[taken[i]]
        invariant forall k :: k in entries ==> k in remaining || k in taken
        invariant forall i, j :: 0 <= i < j < |taken| ==> taken[i] != taken[j]
        invariant |remaining| + |items| == |entries.Keys|
        decreases |remaining|
      {
        var id :| id in remaining;
        items := items + [entries[id]];
        taken := taken + [id];
        remaining := remaining - {id};
      }
      assert |entries| == |entries.Keys|;
      forall x | x in entries.Values
        ensures x in items
      {
        var k :| k in entries && entries[k] == x;
        var i :| 0 <= i < |taken| && taken[i] == k;
        assert items[i] == x;
      }
    }

    /** `add_one`: true and stored when the id is new; false and nothing changes otherwise. */
    method AddOne(item: Item) returns (added: bool)
      requires Valid()
      modifies this
      ensures Valid()
      ensures added <==> item.id !in old(entries)
      ensures entries == if added then old(entries)[item.id := item] else old(entries)
    {
      if item.id in entries {
        return false;
      }
      entries := entries[item.id := item];
      added := true;
    }

    /** `delete_one`: the removed entry, or None when the id is absent; the id is gone after. */
    method DeleteOne(id: int32) returns (r: Option<Item>)
      requires Valid()
      modifies this
      ensures Valid()
      ensures r == if id in old(entries) then Some(old(entries)[id]) else None
      ensures entries == old(entries) - {id}
    {
      if id !in entries {
        return None;
      }
      r := Some(entries[id]);
      entries := entries - {id};
    }

    /** The `find` RPC: every entry, converted to its wire form. */
    method FindRpc(request: FindRequest) returns (r: Result<FindResponse, Tonic.Status>)
      requires Valid()
      ensures r.Ok?
      ensures |r.value.items| == |entries|
      ensures forall p :: p in r.value.items <==> FromProto(p) in entries.Values
    {
      var found := Find();
      var items := MapSeq(found, IntoProto);
      forall p | p in items
        ensures FromProto(p) in entries.Values
      {
        var i :| 0 <= i < |items| && items[i] == p;
        assert FromProto(p) == found[i];
      }
      forall p | FromProto(p) in entries.Values
        ensures p in items
      {
        var i :| 0 <= i < |found| && found[i] == FromProto(p);
        assert items[i] == p;
      }
      r := Ok(FindResponse(items));
    }

    /**
     * The `add_one` RPC: no payload is InvalidArgument, a known id AlreadyExists;
     * otherwise the item is stored and echoed back.
     */
    method AddOneRpc(request: AddOneRequest) returns (r: Result<AddOneResponse, Tonic.Status>)
      requires Valid()
      modifies this
      ensures Valid()
      ensures request.payload.None? ==>
                r == Err(Tonic.Status(Tonic.InvalidArgument, EmptyPayload)) && entries == old(entries)
      ensures request.payload.Some? && request.payload.value.id in old(entries) ==>
                r == Err(Tonic.Status(Tonic.AlreadyExists, AlreadyExist)) && entries == old(entries)
      ensures request.payload.Some? && request.payload.value.id !in old(entries) ==>
                && r == Ok(AddOneResponse(request.payload))
                && entries == old(entries)[request.payload.value.id := FromProto(request.payload.value)]
    {
      if request.payload.None? {
        return Err(Tonic.Status(Tonic.InvalidArgument, EmptyPayload));
      }
      var item := request.payload.value;
      var ok := AddOne(FromProto(item));
      if !ok {
        return Err(Tonic.Status(Tonic.AlreadyExists, AlreadyExist));
      }
      r := Ok(AddOneResponse(Some(item)));
    }

    /** The `delete_one` RPC: the removed item in wire form, or NotFound. */
    method DeleteOneRpc(request: DeleteOneRequest) returns (r: Result<DeleteOneResponse, Tonic.Status>)
      requires Valid()
      modifies this
      ensures Valid()
      ensures request.id in old(entries) ==> r == Ok(DeleteOneResponse(Some(IntoProto(old(entries)[request.id]))))
      ensures request.id !in old(entries) ==> r == Err(Tonic.Status(Tonic.NotFound, IdNotFound))
      ensures entries == old(entries) - {request.id}
    {
      var item := DeleteOne(request.id);
      match item
      case Some(i) =>
        r := Ok(DeleteOneResponse(Some(IntoProto(i))));
      case None =>
        r := Err(Tonic.Status(Tonic.NotFound, IdNotFound));
    }
  }

  /**
   * The to-do session of the crate's test: add ids 1 and 2, find, delete 1,
   * find. The adds echo their ids, the finds see two and then one item, and the
   * delete returns item 1.
   */
  method TodoSession() returns (firstId: int32, secondId: int32, foundBefore: nat, deletedId: int32, foundAfter: nat)
    ensures firstId == 1 && secondId == 2
    ensures foundBefore == 2 && deletedId == 1 && foundAfter == 1
  {
    var svc := new TodoSvcImpl();
    var add1 := svc.AddOneRpc(AddOneRequest(Some(ProtoItem(1, "first", false))));
    firstId := add1.value.payload.value.id;
    var add2 := svc.AddOneRpc(AddOneRequest(Some(ProtoItem(2, "second", false))));
    secondId := add2.value.payload.value.id;
    var find1 := svc.FindRpc(FindRequest);
    foundBefore := |find1.value.items|;
    var del := svc.DeleteOneRpc(DeleteOneRequest(1));
    deletedId := del.value.payload.value.id;
    var find2 := svc.FindRpc(FindRequest);
    foundAfter := |find2.value.items|;
  }
}
