/**
  The room service as the controller sees it: a store of room metadata that can
  be looked up by id and listed, and the two remote calls to the media platform.
  Only what the controller's calls imply is stated: lookups see saved records,
  and the listing holds every stored room exactly once, in an order left open.
*/
module Service {
  import opened Wrappers
  import opened Dto

  /** One call that changes something, here or on the media platform: provisioning, saving or issuing a token. */
  datatype ServiceCall =
    | CreateRoomOnLiveKit(roomId: string, maxParticipants: real)
    | SaveRoomMetadata(metadata: RoomMetadata)
    | CreateToken(roomName: string, userName: string)

  /** The ids of a sequence of rooms. */
  function IdsOf(rooms: seq<RoomMetadata>): set<string> {
    set i | 0 <= i < |rooms| :: rooms[i].roomId
  }

  /** No id occurs twice in `rooms`. */
  predicate DistinctIds(rooms: seq<RoomMetadata>) {
    forall i, j :: 0 <= i < j < |rooms| ==> rooms[i].roomId != rooms[j].roomId
  }

  /** A run of rooms with distinct ids has as many ids as rooms. */
  lemma {:induction false} DistinctIdsCount(rooms: seq<RoomMetadata>)
    requires DistinctIds(rooms)
    ensures |IdsOf(rooms)| == |rooms|
  {
    if rooms != [] {
      var init, last := rooms[..|rooms| - 1], rooms[|rooms| - 1];
      assert DistinctIds(init);
      DistinctIdsCount(init);
      assert IdsOf(rooms) == IdsOf(init) + {last.roomId};
      assert last.roomId !in IdsOf(init);
    }
  }

  /** Appending a room adds exactly its id. */
  lemma IdsOfAppend(rooms: seq<RoomMetadata>, m: RoomMetadata)
    ensures IdsOf(rooms + [m]) == IdsOf(rooms) + {m.roomId}
  {
    var s := rooms + [m];
    assert s[|rooms|].roomId == m.roomId;
    forall id | id in IdsOf(rooms) ensures id in IdsOf(s) {
      var i :| 0 <= i < |rooms| && rooms[i].roomId == id;
      assert s[i] == rooms[i];
    }
  }

  class RoomService {
    /** The stored metadata, by room id. */
    var rooms: map<string, RoomMetadata>
    /** What `getAllRooms` returns. */
    var listing: seq<RoomMetadata>
    /** Every provisioning, save and token call made on this service so far, oldest first; reads are not recorded. */
    ghost var trace: seq<ServiceCall>

    /**
      Each record is stored under its own id, and the listing holds every stored
      record exactly once.
    */
    ghost predicate Valid()
      reads this
    {
      (forall id | id in rooms :: rooms[id].roomId == id) &&
      DistinctIds(listing) &&
      IdsOf(listing) == rooms.Keys &&
      (forall i | 0 <= i < |listing| :: listing[i].roomId in rooms && rooms[listing[i].roomId] == listing[i])
    }

    /** A service that has stored nothing and recorded no call. */
    constructor ()
      ensures Valid()
      ensures rooms == map[] && listing == [] && trace == []
    {
      rooms, listing, trace := map[], [], [];
    }

    /**
      Asks the media platform to create the room; `outcome` is what the remote
      call yields. The store is not touched.
    */
    method CreateRoomOnLiveKit(roomId: string, maxParticipants: real, outcome: Outcome<string>)
      returns (o: Outcome<string>)
      modifies this`trace
      ensures o == outcome
      ensures trace == old(trace) + [ServiceCall.CreateRoomOnLiveKit(roomId, maxParticipants)]
    {
      o := outcome;
      trace := trace + [ServiceCall.CreateRoomOnLiveKit(roomId, maxParticipants)];
    }

    /**
      Asks the media platform to sign an access token; `outcome` is what the
      remote call yields. The store is not touched.
    */
    method CreateToken(roomName: string, userName: string, outcome: Result<string, string>)
      returns (r: Result<string, string>)
      modifies this`trace
      ensures r == outcome
      ensures trace == old(trace) + [ServiceCall.CreateToken(roomName, userName)]
    {
      r := outcome;
      trace := trace + [ServiceCall.CreateToken(roomName, userName)];
    }

    /**
      Stores a record under an id not yet in use. The lookup gains exactly that
      entry and the listing gains exactly that record; where in the listing is
      left open.
    */
    method SaveRoomMetadata(metadata: RoomMetadata)
      requires Valid()
      requires metadata.roomId !in rooms
      modifies this`rooms, this`listing, this`trace
      ensures Valid()
      ensures rooms == old(rooms)[metadata.roomId := metadata]
      ensures multiset(listing) == multiset(old(listing)) + multiset{metadata}
      ensures trace == old(trace) + [ServiceCall.SaveRoomMetadata(metadata)]
    {
      IdsOfAppend(listing, metadata);
      rooms := rooms[metadata.roomId := metadata];
      listing := listing + [metadata];
      trace := trace + [ServiceCall.SaveRoomMetadata(metadata)];
    }

    /** The record stored under `roomId`, or nothing when there is none. */
    method GetRoomMetadata(roomId: string) returns (r: Option<RoomMetadata>)
      ensures r.Some? <==> roomId in rooms
      ensures r.Some? ==> r.value == rooms[roomId]
    {
      r := if roomId in rooms then Some(rooms[roomId]) else None;
    }

    /** Every stored record, each once. */
    method GetAllRooms() returns (all: seq<RoomMetadata>)
      requires Valid()
      ensures all == listing
      ensures |all| == |rooms|
      ensures IdsOf(all) == rooms.Keys
      ensures forall i | 0 <= i < |all| :: all[i].roomId in rooms && rooms[all[i].roomId] == all[i]
    {
      all := listing;
      DistinctIdsCount(all);
    }
  }
}
