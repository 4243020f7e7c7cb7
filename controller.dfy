/**
  The HTTP handlers of the room controller: issuing a token, creating a room,
  fetching one room and listing all rooms. Each handler validates its input
  with JavaScript truthiness, fills in defaults with `||`, and calls the room
  service in a fixed order.
*/
module Controller {
  import opened Wrappers
  import opened Dto
  import opened Service
  import Js

  const DefaultMaxParticipants: real := 10.0
  const DefaultFrontendUrl: string := "http://localhost:3000"
  const DefaultLivekitUrl: string := "ws://localhost:7880"
  const RoomIdPrefix: string := "room-"
  const RoomPath: string := "/room/"
  /** Appended to the creator's name to title a room that was given no title. */
  const OwnRoomSuffix: string := "의 방"

  const TokenFieldsRequired: string := "roomName and userName are required"
  const UserNameRequired: string := "userName is required"
  const RoomNotFound: string := "Room not found"

  // ---------------------------------------------------------------- defaults

  /**
    `maxParticipants || 10`: a missing, zero or NaN capacity becomes 10; any
    other number, a negative or fractional one included, is kept as given.
  */
  function MaxParticipants(requested: Option<Js.Number>): (r: real)
    ensures Js.NumberTruthy(Some(Js.Finite(r)))
    ensures Js.NumberTruthy(requested) ==> r == requested.value.value
    ensures !Js.NumberTruthy(requested) ==> r == DefaultMaxParticipants
  {
    Js.NumberOr(requested, DefaultMaxParticipants)
  }

  /** `roomTitle || userName + "의 방"`. */
  function RoomTitle(requested: Option<string>, userName: string): (r: string)
    ensures Js.StringTruthy(requested) ==> r == requested.value
    ensures !Js.StringTruthy(requested) ==> r == userName + OwnRoomSuffix
    ensures r != ""
  {
    Js.StringOr(requested, userName + OwnRoomSuffix)
  }

  /** `description || ""`: a missing description is stored as the empty string. */
  function Description(requested: Option<string>): (r: string)
    ensures requested.Some? ==> r == requested.value
    ensures requested.None? ==> r == ""
  {
    Js.StringOr(requested, "")
  }

  /** `FRONTEND_URL || "http://localhost:3000"`. */
  function FrontendUrl(env: Env): (r: string)
    ensures Js.StringTruthy(env.frontendUrl) ==> r == env.frontendUrl.value
    ensures !Js.StringTruthy(env.frontendUrl) ==> r == DefaultFrontendUrl
    ensures r != ""
  {
    Js.StringOr(env.frontendUrl, DefaultFrontendUrl)
  }

  /** `LIVEKIT_URL || "ws://localhost:7880"`. */
  function LivekitUrl(env: Env): (r: string)
    ensures Js.StringTruthy(env.livekitUrl) ==> r == env.livekitUrl.value
    ensures !Js.StringTruthy(env.livekitUrl) ==> r == DefaultLivekitUrl
    ensures r != ""
  {
    Js.StringOr(env.livekitUrl, DefaultLivekitUrl)
  }

  /**
    A corollary of the default never being falsy, stated for callers that might
    default a capacity again: defaulting an already defaulted capacity changes nothing.
  */
  lemma MaxParticipantsIdempotent(requested: Option<Js.Number>)
    ensures MaxParticipants(Some(Js.Finite(MaxParticipants(requested)))) == MaxParticipants(requested)
  {
  }

  /** Exactly the falsy capacities are replaced: one is kept unless it is missing, zero or NaN. */
  lemma MaxParticipantsReplacedExactlyWhenFalsy(requested: Option<Js.Number>)
    ensures (requested == None || requested == Some(Js.NaN) || requested == Some(Js.Finite(0.0)))
            <==> !Js.NumberTruthy(requested)
  {
    if requested.Some? && requested.value.Finite? && requested.value.value == 0.0 {
      assert requested == Some(Js.Finite(0.0));
    }
  }

  /** A negative capacity is kept as given: it reaches the platform and the store unchanged. */
  lemma NegativeMaxParticipantsKept(v: real)
    requires v < 0.0
    ensures MaxParticipants(Some(Js.Finite(v))) == v
    ensures MaxParticipants(Some(Js.Finite(v))) < 0.0
  {
  }

  // ---------------------------------------------------------------- room ids and room urls

  /** The id of a new room: `room-` followed by a freshly drawn UUID. */
  function RoomIdOf(uuid: string): (r: string)
    ensures |r| == |RoomIdPrefix| + |uuid|
    ensures r[..|RoomIdPrefix|] == RoomIdPrefix && r[|RoomIdPrefix|..] == uuid
  {
    RoomIdPrefix + uuid
  }

  /** The UUID part of a room id, or nothing when `roomId` does not start with `room-`. */
  function UuidOf(roomId: string): Option<string> {
    if |RoomIdPrefix| <= |roomId| && roomId[..|RoomIdPrefix|] == RoomIdPrefix
    then Some(roomId[|RoomIdPrefix|..])
    else None
  }

  /** Every room id has the form `room-<uuid>` and gives its UUID back. */
  lemma RoomIdRoundTrip(uuid: string)
    ensures UuidOf(RoomIdOf(uuid)) == Some(uuid)
  {
  }

  /** A string that parses as a room id is the room id of what it parses to. */
  lemma UuidOfSound(roomId: string)
    ensures UuidOf(roomId).Some? ==> RoomIdOf(UuidOf(roomId).value) == roomId
  {
  }

  /** Distinct UUIDs give distinct room ids, so a fresh UUID is a fresh room id. */
  lemma RoomIdInjective(a: string, b: string)
    ensures RoomIdOf(a) == RoomIdOf(b) <==> a == b
  {
  }

  /** The page of a room on the frontend: `<frontendUrl>/room/<roomId>`. */
  function RoomUrl(frontendUrl: string, roomId: string): (r: string)
    ensures |r| == |frontendUrl| + |RoomPath| + |roomId|
    ensures r[..|frontendUrl|] == frontendUrl
    ensures r[|frontendUrl|..|frontendUrl| + |RoomPath|] == RoomPath
    ensures r[|frontendUrl| + |RoomPath|..] == roomId
  {
    frontendUrl + RoomPath + roomId
  }

  /** The room id a frontend url points at, or nothing when the url is not a room page of that frontend. */
  function RoomIdOfUrl(frontendUrl: string, url: string): Option<string> {
    var prefix := frontendUrl + RoomPath;
    if |prefix| <= |url| && url[..|prefix|] == prefix then Some(url[|prefix|..]) else None
  }

  /** The room url leads back to exactly the room it was built for. */
  lemma RoomUrlRoundTrip(frontendUrl: string, roomId: string)
    ensures RoomIdOfUrl(frontendUrl, RoomUrl(frontendUrl, roomId)) == Some(roomId)
  {
  }

  // ---------------------------------------------------------------- records built by createRoom

  /** The record `createRoom` saves, once `userName` has passed the guard. */
  function NewMetadata(dto: CreateRoomDto, roomId: string, createdAt: Timestamp): (m: RoomMetadata)
    requires Js.StringTruthy(dto.userName)
    ensures m.roomId == roomId && m.createdBy == dto.userName.value && m.createdAt == createdAt
    ensures m.roomTitle != ""
    ensures Js.StringTruthy(dto.roomTitle) ==> m.roomTitle == dto.roomTitle.value
    ensures !Js.StringTruthy(dto.roomTitle) ==> m.roomTitle == dto.userName.value + OwnRoomSuffix
    ensures m.description == if dto.description.Some? then dto.description.value else ""
    ensures m.maxParticipants != 0.0
    ensures Js.NumberTruthy(dto.maxParticipants) ==> m.maxParticipants == dto.maxParticipants.value.value
    ensures !Js.NumberTruthy(dto.maxParticipants) ==> m.maxParticipants == DefaultMaxParticipants
  {
    RoomMetadata(
      roomId,
      RoomTitle(dto.roomTitle, dto.userName.value),
      Description(dto.description),
      MaxParticipants(dto.maxParticipants),
      dto.userName.value,
      createdAt)
  }

  /** The reply of a successful `createRoom`, assembled from the saved record. */
  function NewRoomResponse(metadata: RoomMetadata, env: Env, token: string): (resp: CreateRoomResponse)
    ensures resp.roomId == metadata.roomId
    ensures RoomIdOfUrl(FrontendUrl(env), resp.roomUrl) == Some(metadata.roomId)
    ensures resp.roomTitle == metadata.roomTitle && resp.description == metadata.description
    ensures resp.maxParticipants == metadata.maxParticipants && resp.userName == metadata.createdBy
    ensures resp.token == token && resp.livekitUrl == LivekitUrl(env)
  {
    CreateRoomResponse(
      metadata.roomId,
      RoomUrl(FrontendUrl(env), metadata.roomId),
      metadata.roomTitle,
      metadata.description,
      metadata.maxParticipants,
      metadata.createdBy,
      token,
      LivekitUrl(env))
  }

  /**
    What a successful `createRoom` reports agrees with what it saved: the same
    id, of the form `room-<uuid>`, a room url that leads back to that id, the
    same title, description and capacity, and the creator's name.
  */
  lemma NewRoomResponseMatchesRecord(dto: CreateRoomDto, env: Env, uuid: string,
                                      createdAt: Timestamp, token: string)
    requires Js.StringTruthy(dto.userName)
    ensures var m := NewMetadata(dto, RoomIdOf(uuid), createdAt);
            var resp := NewRoomResponse(m, env, token);
            resp.roomId == m.roomId &&
            UuidOf(resp.roomId) == Some(uuid) &&
            RoomIdOfUrl(FrontendUrl(env), resp.roomUrl) == Some(resp.roomId) &&
            resp.roomTitle == m.roomTitle && resp.description == m.description &&
            resp.maxParticipants == m.maxParticipants == MaxParticipants(dto.maxParticipants) &&
            resp.userName == m.createdBy == dto.userName.value &&
            resp.token == token && resp.livekitUrl == LivekitUrl(env)
  {
  }

  // ---------------------------------------------------------------- the handlers

  class RoomController {
    const service: RoomService

    constructor (service: RoomService)
      ensures this.service == service
    {
      this.service := service;
    }

    /**
      `POST /api/token`. Both names must be truthy, and only then is the token
      issuer called; `issued` is what that remote call yields. The reply
      carries the token and the platform url.
    */
    method GetToken(body: TokenRequest, env: Env, issued: Result<string, string>)
      returns (r: Result<TokenResponse, HttpError>)
      modifies service`trace
      ensures !Js.StringTruthy(body.roomName) || !Js.StringTruthy(body.userName) ==>
                r == Failure(ControllerError(TokenFieldsRequired)) && service.trace == old(service.trace)
      ensures Js.StringTruthy(body.roomName) && Js.StringTruthy(body.userName) ==>
                service.trace == old(service.trace) + [ServiceCall.CreateToken(body.roomName.value, body.userName.value)] &&
                r == match issued
                     case Success(token) => Success(TokenResponse(token, LivekitUrl(env)))
                     case Failure(e) => Failure(UpstreamError(e))
    {
      if !Js.StringTruthy(body.roomName) || !Js.StringTruthy(body.userName) {
        return Failure(ControllerError(TokenFieldsRequired));
      }
      var token := service.CreateToken(body.roomName.value, body.userName.value, issued);
      if token.Failure? {
        return Failure(UpstreamError(token.error));
      }
      r := Success(TokenResponse(token.value, LivekitUrl(env)));
    }

    /**
      `POST /api/room/create`. After the guard on `userName` it provisions the
      room on the platform, saves the record and then asks for the creator's
      token, stopping at the first remote failure. `uuid` is the freshly drawn
      UUID, `provisioned` and `issued` are what the two remote calls yield.
    */
    method CreateRoom(dto: CreateRoomDto, env: Env, uuid: string, createdAt: Timestamp,
                      provisioned: Outcome<string>, issued: Result<string, string>)
      returns (r: Result<CreateRoomResponse, HttpError>)
      requires service.Valid()
      requires RoomIdOf(uuid) !in service.rooms
      modifies service`rooms, service`listing, service`trace
      ensures service.Valid()
      // the guard rejects before any call on the service
      ensures !Js.StringTruthy(dto.userName) ==>
                r == Failure(ControllerError(UserNameRequired)) &&
                service.rooms == old(service.rooms) && service.listing == old(service.listing) &&
                service.trace == old(service.trace)
      // a failed provisioning leaves no record behind
      ensures Js.StringTruthy(dto.userName) && provisioned.Fail? ==>
                r == Failure(UpstreamError(provisioned.error)) &&
                service.rooms == old(service.rooms) && service.listing == old(service.listing) &&
                service.trace == old(service.trace) +
                  [ServiceCall.CreateRoomOnLiveKit(RoomIdOf(uuid), MaxParticipants(dto.maxParticipants))]
      // after a successful provisioning the record is saved, whatever the token issuer then does
      ensures Js.StringTruthy(dto.userName) && provisioned.Pass? ==>
                var m := NewMetadata(dto, RoomIdOf(uuid), createdAt);
                service.rooms == old(service.rooms)[m.roomId := m] &&
                multiset(service.listing) == multiset(old(service.listing)) + multiset{m} &&
                service.trace == old(service.trace) +
                  [ServiceCall.CreateRoomOnLiveKit(m.roomId, m.maxParticipants),
                   ServiceCall.SaveRoomMetadata(m),
                   ServiceCall.CreateToken(m.roomId, m.createdBy)] &&
                r == match issued
                     case Success(token) => Success(NewRoomResponse(m, env, token))
                     case Failure(e) => Failure(UpstreamError(e))
    {
      if !Js.StringTruthy(dto.userName) {
        return Failure(ControllerError(UserNameRequired));
      }
      var userName := dto.userName.value;
      var roomId := RoomIdOf(uuid);
      var frontendUrl := FrontendUrl(env);
      var maxParticipants := MaxParticipants(dto.maxParticipants);

      var created := service.CreateRoomOnLiveKit(roomId, maxParticipants, provisioned);
      if created.Fail? {
        return Failure(UpstreamError(created.error));
      }

      var metadata := NewMetadata(dto, roomId, createdAt);
      service.SaveRoomMetadata(metadata);

      var token := service.CreateToken(roomId, userName, issued);
      if token.Failure? {
        return Failure(UpstreamError(token.error));
      }

      // The reply is assembled from the handler's own locals, as the source does;
      // the contract shows it is `NewRoomResponse` of the saved record.
      r := Success(CreateRoomResponse(
        roomId,
        RoomUrl(frontendUrl, roomId),
        metadata.roomTitle,
        metadata.description,
        maxParticipants,
        userName,
        token.value,
        LivekitUrl(env)));
    }

    /** `GET /api/room/:roomId`: the stored record, or "Room not found". */
    method GetRoomInfo(roomId: string) returns (r: Result<RoomMetadata, HttpError>)
      ensures roomId in service.rooms ==> r == Success(service.rooms[roomId])
      ensures roomId !in service.rooms ==> r == Failure(ControllerError(RoomNotFound))
    {
      var metadata := service.GetRoomMetadata(roomId);
      if metadata.None? {
        return Failure(ControllerError(RoomNotFound));
      }
      r := Success(metadata.value);
    }

    /**
      `GET /api/rooms`: every stored record, each once, and their number. The
      service is asked twice, once for the rooms and once for the count.
    */
    method GetAllRooms() returns (r: RoomList)
      requires service.Valid()
      ensures r.total == |r.rooms| == |service.rooms|
      ensures IdsOf(r.rooms) == service.rooms.Keys
      ensures forall i | 0 <= i < |r.rooms| :: r.rooms[i].roomId in service.rooms && service.rooms[r.rooms[i].roomId] == r.rooms[i]
    {
      var rooms := service.GetAllRooms();
      var again := service.GetAllRooms();
      r := RoomList(rooms, |again|);
    }
  }
}
