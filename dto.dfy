/** The request bodies, records and responses the room controller exchanges. */
module Dto {
  import opened Wrappers
  import Js

  /** Milliseconds since the epoch, as `new Date()` yields them; taken as given. */
  type Timestamp = int

  /** The body of `POST /api/token`; either field may be missing at run time. */
  datatype TokenRequest = TokenRequest(roomName: Option<string>, userName: Option<string>)

  /** The reply of `POST /api/token`. */
  datatype TokenResponse = TokenResponse(token: string, url: string)

  /** The body of `POST /api/room/create`: only `userName` is declared required, and it may still be missing. */
  datatype CreateRoomDto = CreateRoomDto(
    userName: Option<string>,
    roomTitle: Option<string>,
    description: Option<string>,
    maxParticipants: Option<Js.Number>)

  /** One stored room. */
  datatype RoomMetadata = RoomMetadata(
    roomId: string,
    roomTitle: string,
    description: string,
    maxParticipants: real,
    createdBy: string,
    createdAt: Timestamp)

  /** The reply of `POST /api/room/create`. */
  datatype CreateRoomResponse = CreateRoomResponse(
    roomId: string,
    roomUrl: string,
    roomTitle: string,
    description: string,
    maxParticipants: real,
    userName: string,
    token: string,
    livekitUrl: string)

  /** The reply of `GET /api/rooms`. */
  datatype RoomList = RoomList(rooms: seq<RoomMetadata>, total: nat)

  /** The two environment variables the controller reads; `None` when unset. */
  datatype Env = Env(livekitUrl: Option<string>, frontendUrl: Option<string>)

  /** What a handler throws: an error of its own, or one raised by a remote call it awaited. */
  datatype HttpError = ControllerError(message: string) | UpstreamError(reason: string)
}
