# Room controller of the AURA live backend, in Dafny

The backend is a thin NestJS façade over a LiveKit media server. Its room
controller has five handlers; this project models these four (the `health` handler is left out):

- `POST /api/token` issues an access token for a room.
- `POST /api/room/create` provisions a room on LiveKit, records its metadata and issues the creator's token.
- `GET /api/room/:roomId` returns one room's metadata.
- `GET /api/rooms` lists every room with a count.

This project models those handlers and proves what they promise:

- the validation guards and the order of the calls they make on the room service;
- the JavaScript `||` defaults they apply to missing values (`maxParticipants || 10`, `roomTitle || userName + "의 방"`, `description || ""`, and the `FRONTEND_URL` and `LIVEKIT_URL` fallbacks);
- the agreement between the saved record and the reply.

Files, one module each:

- `wrappers.dfy`: `Option`, `Result` and `Outcome`.
- `js.dfy`: JavaScript truthiness and `||` for optional strings and numbers. The falsy strings and numbers are `undefined`, `null`, `""`, `0`, `-0` and `NaN`. The real `0.0` stands for both zeros.
- `dto.dfy`: the request bodies, the `RoomMetadata` record, the replies, the two environment variables and the handlers' errors.
- `service.dfy`: the room service as the controller uses it. It has:
  - a store of metadata by id;
  - a listing that holds every stored record once, in an unspecified order;
  - the two remote LiveKit calls, whose outcomes are parameters;
  - a ghost `trace` of every provisioning, save and token call, which makes the order of those calls visible in contracts. The two reads (`GetRoomMetadata`, `GetAllRooms`) change nothing and are not recorded.
- `controller.dfy`: the defaults, room ids and room urls as functions with lemmas, and the `RoomController` class whose methods are the four handlers.

Behaviour worth knowing:

- A room created without a title is called `<userName>의 방`.
- `maxParticipants || 10` replaces only a missing, zero or NaN capacity, so negative and fractional capacities pass through unchanged.
- The handlers throw plain `Error`s. Each is modelled as a `ControllerError` with the handler's message, or as an `UpstreamError` carrying what a remote call threw.
- When token issuance fails after the record was saved, the record stays stored and no reply is produced. `CreateRoom` states this; there is no compensation step.

## Model

| member | source | states |
|---|---|---|
| `Controller.MaxParticipants` | src/room/room.controller.ts:66 | a truthy capacity (any non-zero number, negatives included) is kept; a missing, zero or NaN one becomes 10; the result is never falsy |
| `Controller.MaxParticipantsIdempotent` | src/room/room.controller.ts:66 | a corollary of the default never being falsy: defaulting an already defaulted capacity changes nothing |
| `Controller.MaxParticipantsReplacedExactlyWhenFalsy` | src/room/room.controller.ts:66 | the replaced capacities are exactly missing, `NaN` and `0`, named without the truthiness predicate |
| `Controller.NegativeMaxParticipantsKept` | src/room/room.controller.ts:66 | a negative capacity is passed through unchanged, not turned into 10 |
| `Controller.RoomTitle` | src/room/room.controller.ts:74 | a missing or empty title becomes `userName + "의 방"`, any other is kept; the title is never empty |
| `Controller.Description` | src/room/room.controller.ts:75 | a missing description becomes `""`, a given one (empty or not) is kept |
| `Controller.FrontendUrl` | src/room/room.controller.ts:65 | `FRONTEND_URL` when set and non-empty, else `http://localhost:3000` |
| `Controller.LivekitUrl` | src/room/room.controller.ts:37 | `LIVEKIT_URL` when set and non-empty, else `ws://localhost:7880` (the same rule as line 93) |
| `Controller.RoomIdOf` | src/room/room.controller.ts:64 | a room id is `room-` followed by exactly the UUID, nothing more |
| `Controller.RoomUrl` | src/room/room.controller.ts:87 | a room url is the frontend url, then `/room/`, then exactly the room id |
| `Controller.NewMetadata` | src/room/room.controller.ts:72-79 | the record createRoom saves: the given id, `createdBy` = `userName`, the given `createdAt`, a never-empty title that is the given one when truthy and `userName + "의 방"` otherwise, the given description or `""`, and the given capacity when truthy, else 10 |
| `Controller.NewRoomResponse` | src/room/room.controller.ts:85-94 | the reply carries the record's id, a room url that leads back to that id on the configured frontend, the record's title, description, capacity and creator, the issued token and the LiveKit url |
| `Controller.RoomIdRoundTrip` | src/room/room.controller.ts:64 | every room id has the form `room-<uuid>` and gives its UUID back |
| `Controller.UuidOfSound` | src/room/room.controller.ts:64 | any string read as `room-<uuid>` is exactly the room id of that UUID |
| `Controller.RoomIdInjective` | src/room/room.controller.ts:64 | two room ids are equal exactly when their UUIDs are, so a fresh UUID gives a fresh id |
| `Controller.RoomUrlRoundTrip` | src/room/room.controller.ts:87 | `<frontendUrl>/room/<roomId>` leads back to exactly that room id |
| `Controller.NewRoomResponseMatchesRecord` | src/room/room.controller.ts:72-94 | the success reply and the saved record agree: same `room-<uuid>` id, a room url for that id, same title, description and capacity, `userName` equal to `createdBy`, the issued token and the LiveKit url |
| `Controller.RoomController.constructor` | src/room/room.controller.ts:18 | the controller holds the service it was given |
| `Controller.RoomController.GetToken` | src/room/room.controller.ts:25-38 | a missing or empty `roomName` or `userName` fails with "roomName and userName are required" and makes no service call; otherwise one `createToken(roomName, userName)` call is made, and its token is returned with the LiveKit url, or its failure is propagated |
| `Controller.RoomController.CreateRoom` | src/room/room.controller.ts:59-95 | a missing or empty `userName` fails with "userName is required" and nothing is called or stored. Otherwise LiveKit provisioning comes first, with the id `room-<uuid>` and the defaulted capacity, and a provisioning failure leaves the store unchanged. After provisioning succeeds, the defaulted record is saved and then the creator's token is requested. A token failure leaves the record stored and returns no reply; token success returns the reply built from the record |
| `Controller.RoomController.GetRoomInfo` | src/room/room.controller.ts:102-110 | a known id returns its stored record; an unknown one fails with "Room not found" |
| `Controller.RoomController.GetAllRooms` | src/room/room.controller.ts:117-122 | `total` equals the number of listed rooms and the number of stored rooms; the list holds every stored record once |
| `Service.DistinctIdsCount` | src/room/room.controller.ts:120 | a listing with distinct ids has as many ids as entries, which is why the count equals the number of stored rooms |
| `Service.IdsOfAppend` | src/room/room.controller.ts:80 | adding a record to the listing adds exactly its id |
| `Service.RoomService.constructor` | src/room/room.controller.ts:18 | a new service stores nothing and has recorded no provisioning, save or token call |
| `Service.RoomService.CreateRoomOnLiveKit` | src/room/room.controller.ts:69 | the provisioning call is recorded with its room id and capacity, and its outcome is returned without touching the store |
| `Service.RoomService.CreateToken` | src/room/room.controller.ts:83 | the token call is recorded with its room and user names, and its outcome is returned without touching the store |
| `Service.RoomService.SaveRoomMetadata` | src/room/room.controller.ts:80 | saving under an unused id adds exactly that entry to the lookup and exactly that record to the listing, and keeps the store consistent |
| `Service.RoomService.GetRoomMetadata` | src/room/room.controller.ts:103 | returns the stored record exactly when the id is stored |
| `Service.RoomService.GetAllRooms` | src/room/room.controller.ts:119-120 | returns the listing: every stored record once, as many entries as stored rooms |

## Left out

- `room.service.ts` is not part of this model. `Service.RoomService` gives only what the controller's calls imply: saved records can be looked up, and the listing holds each stored record once. The listing's order is left open, with no insertion order assumed.
- `Service.RoomService.SaveRoomMetadata`: requires an id that is not yet stored, because its behaviour on a repeated id is not visible. The controller satisfies this through `CreateRoom`'s precondition.
- The LiveKit SDK calls (`createRoomOnLiveKit`, `createToken`) are remote and asynchronous. Their outcomes are parameters: success or failure, with an opaque token string or error reason.
- `randomUUID` is cryptographic randomness. The UUID is a parameter, and `CreateRoom` requires that `room-<uuid>` is not yet stored. The UUID's format is not modelled.
- `new Date()` is a parameter (`createdAt`). `process.env` reads are the `Env` parameter.
- The `health` handler (room.controller.ts:45-51), `health.controller.ts` and `app.module.ts` report the clock, the uptime and a fixed name and version, or wire up dependency injection.
- Request bodies follow their declared TypeScript types. A field may be missing, but a field of the wrong JSON type is not modelled, since without a validation pipe it would reach `||` and template strings as text or objects. Numbers are finite reals or NaN; infinities are not modelled.
- HTTP routing, decorators, the status codes the framework picks for thrown errors, and concurrency between requests are not modelled.
