# Khan: game policy and membership hooks, modelled in Dafny

Khan manages clans inside games. Each game carries a policy record: a
membership-level ladder (level name to integer rank), thresholds, size caps
and cooldowns. On every insert or update of a game, its minimum and maximum
membership levels are derived from the ladder. After a membership event, the
API sends a webhook ("hook") whose payload describes the clan, the player,
the requestor and, for approvals and denials, the creator.

This project models two parts of that:

- `levels.dfy` (module `Levels`): the ladder, its sort into ascending rank
  order, and the derivation of the minimum and maximum levels.
- `games.dfy` (module `Games`):
  - `Game` is a class whose insert and update hooks assign its fields in place.
  - `GameStore` is a class holding the games table. The table is a map from
    public id to row, plus the primary-key index and the id serial.
  - It holds the lookups and `CreateGame` / `UpdateGame`, both the plain
    insert and the insert-or-replace.
- `hooks.dfy` (module `MembershipHooks`):
  - extraction of the optional request message;
  - resolution of which record stands for each role, decided by comparing ids
    (api/membership_helpers.go:59, 103, 111-113): a record already loaded is
    reused when ids coincide;
  - assembly of the hook payload;
  - the dispatcher, modelled as an outbox of events (class `App`).
- `values.dfy` (module `Values`): dynamic document values, error kinds, and
  the `Result` / `Outcome` wrappers that stand for Go's error returns.

Parameters replace the clock and the data store:

- The current time `now` is passed to every operation that stamps a timestamp.
- The clan and player lookups are function-valued fields of `Store`. Each
  returns a record or an error.
- A clan or a player is known only through the document its `Serialize`
  method returns.

## Model

| member | source | states |
|---|---|---|
| Levels.SortLevels | models/game.go:44 | the result lists every (name, rank) entry of the ladder exactly once, with distinct names, in ascending rank order |
| Levels.SortedLadderEnds | models/game.go:44-46 | for a non-empty ladder, the first sorted entry carries the least rank of the ladder and the last carries the greatest; both ranks occur in the ladder |
| Levels.DeriveBounds | models/game.go:121-123 | an empty ladder is the `EmptyLadder` error (the source panics on index 0), and only an empty one is; otherwise min is the least and max the greatest rank of the ladder, and min <= max |
| Levels.BoundsUnique | models/game.go:54-56 | min and max are determined by the ladder alone, so recomputing them on update always gives the values that reflect the current ladder |
| Games.DerivedLevelsOrdered | models/game.go:121-123 | a game whose min/max reflect its non-empty ladder has min <= max, a consequence of the ascending sort |
| Games.Game.constructor | models/game.go:190-205 | the plain-insert struct literal copies each parameter to its matching field (deny to `cooldownAfterDeny`, delete to `cooldownAfterDelete`); id, min, max and both timestamps start at zero |
| Games.Game.PreInsert | models/game.go:42-50 | empty ladder: `EmptyLadder` and nothing changes; otherwise min and max reflect the ladder, createdAt == updatedAt == now, and every other field is unchanged |
| Games.Game.PreUpdate | models/game.go:53-59 | empty ladder: `EmptyLadder` and nothing changes; otherwise min and max are recomputed from the current ladder, updatedAt == now, and every other field, createdAt included, is unchanged |
| Games.GameStore.GetGameByID | models/game.go:62-73 | succeeds exactly when some row has that internal id and returns that row; a miss is NotFound("Game", id) |
| Games.GameStore.GetGameByPublicID | models/game.go:76-86 | succeeds exactly when the public id is in the table and returns its row, whose min/max reflect its ladder; a miss is NotFound("Game", publicId) |
| Games.GameStore.GetAllGames | models/game.go:89-96 | returns every row of the table exactly once, and nothing else |
| Games.GameStore.CreateGame | models/game.go:99-212 | keeps the table invariant: rows keyed by public id, ids unique, min/max reflect each ladder. Empty ladder: error and no change. Plain insert of a taken public id: error and no change. Absent public id: a new row with a fresh id, all settings, derived min/max and createdAt == updatedAt == now. Upsert of a present public id: settings and min/max replaced, updatedAt == now, id and createdAt kept. No other row changes |
| Games.GameStore.UpdateGame | models/game.go:215-223 | the same outcome as the upsert path of `CreateGame`: a missing game is created, an existing one is replaced keeping its id and createdAt |
| MembershipHooks.OptionalMessage | api/membership_helpers.go:35-40 | the message is the body's "message" string when the key is present, and "" when it is absent |
| MembershipHooks.ResolveRequestor | api/membership_helpers.go:58-64 | equal ids give the loaded player, whatever the store would answer (no second lookup); different ids give the store's answer, record or error; when the player came from the store, the result equals a fresh lookup of the requestor id |
| MembershipHooks.ResolveCreator | api/membership_helpers.go:110-119 | the creator is the player when creatorID == playerID, else the requestor when creatorID == requestorID; only otherwise is the store asked. With consistently loaded player and requestor, the result equals a fresh lookup of the creator id |
| MembershipHooks.LoadParties | api/membership_helpers.go:69-86 | succeeds exactly when the clan, player and requestor lookups all succeed; each role is then the store's record for its id; otherwise the first failing lookup's error in source order (clan, player, requestor) |
| MembershipHooks.LoadApproveDenyParties | api/membership_helpers.go:91-119 | as `LoadParties`, with the creator as a fourth role and the creator lookup's error last in order |
| MembershipHooks.App.DispatchHooks | api/membership_helpers.go:145 | appends exactly one event (game id, hook type, payload) to the outbox |
| MembershipHooks.App.DispatchMembershipHook | api/membership_helpers.go:124-148 | returns nil and dispatches one event. Payload keys are {gameID, clan, player, requestor}, plus "message" exactly when the message is non-empty. Entity documents are the serialized records without "gameID". The player document's "membershipLevel" is the given level |
| MembershipHooks.App.DispatchApproveDenyMembershipHook | api/membership_helpers.go:150-178 | as above, with the creator's document under "creator" |
| MembershipHooks.App.DispatchMembershipHookByPublicID | api/membership_helpers.go:47-67 | if a lookup fails, returns that error and dispatches nothing; otherwise dispatches one membership payload for the looked-up parties, with no "message" key |
| MembershipHooks.App.DispatchMembershipHookByID | api/membership_helpers.go:69-89 | if a lookup fails, returns that error and dispatches nothing; otherwise dispatches one membership payload for the looked-up parties and the given message |
| MembershipHooks.App.DispatchApproveDenyMembershipHookByID | api/membership_helpers.go:91-122 | if a lookup fails, returns that error and dispatches nothing; otherwise dispatches one approve/deny payload for the four looked-up parties |
| MembershipHooks.ApproveDenyPayloadHidesGameId | api/membership_helpers.go:151-170 | no entity document (clan, player, requestor, creator) of a payload has a "gameID" key; the top-level "gameID" is the given game id |
| MembershipHooks.MembershipPayloadHidesGameId | api/membership_helpers.go:125-140 | no entity document (clan, player, requestor) of a plain membership payload has a "gameID" key; the top-level "gameID" is the given game id |
| MembershipHooks.MembershipMessageRoundTrip | api/membership_helpers.go:142-144 | the request-side message extraction, applied to a plain membership payload, gives back the dispatched message; the empty message comes back as an absent key |
| MembershipHooks.MembershipPayloadDetermined | api/membership_helpers.go:124-147 | the membership payload properties admit at most one payload for given inputs; `App.DispatchMembershipHook` builds one, so the dispatched payload is fixed |
| MembershipHooks.ApproveDenyPayloadDetermined | api/membership_helpers.go:150-177 | the approve/deny payload properties admit at most one payload for given inputs; `App.DispatchApproveDenyMembershipHook` builds one, so the dispatched payload is fixed |
| MembershipHooks.MessageRoundTrip | api/membership_helpers.go:172-174 | the request-side message extraction, applied to a dispatched payload, gives back the dispatched message; the empty message comes back as an absent key |

## Left out

- The membership rule engine (apply, invite, approve, deny, promote, demote,
  delete, leave, transfer ownership) and the cooldown tracker. Their handlers
  are only wired as routes in `api/app.go`; their code is not part of this
  model.
- `getPayloadAndGame` (api/membership_helpers.go:180-195): it only decodes the
  request and calls `app.GetGame`, which is not part of this model.
- Reading and JSON-decoding the request body in `getMembershipOptionalParameters`:
  `OptionalMessage` starts from the decoded body. The unchecked `val.(string)`
  assertion is the precondition `MessageIsString`.
- JSON encoding of the ladder and metadata in the upsert path. These encodings
  cannot fail for the values modelled here.
- Errors of the data store other than a miss and the unique public id, such as
  a lost connection. Lookups in `MembershipHooks` may return any error.
- `util.SortLevels` (khan's `util` package) is not part of this model;
  `Levels.SortLevels` models it as a sort of the (name, rank) pairs into ascending rank order. Entries of
  equal rank come out in no specified order; min and max depend only on ranks.
- Ladder values that are not integers. The source keeps the ladder as
  `map[string]interface{}`; here it is `map<string, int>`.
- `Levels.SortLevels`: duplicate ranks are accepted; nothing in
  models/game.go checks for duplicate ranks.
- `util.NowMilli` is the parameter `now`. Go's 64-bit integers are unbounded
  `int` here; no operation in the modelled code does arithmetic that could overflow.
- New ids come from a serial in the store: a new row's id is not used by any
  other row. The exact numbering the database uses is not modelled.
- `Games.GameStore.CreateGame` returns the stored row as a value, for both
  paths. The source's plain path returns the inserted struct itself, whose
  fields equal that row.
- The database schema, with its unique index on `games.public_id`, is not
  part of this model. The upsert's `ON CONFLICT (public_id)` requires that
  index, so a plain insert of a taken public
  id is the `DuplicatePublicId` error.
- `Clan.Serialize` and `Player.Serialize` are not part of this model. Their
  outputs are opaque documents.
- Hook delivery, retries and ordering between events: `DispatchHooks` only
  appends to the outbox.
- Transactions and concurrent access to the store.
- Configuration loading, the database connection, router wiring
  (`api/app.go`), the health check (`api/healthcheck.go`) and the CLI test
  (`cmd/root_test.go`): plumbing and I/O with nothing to state.
- An empty ladder makes the code panic on index 0 (models/game.go:45, 55,
  122); that panic is the `EmptyLadder` error. Duplicate ranks are not
  rejected by models/game.go.
- Each `Serialize()` call is taken to return a fresh map. When the requestor
  is the player itself (api/membership_helpers.go:58), the player document is
  changed in place at lines 129-130; the model, working on values, assumes the
  requestor document is a separate map and so does not carry
  `membershipLevel`. Were `Serialize` to return a shared map, it would.
