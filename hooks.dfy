/**
 The membership hook helpers: extracting the optional message of a request,
 resolving which record stands for the player, the requestor and the creator
 of a membership event, building the event payload, and handing it to the
 hook dispatcher, modelled as an outbox of events.
 */
module MembershipHooks {
  import opened Values

  /** A clan, known here only through the document its `Serialize` method returns. */
  datatype Clan = Clan(serialized: map<string, Json>)

  /** A player, known here only through the document its `Serialize` method returns. */
  datatype Player = Player(serialized: map<string, Json>)

  /** The entity lookups of the data store; each answers a record or an error. */
  datatype Store = Store(
    clanById: int -> Result<Clan>,
    playerById: int -> Result<Player>,
    clanByPublicId: (string, string) -> Result<Clan>,
    playerByPublicId: (string, string) -> Result<Player>)

  /** One call of the hook dispatcher. */
  datatype HookEvent = HookEvent(gameId: string, hookType: int, payload: map<string, Json>)

  /** The records that fill the roles of a plain membership event. */
  datatype Parties = Parties(clan: Clan, player: Player, requestor: Player)

  /** The records that fill the roles of an approve or deny event. */
  datatype ApproveDenyParties = ApproveDenyParties(clan: Clan, player: Player, requestor: Player, creator: Player)

  // ----- The optional message of a request -----

  /** A decoded request body whose "message", when present, is a string. */
  predicate MessageIsString(body: map<string, Json>) {
    "message" in body ==> body["message"].JString?
  }

  /** The post-decode part of `getMembershipOptionalParameters`. */
  function OptionalMessage(body: map<string, Json>): (message: string)
    requires MessageIsString(body)
    ensures "message" in body ==> body["message"] == JString(message)
    ensures "message" !in body ==> message == ""
  {
    if "message" in body then body["message"].s else ""
  }

  // ----- Who stands for each role -----

  /**
   The requestor: the already loaded player when the keys agree, whatever the
   store would answer, and otherwise the store's answer for the requestor key.
   */
  function ResolveRequestor<K(==)>(player: Player, playerKey: K, requestorKey: K, lookup: K -> Result<Player>): (r: Result<Player>)
    ensures requestorKey == playerKey ==> r == Ok(player)
    ensures requestorKey != playerKey ==> r == lookup(requestorKey)
    ensures lookup(playerKey) == Ok(player) ==> r == lookup(requestorKey)
  {
    if requestorKey != playerKey then lookup(requestorKey) else Ok(player)
  }

  /**
   The creator: the player when the keys agree, else the requestor when those
   keys agree, and only otherwise the store's answer for the creator key.
   */
  function ResolveCreator<K(==)>(player: Player, requestor: Player, playerKey: K, requestorKey: K, creatorKey: K,
                                 lookup: K -> Result<Player>): (r: Result<Player>)
    ensures creatorKey == playerKey ==> r == Ok(player)
    ensures creatorKey != playerKey && creatorKey == requestorKey ==> r == Ok(requestor)
    ensures creatorKey != playerKey && creatorKey != requestorKey ==> r == lookup(creatorKey)
    ensures lookup(playerKey) == Ok(player) && lookup(requestorKey) == Ok(requestor) ==> r == lookup(creatorKey)
  {
    if creatorKey == playerKey then Ok(player)
    else if creatorKey == requestorKey then Ok(requestor)
    else lookup(creatorKey)
  }

  /**
   The lookups of `dispatchMembershipHookByID` and `...ByPublicID`, in source
   order (clan, player, requestor), stopping at the first error.
   */
  function LoadParties<K(==)>(clan: Result<Clan>, lookup: K -> Result<Player>, playerKey: K, requestorKey: K): (r: Result<Parties>)
    ensures r.Ok? <==> clan.Ok? && lookup(playerKey).Ok? && lookup(requestorKey).Ok?
    ensures r.Ok? ==> Ok(r.value.clan) == clan && Ok(r.value.player) == lookup(playerKey)
    ensures r.Ok? ==> Ok(r.value.requestor) == lookup(requestorKey)
    ensures r.Ok? && requestorKey == playerKey ==> r.value.requestor == r.value.player
    ensures clan.Err? ==> r == Err(clan.error)
    ensures clan.Ok? && lookup(playerKey).Err? ==> r == Err(lookup(playerKey).error)
    ensures clan.Ok? && lookup(playerKey).Ok? && lookup(requestorKey).Err? ==> r == Err(lookup(requestorKey).error)
  {
    if clan.Err? then Err(clan.error)
    else
      var player := lookup(playerKey);
      if player.Err? then Err(player.error)
      else
        var requestor := ResolveRequestor(player.value, playerKey, requestorKey, lookup);
        if requestor.Err? then Err(requestor.error)
        else Ok(Parties(clan.value, player.value, requestor.value))
  }

  /**
   The lookups of `dispatchApproveDenyMembershipHookByID`, in source order
   (clan, player, requestor, creator), stopping at the first error.
   */
  function LoadApproveDenyParties<K(==)>(clan: Result<Clan>, lookup: K -> Result<Player>,
                                         playerKey: K, requestorKey: K, creatorKey: K): (r: Result<ApproveDenyParties>)
    ensures r.Ok? <==> clan.Ok? && lookup(playerKey).Ok? && lookup(requestorKey).Ok? && lookup(creatorKey).Ok?
    ensures r.Ok? ==> Ok(r.value.clan) == clan && Ok(r.value.player) == lookup(playerKey)
    ensures r.Ok? ==> Ok(r.value.requestor) == lookup(requestorKey) && Ok(r.value.creator) == lookup(creatorKey)
    ensures clan.Err? ==> r == Err(clan.error)
    ensures clan.Ok? && lookup(playerKey).Err? ==> r == Err(lookup(playerKey).error)
    ensures clan.Ok? && lookup(playerKey).Ok? && lookup(requestorKey).Err? ==> r == Err(lookup(requestorKey).error)
    ensures clan.Ok? && lookup(playerKey).Ok? && lookup(requestorKey).Ok? && lookup(creatorKey).Err? ==>
      r == Err(lookup(creatorKey).error)
  {
    match LoadParties(clan, lookup, playerKey, requestorKey)
    case Err(e) => Err(e)
    case Ok(parties) =>
      var creator := ResolveCreator(parties.player, parties.requestor, playerKey, requestorKey, creatorKey, lookup);
      if creator.Err? then Err(creator.error)
      else Ok(ApproveDenyParties(parties.clan, parties.player, parties.requestor, creator.value))
  }

  /** The player lookup by public id, scoped to one game. */
  function PlayersOfGame(db: Store, gameID: string): (lookup: string -> Result<Player>) {
    (publicId: string) => db.playerByPublicId(gameID, publicId)
  }

  // ----- What a payload holds -----

  /** An entity document: the serialized record with "gameID" removed and every other key kept. */
  predicate Redacted(doc: map<string, Json>, serialized: map<string, Json>) {
    && doc.Keys == serialized.Keys - {"gameID"}
    && forall k :: k in doc ==> doc[k] == serialized[k]
  }

  /** The player document: redacted, with "membershipLevel" set to the given level. */
  predicate PlayerDoc(doc: map<string, Json>, serialized: map<string, Json>, level: string) {
    && doc.Keys == (serialized.Keys - {"gameID"}) + {"membershipLevel"}
    && doc["membershipLevel"] == JString(level)
    && forall k :: k in doc && k != "membershipLevel" ==> doc[k] == serialized[k]
  }

  /** The "message" key is present exactly when the message is not empty. */
  function MessageKeys(message: string): (keys: set<string>) {
    if message == "" then {} else {"message"}
  }

  predicate IsObject(p: map<string, Json>, key: string) {
    key in p && p[key].JObject?
  }

  /** The payload of a plain membership event. */
  predicate IsMembershipPayload(p: map<string, Json>, gameID: string, parties: Parties, message: string, level: string) {
    && p.Keys == {"gameID", "clan", "player", "requestor"} + MessageKeys(message)
    && p["gameID"] == JString(gameID)
    && IsObject(p, "clan") && Redacted(p["clan"].fields, parties.clan.serialized)
    && IsObject(p, "player") && PlayerDoc(p["player"].fields, parties.player.serialized, level)
    && IsObject(p, "requestor") && Redacted(p["requestor"].fields, parties.requestor.serialized)
    && (message != "" ==> p["message"] == JString(message))
  }

  /** The payload of an approve or deny event: the plain one plus the creator. */
  predicate IsApproveDenyPayload(p: map<string, Json>, gameID: string, parties: ApproveDenyParties, message: string, level: string) {
    && p.Keys == {"gameID", "clan", "player", "requestor", "creator"} + MessageKeys(message)
    && p["gameID"] == JString(gameID)
    && IsObject(p, "clan") && Redacted(p["clan"].fields, parties.clan.serialized)
    && IsObject(p, "player") && PlayerDoc(p["player"].fields, parties.player.serialized, level)
    && IsObject(p, "requestor") && Redacted(p["requestor"].fields, parties.requestor.serialized)
    && IsObject(p, "creator") && Redacted(p["creator"].fields, parties.creator.serialized)
    && (message != "" ==> p["message"] == JString(message))
  }

  /** `after` is `before` with one event for this game and hook type appended. */
  predicate AppendedOne(before: seq<HookEvent>, after: seq<HookEvent>, gameID: string, hookType: int) {
    && |after| == |before| + 1
    && after[..|before|] == before
    && after[|before|].gameId == gameID
    && after[|before|].hookType == hookType
  }

  // ----- The dispatcher -----

  /** The application as far as hooks go: every dispatched event lands in the outbox. */
  class App {
    var outbox: seq<HookEvent>

    constructor ()
      ensures outbox == []
    {
      outbox := [];
    }

    /** `app.DispatchHooks`: delivery is not modelled, only the hand-over. */
    method DispatchHooks(gameID: string, hookType: int, payload: map<string, Json>)
      modifies this
      ensures outbox == old(outbox) + [HookEvent(gameID, hookType, payload)]
    {
      outbox := outbox + [HookEvent(gameID, hookType, payload)];
    }

    /** `dispatchMembershipHook`: builds the payload and dispatches exactly one event. */
    method DispatchMembershipHook(hookType: int, gameID: string, clan: Clan, player: Player, requestor: Player,
                                  message: string, level: string) returns (r: Outcome)
      modifies this
      ensures r == Pass
      ensures AppendedOne(old(outbox), outbox, gameID, hookType)
      ensures IsMembershipPayload(outbox[|old(outbox)|].payload, gameID, Parties(clan, player, requestor), message, level)
    {
      var clanDoc := clan.serialized;
      clanDoc := clanDoc - {"gameID"};

      var playerDoc := player.serialized;
      playerDoc := playerDoc["membershipLevel" := JString(level)];
      playerDoc := playerDoc - {"gameID"};

      var requestorDoc := requestor.serialized;
      requestorDoc := requestorDoc - {"gameID"};

      var result := map[
        "gameID" := JString(gameID),
        "clan" := JObject(clanDoc),
        "player" := JObject(playerDoc),
        "requestor" := JObject(requestorDoc)];

      if message != "" {
        result := result["message" := JString(message)];
      }
      DispatchHooks(gameID, hookType, result);
      r := Pass;
    }

    /** `dispatchApproveDenyMembershipHook`: as above, with the creator's document too. */
    method DispatchApproveDenyMembershipHook(hookType: int, gameID: string, clan: Clan, player: Player, requestor: Player,
                                             creator: Player, message: string, level: string) returns (r: Outcome)
      modifies this
      ensures r == Pass
      ensures AppendedOne(old(outbox), outbox, gameID, hookType)
      ensures IsApproveDenyPayload(outbox[|old(outbox)|].payload, gameID,
                                   ApproveDenyParties(clan, player, requestor, creator), message, level)
    {
      var clanDoc := clan.serialized;
      clanDoc := clanDoc - {"gameID"};

      var playerDoc := player.serialized;
      playerDoc := playerDoc["membershipLevel" := JString(level)];
      playerDoc := playerDoc - {"gameID"};

      var requestorDoc := requestor.serialized;
      requestorDoc := requestorDoc - {"gameID"};

      var creatorDoc := creator.serialized;
      creatorDoc := creatorDoc - {"gameID"};

      var result := map[
        "gameID" := JString(gameID),
        "clan" := JObject(clanDoc),
        "player" := JObject(playerDoc),
        "requestor" := JObject(requestorDoc),
        "creator" := JObject(creatorDoc)];

      if message != "" {
        result := result["message" := JString(message)];
      }
      DispatchHooks(gameID, hookType, result);
      r := Pass;
    }

    /**
     `dispatchMembershipHookByPublicID`: looks up clan, player and requestor
     by public id within the game; the first failed lookup is returned and
     nothing is dispatched. The event never carries a message.
     */
    method DispatchMembershipHookByPublicID(db: Store, hookType: int, gameID: string, clanID: string,
                                            playerID: string, requestorID: string, level: string) returns (r: Outcome)
      modifies this
      ensures var loaded := LoadParties(db.clanByPublicId(gameID, clanID), PlayersOfGame(db, gameID), playerID, requestorID);
        && (loaded.Err? ==> r == Fail(loaded.error) && outbox == old(outbox))
        && (loaded.Ok? ==>
              && r == Pass
              && AppendedOne(old(outbox), outbox, gameID, hookType)
              && IsMembershipPayload(outbox[|old(outbox)|].payload, gameID, loaded.value, "", level)
              && "message" !in outbox[|old(outbox)|].payload)
    {
      var loaded := LoadParties(db.clanByPublicId(gameID, clanID), PlayersOfGame(db, gameID), playerID, requestorID);
      if loaded.Err? {
        return Fail(loaded.error);
      }
      var parties := loaded.value;
      r := DispatchMembershipHook(hookType, gameID, parties.clan, parties.player, parties.requestor, "", level);
    }

    /**
     `dispatchMembershipHookByID`: looks up clan, player and requestor by
     internal id; the first failed lookup is returned and nothing is dispatched.
     */
    method DispatchMembershipHookByID(db: Store, hookType: int, gameID: string, clanID: int, playerID: int,
                                      requestorID: int, message: string, level: string) returns (r: Outcome)
      modifies this
      ensures var loaded := LoadParties(db.clanById(clanID), db.playerById, playerID, requestorID);
        && (loaded.Err? ==> r == Fail(loaded.error) && outbox == old(outbox))
        && (loaded.Ok? ==>
              && r == Pass
              && AppendedOne(old(outbox), outbox, gameID, hookType)
              && IsMembershipPayload(outbox[|old(outbox)|].payload, gameID, loaded.value, message, level))
    {
      var loaded := LoadParties(db.clanById(clanID), db.playerById, playerID, requestorID);
      if loaded.Err? {
        return Fail(loaded.error);
      }
      var parties := loaded.value;
      r := DispatchMembershipHook(hookType, gameID, parties.clan, parties.player, parties.requestor, message, level);
    }

    /**
     `dispatchApproveDenyMembershipHookByID`: looks up clan, player, requestor
     and creator by internal id, reusing records whose ids coincide; the first
     failed lookup is returned and nothing is dispatched.
     */
    method DispatchApproveDenyMembershipHookByID(db: Store, hookType: int, gameID: string, clanID: int, playerID: int,
                                                 requestorID: int, creatorID: int, message: string, level: string)
      returns (r: Outcome)
      modifies this
      ensures var loaded := LoadApproveDenyParties(db.clanById(clanID), db.playerById, playerID, requestorID, creatorID);
        && (loaded.Err? ==> r == Fail(loaded.error) && outbox == old(outbox))
        && (loaded.Ok? ==>
              && r == Pass
              && AppendedOne(old(outbox), outbox, gameID, hookType)
              && IsApproveDenyPayload(outbox[|old(outbox)|].payload, gameID, loaded.value, message, level))
    {
      var loaded := LoadApproveDenyParties(db.clanById(clanID), db.playerById, playerID, requestorID, creatorID);
      if loaded.Err? {
        return Fail(loaded.error);
      }
      var parties := loaded.value;
      r := DispatchApproveDenyMembershipHook(hookType, gameID, parties.clan, parties.player, parties.requestor,
                                             parties.creator, message, level);
    }
  }

  // ----- Properties of the payloads -----

  /** No entity document of a payload carries "gameID"; the game id is only at the top level. */
  lemma ApproveDenyPayloadHidesGameId(p: map<string, Json>, gameID: string, parties: ApproveDenyParties,
                                      message: string, level: string)
    requires IsApproveDenyPayload(p, gameID, parties, message, level)
    ensures forall e :: e in {"clan", "player", "requestor", "creator"} ==> "gameID" !in p[e].fields
    ensures p["gameID"] == JString(gameID)
  {
  }

  /** No entity document of a plain membership payload carries "gameID". */
  lemma MembershipPayloadHidesGameId(p: map<string, Json>, gameID: string, parties: Parties,
                                     message: string, level: string)
    requires IsMembershipPayload(p, gameID, parties, message, level)
    ensures forall e :: e in {"clan", "player", "requestor"} ==> "gameID" !in p[e].fields
    ensures p["gameID"] == JString(gameID)
  {
  }

  /** Reading the optional message back from a plain membership payload gives the dispatched message. */
  lemma MembershipMessageRoundTrip(p: map<string, Json>, gameID: string, parties: Parties, message: string, level: string)
    requires IsMembershipPayload(p, gameID, parties, message, level)
    ensures MessageIsString(p)
    ensures OptionalMessage(p) == message
  {
  }

  /** The payload properties leave no freedom: at most one payload satisfies them. */
  lemma MembershipPayloadDetermined(p1: map<string, Json>, p2: map<string, Json>, gameID: string,
                                    parties: Parties, message: string, level: string)
    requires IsMembershipPayload(p1, gameID, parties, message, level)
    requires IsMembershipPayload(p2, gameID, parties, message, level)
    ensures p1 == p2
  {
    DocDetermined(p1["clan"].fields, p2["clan"].fields, parties.clan.serialized);
    DocDetermined(p1["requestor"].fields, p2["requestor"].fields, parties.requestor.serialized);
    PlayerDocDetermined(p1["player"].fields, p2["player"].fields, parties.player.serialized, level);
  }

  /** As above, for approve and deny payloads. */
  lemma ApproveDenyPayloadDetermined(p1: map<string, Json>, p2: map<string, Json>, gameID: string,
                                     parties: ApproveDenyParties, message: string, level: string)
    requires IsApproveDenyPayload(p1, gameID, parties, message, level)
    requires IsApproveDenyPayload(p2, gameID, parties, message, level)
    ensures p1 == p2
  {
    DocDetermined(p1["clan"].fields, p2["clan"].fields, parties.clan.serialized);
    DocDetermined(p1["requestor"].fields, p2["requestor"].fields, parties.requestor.serialized);
    DocDetermined(p1["creator"].fields, p2["creator"].fields, parties.creator.serialized);
    PlayerDocDetermined(p1["player"].fields, p2["player"].fields, parties.player.serialized, level);
  }

  lemma DocDetermined(d1: map<string, Json>, d2: map<string, Json>, serialized: map<string, Json>)
    requires Redacted(d1, serialized) && Redacted(d2, serialized)
    ensures d1 == d2
  {
  }

  lemma PlayerDocDetermined(d1: map<string, Json>, d2: map<string, Json>, serialized: map<string, Json>, level: string)
    requires PlayerDoc(d1, serialized, level) && PlayerDoc(d2, serialized, level)
    ensures d1 == d2
  {
  }

  /**
   Reading the optional message back from an event payload, by the same rule
   as requests, gives the message that was dispatched (the empty message
   included, as an absent key).
   */
  lemma MessageRoundTrip(p: map<string, Json>, gameID: string, parties: ApproveDenyParties, message: string, level: string)
    requires IsApproveDenyPayload(p, gameID, parties, message, level)
    ensures MessageIsString(p)
    ensures OptionalMessage(p) == message
  {
  }
}
