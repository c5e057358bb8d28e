/**
 The game policy record and the games table. A `Game` object is the
 in-memory struct whose insert and update hooks derive the minimum and maximum
 membership levels from the ladder and stamp the timestamps; `GameStore` is the
 games table, keyed by public id, with the lookups and the insert / upsert of
 `CreateGame` and `UpdateGame`.
 */
module Games {
  import opened Values
  import opened Levels

  /** The parameters of `CreateGame` other than the public id. */
  datatype GameSettings = GameSettings(
    name: string,
    levels: Ladder,
    metadata: map<string, Json>,
    minLevelAccept: int,
    minLevelCreate: int,
    minLevelRemove: int,
    minOffsetRemove: int,
    minOffsetPromote: int,
    minOffsetDemote: int,
    maxMembers: int,
    maxClans: int,
    cooldownAfterDeny: int,
    cooldownAfterDelete: int)

  /** One row of the games table: every column of the Game struct. */
  datatype GameRow = GameRow(
    id: int,
    publicId: string,
    name: string,
    minMembershipLevel: int,
    maxMembershipLevel: int,
    minLevelToAcceptApplication: int,
    minLevelToCreateInvitation: int,
    minLevelToRemoveMember: int,
    minLevelOffsetToRemoveMember: int,
    minLevelOffsetToPromoteMember: int,
    minLevelOffsetToDemoteMember: int,
    maxMembers: int,
    maxClansPerPlayer: int,
    membershipLevels: Ladder,
    metadata: map<string, Json>,
    createdAt: int,
    updatedAt: int,
    cooldownAfterDeny: int,
    cooldownAfterDelete: int)

  /** Every configurable column holds the matching parameter. */
  predicate HasSettings(g: GameRow, s: GameSettings) {
    && g.name == s.name
    && g.membershipLevels == s.levels
    && g.metadata == s.metadata
    && g.minLevelToAcceptApplication == s.minLevelAccept
    && g.minLevelToCreateInvitation == s.minLevelCreate
    && g.minLevelToRemoveMember == s.minLevelRemove
    && g.minLevelOffsetToRemoveMember == s.minOffsetRemove
    && g.minLevelOffsetToPromoteMember == s.minOffsetPromote
    && g.minLevelOffsetToDemoteMember == s.minOffsetDemote
    && g.maxMembers == s.maxMembers
    && g.maxClansPerPlayer == s.maxClans
    && g.cooldownAfterDeny == s.cooldownAfterDeny
    && g.cooldownAfterDelete == s.cooldownAfterDelete
  }

  /** The game invariant: a non-empty ladder whose least and greatest ranks are the stored min and max. */
  predicate LadderDerived(g: GameRow) {
    && g.membershipLevels != map[]
    && BoundsOf(g.membershipLevels, Bounds(g.minMembershipLevel, g.maxMembershipLevel))
  }

  /** Whenever the derived levels reflect the ladder, the minimum does not exceed the maximum. */
  lemma DerivedLevelsOrdered(g: GameRow)
    requires LadderDerived(g)
    ensures g.minMembershipLevel <= g.maxMembershipLevel
  {
  }

  /** A freshly inserted row: the settings, the derived levels, both timestamps `now`. */
  predicate IsNewRow(g: GameRow, publicId: string, s: GameSettings, now: int) {
    && g.publicId == publicId
    && HasSettings(g, s)
    && LadderDerived(g)
    && g.createdAt == now
    && g.updatedAt == now
  }

  /** The row that replaces `prev` on a public-id conflict: settings and levels replaced, id and creation kept. */
  predicate IsReplacedRow(g: GameRow, prev: GameRow, s: GameSettings, now: int) {
    && g.id == prev.id
    && g.publicId == prev.publicId
    && g.createdAt == prev.createdAt
    && g.updatedAt == now
    && HasSettings(g, s)
    && LadderDerived(g)
  }

  /** The row the upsert statement writes, from its parameters. */
  function UpsertRow(id: int, publicId: string, s: GameSettings, b: Bounds, createdAt: int, now: int): (row: GameRow) {
    GameRow(id, publicId, s.name, b.min, b.max,
            s.minLevelAccept, s.minLevelCreate, s.minLevelRemove,
            s.minOffsetRemove, s.minOffsetPromote, s.minOffsetDemote,
            s.maxMembers, s.maxClans, s.levels, s.metadata,
            createdAt, now, s.cooldownAfterDeny, s.cooldownAfterDelete)
  }

  /** The Game struct, whose insert and update hooks assign its fields in place. */
  class Game {
    var id: int
    var publicId: string
    var name: string
    var minMembershipLevel: int
    var maxMembershipLevel: int
    var minLevelToAcceptApplication: int
    var minLevelToCreateInvitation: int
    var minLevelToRemoveMember: int
    var minLevelOffsetToRemoveMember: int
    var minLevelOffsetToPromoteMember: int
    var minLevelOffsetToDemoteMember: int
    var maxMembers: int
    var maxClansPerPlayer: int
    var membershipLevels: Ladder
    var metadata: map<string, Json>
    var createdAt: int
    var updatedAt: int
    var cooldownAfterDeny: int
    var cooldownAfterDelete: int

    /** The struct's fields as a table row. */
    function Row(): (row: GameRow)
      reads this
    {
      GameRow(id, publicId, name, minMembershipLevel, maxMembershipLevel,
              minLevelToAcceptApplication, minLevelToCreateInvitation, minLevelToRemoveMember,
              minLevelOffsetToRemoveMember, minLevelOffsetToPromoteMember, minLevelOffsetToDemoteMember,
              maxMembers, maxClansPerPlayer, membershipLevels, metadata,
              createdAt, updatedAt, cooldownAfterDeny, cooldownAfterDelete)
    }

    /** The struct literal of the plain-insert path: the parameters, every other field zero. */
    constructor (publicId: string, s: GameSettings)
      ensures HasSettings(Row(), s)
      ensures this.publicId == publicId
      ensures id == 0 && minMembershipLevel == 0 && maxMembershipLevel == 0
      ensures createdAt == 0 && updatedAt == 0
    {
      this.id := 0;
      this.publicId := publicId;
      this.name := s.name;
      this.minMembershipLevel := 0;
      this.maxMembershipLevel := 0;
      this.minLevelToAcceptApplication := s.minLevelAccept;
      this.minLevelToCreateInvitation := s.minLevelCreate;
      this.minLevelToRemoveMember := s.minLevelRemove;
      this.minLevelOffsetToRemoveMember := s.minOffsetRemove;
      this.minLevelOffsetToPromoteMember := s.minOffsetPromote;
      this.minLevelOffsetToDemoteMember := s.minOffsetDemote;
      this.maxMembers := s.maxMembers;
      this.maxClansPerPlayer := s.maxClans;
      this.membershipLevels := s.levels;
      this.metadata := s.metadata;
      this.createdAt := 0;
      this.updatedAt := 0;
      this.cooldownAfterDeny := s.cooldownAfterDeny;
      this.cooldownAfterDelete := s.cooldownAfterDelete;
    }

    /**
     The insert hook: min and max from the sorted ladder, then both
     timestamps set to `now`. An empty ladder panics before any field is set.
     */
    method PreInsert(now: int) returns (r: Outcome)
      modifies this
      ensures old(membershipLevels) == map[] ==> r == Fail(EmptyLadder) && Row() == old(Row())
      ensures old(membershipLevels) != map[] ==> r == Pass && LadderDerived(Row())
      ensures old(membershipLevels) != map[] ==>
        Row() == old(Row()).(minMembershipLevel := minMembershipLevel,
                             maxMembershipLevel := maxMembershipLevel,
                             createdAt := now, updatedAt := now)
    {
      var bounds := DeriveBounds(membershipLevels);
      if bounds.Err? {
        return Fail(bounds.error);
      }
      minMembershipLevel := bounds.value.min;
      maxMembershipLevel := bounds.value.max;
      createdAt := now;
      updatedAt := createdAt;
      r := Pass;
    }

    /**
     The update hook: min and max recomputed from the current ladder and the
     update timestamp set to `now`; the creation timestamp is kept.
     */
    method PreUpdate(now: int) returns (r: Outcome)
      modifies this
      ensures old(membershipLevels) == map[] ==> r == Fail(EmptyLadder) && Row() == old(Row())
      ensures old(membershipLevels) != map[] ==> r == Pass && LadderDerived(Row())
      ensures old(membershipLevels) != map[] ==>
        Row() == old(Row()).(minMembershipLevel := minMembershipLevel,
                             maxMembershipLevel := maxMembershipLevel,
                             updatedAt := now)
    {
      var bounds := DeriveBounds(membershipLevels);
      if bounds.Err? {
        return Fail(bounds.error);
      }
      minMembershipLevel := bounds.value.min;
      maxMembershipLevel := bounds.value.max;
      updatedAt := now;
      r := Pass;
    }
  }

  /**
   The games table: rows keyed by public id (a unique column), the primary-key
   index from internal id to public id, and the serial that numbers new rows.
   */
  class GameStore {
    var games: map<string, GameRow>
    var ids: map<int, string>
    var nextId: int

    ghost predicate Valid()
      reads this
    {
      && (forall pid :: pid in games ==>
            && games[pid].publicId == pid
            && LadderDerived(games[pid])
            && games[pid].id in ids && ids[games[pid].id] == pid
            && games[pid].id < nextId)
      && (forall id :: id in ids ==> ids[id] in games && games[ids[id]].id == id)
    }

    /** An empty table whose serial starts at 1. */
    constructor ()
      ensures Valid() && games == map[] && ids == map[] && nextId == 1
    {
      games := map[];
      ids := map[];
      nextId := 1;
    }

    /** `GetGameByID`: the row with this internal id, or a not-found error naming "Game" and the id. */
    function GetGameByID(id: int): (r: Result<GameRow>)
      reads this
      requires Valid()
      ensures r.Ok? <==> exists pid :: pid in games && games[pid].id == id
      ensures r.Ok? ==> r.value.id == id && r.value.publicId in games && games[r.value.publicId] == r.value
      ensures r.Ok? ==> LadderDerived(r.value)
      ensures r.Err? ==> r.error == NotFound("Game", IntKey(id))
    {
      if id in ids then Ok(games[ids[id]]) else Err(NotFound("Game", IntKey(id)))
    }

    /** `GetGameByPublicID`: the row with this public id, or a not-found error naming "Game" and the public id. */
    function GetGameByPublicID(publicId: string): (r: Result<GameRow>)
      reads this
      requires Valid()
      ensures r.Ok? <==> publicId in games
      ensures r.Ok? ==> r.value.publicId == publicId && games[publicId] == r.value
      ensures r.Ok? ==> LadderDerived(r.value)
      ensures r.Err? ==> r.error == NotFound("Game", StringKey(publicId))
    {
      if publicId in games then Ok(games[publicId]) else Err(NotFound("Game", StringKey(publicId)))
    }

    /** `GetAllGames`: every row once, in no particular order. */
    method GetAllGames() returns (rows: seq<GameRow>)
      requires Valid()
      ensures forall pid :: pid in games ==> games[pid] in rows
      ensures forall g :: g in rows ==> g.publicId in games && games[g.publicId] == g
      ensures forall i, j :: 0 <= i < j < |rows| ==> rows[i].publicId != rows[j].publicId
    {
      rows := [];
      var pending := games.Keys;
      while pending != {}
        invariant pending <= games.Keys
        invariant forall pid :: pid in games && pid !in pending ==> games[pid] in rows
        invariant forall g :: g in rows ==> g.publicId in games && g.publicId !in pending && games[g.publicId] == g
        invariant forall i, j :: 0 <= i < j < |rows| ==> rows[i].publicId != rows[j].publicId
        decreases pending
      {
        var pid :| pid in pending;
        rows := rows + [games[pid]];
        pending := pending - {pid};
      }
    }

    /**
     `CreateGame`. With `upsert` it is insert-or-replace keyed by public id;
     without it, a plain insert through the insert hook, refused by the
     table's unique public id when the id is taken.
     */
    method CreateGame(publicId: string, s: GameSettings, upsert: bool, now: int) returns (r: Result<GameRow>)
      requires Valid()
      modifies this
      ensures Valid()
      ensures s.levels == map[] ==>
        r == Err(EmptyLadder) && games == old(games) && ids == old(ids) && nextId == old(nextId)
      ensures s.levels != map[] && !upsert && publicId in old(games) ==>
        r == Err(DuplicatePublicId(publicId)) && games == old(games) && ids == old(ids) && nextId == old(nextId)
      ensures s.levels != map[] && publicId !in old(games) ==>
        && r.Ok? && IsNewRow(r.value, publicId, s, now)
        && r.value.id !in old(ids)
        && games == old(games)[publicId := r.value]
      ensures s.levels != map[] && upsert && publicId in old(games) ==>
        && r.Ok? && IsReplacedRow(r.value, old(games)[publicId], s, now)
        && games == old(games)[publicId := r.value]
    {
      if !upsert {
        var game := new Game(publicId, s);
        var hook := game.PreInsert(now);
        if hook.Fail? {
          return Err(hook.error);
        }
        if publicId in games {
          return Err(DuplicatePublicId(publicId));
        }
        game.id := nextId;
        games := games[publicId := game.Row()];
        ids := ids[nextId := publicId];
        nextId := nextId + 1;
        return Ok(game.Row());
      }

      var bounds := DeriveBounds(s.levels);
      if bounds.Err? {
        return Err(bounds.error);
      }
      if publicId in games {
        var prev := games[publicId];
        games := games[publicId := UpsertRow(prev.id, publicId, s, bounds.value, prev.createdAt, now)];
      } else {
        games := games[publicId := UpsertRow(nextId, publicId, s, bounds.value, now, now)];
        ids := ids[nextId := publicId];
        nextId := nextId + 1;
      }
      r := GetGameByPublicID(publicId);
    }

    /** `UpdateGame`: exactly the upsert path of `CreateGame`, so a missing game is created. */
    method UpdateGame(publicId: string, s: GameSettings, now: int) returns (r: Result<GameRow>)
      requires Valid()
      modifies this
      ensures Valid()
      ensures s.levels == map[] ==>
        r == Err(EmptyLadder) && games == old(games) && ids == old(ids) && nextId == old(nextId)
      ensures s.levels != map[] && publicId !in old(games) ==>
        && r.Ok? && IsNewRow(r.value, publicId, s, now)
        && r.value.id !in old(ids)
        && games == old(games)[publicId := r.value]
      ensures s.levels != map[] && publicId in old(games) ==>
        && r.Ok? && IsReplacedRow(r.value, old(games)[publicId], s, now)
        && games == old(games)[publicId := r.value]
    {
      r := CreateGame(publicId, s, true, now);
    }
  }
}
