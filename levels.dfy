/**
 The membership-level ladder of a game: a mapping from level name to integer
 rank. Sorting the ladder by rank gives the ordered levels, whose first and
 last ranks are the game's minimum and maximum membership levels.
 */
module Levels {
  import opened Values

  /** One entry of a ladder: a level name and its rank. */
  datatype Level = Level(name: string, rank: int)

  /** A game's `MembershipLevels`: level name to rank. */
  type Ladder = map<string, int>

  /** The derived minimum and maximum membership levels. */
  datatype Bounds = Bounds(min: int, max: int)

  predicate SortedByRank(s: seq<Level>) {
    forall i, j :: 0 <= i < j < |s| ==> s[i].rank <= s[j].rank
  }

  predicate DistinctNames(s: seq<Level>) {
    forall i, j :: 0 <= i < j < |s| ==> s[i].name != s[j].name
  }

  function Names(s: seq<Level>): (names: set<string>) {
    set l | l in s :: l.name
  }

  /** Every entry of `s` is an entry of the ladder. */
  predicate EntriesOf(s: seq<Level>, levels: Ladder) {
    forall l :: l in s ==> l.name in levels && levels[l.name] == l.rank
  }

  /** `s` lists every (name, rank) entry of the ladder exactly once, in ascending rank order. */
  predicate IsSortedLadder(s: seq<Level>, levels: Ladder) {
    SortedByRank(s) && DistinctNames(s) && EntriesOf(s, levels) && Names(s) == levels.Keys
  }

  /** `r` is a rank of the ladder and no rank of the ladder is smaller. */
  predicate IsLeastRank(levels: Ladder, r: int) {
    && (exists name :: name in levels && levels[name] == r)
    && forall name :: name in levels ==> r <= levels[name]
  }

  /** `r` is a rank of the ladder and no rank of the ladder is larger. */
  predicate IsGreatestRank(levels: Ladder, r: int) {
    && (exists name :: name in levels && levels[name] == r)
    && forall name :: name in levels ==> levels[name] <= r
  }

  /** The bounds reflect the ladder: its smallest and its largest rank. */
  predicate BoundsOf(levels: Ladder, b: Bounds) {
    IsLeastRank(levels, b.min) && IsGreatestRank(levels, b.max)
  }

  /** Inserts one entry into a rank-ordered sequence, before any entry of equal rank. */
  function InsertByRank(s: seq<Level>, l: Level): (r: seq<Level>)
    ensures |r| == |s| + 1
    ensures forall x :: x in r <==> x in s || x == l
  {
    if s == [] || l.rank <= s[0].rank then [l] + s
    else [s[0]] + InsertByRank(s[1..], l)
  }

  /** Inserting into a rank-ordered sequence keeps it rank-ordered. */
  lemma {:induction false} InsertKeepsSorted(s: seq<Level>, l: Level)
    requires SortedByRank(s)
    ensures SortedByRank(InsertByRank(s, l))
  {
    if s != [] && s[0].rank < l.rank {
      InsertKeepsSorted(s[1..], l);
      var rest := InsertByRank(s[1..], l);
      assert forall x :: x in s[1..] ==> s[0].rank <= x.rank by {
        forall x | x in s[1..] ensures s[0].rank <= x.rank {
          var j :| 0 <= j < |s[1..]| && s[1..][j] == x;
          assert s[j + 1] == x;
        }
      }
      assert forall j :: 0 <= j < |rest| ==> s[0].rank <= rest[j].rank by {
        forall j | 0 <= j < |rest| ensures s[0].rank <= rest[j].rank {
          assert rest[j] in rest;
        }
      }
      assert InsertByRank(s, l) == [s[0]] + rest;
    }
  }

  /** Inserting an entry with a new name keeps names distinct. */
  lemma {:induction false} InsertKeepsNamesDistinct(s: seq<Level>, l: Level)
    requires DistinctNames(s) && l.name !in Names(s)
    ensures DistinctNames(InsertByRank(s, l))
  {
    assert s != [] ==> s[0] in s;
    if s != [] && s[0].rank < l.rank {
      assert Names(s[1..]) <= Names(s) by {
        forall n | n in Names(s[1..]) ensures n in Names(s) {
          var x :| x in s[1..] && x.name == n;
        }
      }
      InsertKeepsNamesDistinct(s[1..], l);
      var rest := InsertByRank(s[1..], l);
      assert s[0].name !in Names(s[1..]);
      assert forall j :: 0 <= j < |rest| ==> s[0].name != rest[j].name by {
        forall j | 0 <= j < |rest| ensures s[0].name != rest[j].name {
          assert rest[j] in rest;
        }
      }
      assert InsertByRank(s, l) == [s[0]] + rest;
    }
  }

  /**
   `util.SortLevels`: the ladder's entries in ascending rank order. Entries
   are taken from the map in no particular order, as Go's map iteration does.
   */
  method SortLevels(levels: Ladder) returns (sorted: seq<Level>)
    ensures IsSortedLadder(sorted, levels)
  {
    sorted := [];
    var pending := levels.Keys;
    while pending != {}
      invariant pending <= levels.Keys
      invariant Names(sorted) == levels.Keys - pending
      invariant SortedByRank(sorted) && DistinctNames(sorted) && EntriesOf(sorted, levels)
      decreases pending
    {
      var name :| name in pending;
      var entry := Level(name, levels[name]);
      var next := InsertByRank(sorted, entry);
      InsertKeepsSorted(sorted, entry);
      InsertKeepsNamesDistinct(sorted, entry);
      assert Names(next) == Names(sorted) + {name} by {
        forall n | n in Names(next) ensures n in Names(sorted) + {name} {
          var l :| l in next && l.name == n;
        }
        assert entry in next;
        forall n | n in Names(sorted) ensures n in Names(next) {
          var l :| l in sorted && l.name == n;
          assert l in next;
        }
      }
      sorted := next;
      pending := pending - {name};
    }
  }

  /** The first and last entries of a sorted non-empty ladder carry its least and greatest ranks. */
  lemma SortedLadderEnds(s: seq<Level>, levels: Ladder)
    requires IsSortedLadder(s, levels)
    requires levels != map[]
    ensures |s| > 0
    ensures BoundsOf(levels, Bounds(s[0].rank, s[|s| - 1].rank))
  {
  }

  /**
   The derivation shared by `PreInsert`, `PreUpdate` and the upsert path of
   `CreateGame`: sort the ladder and read the ranks of its first and last
   entries. An empty ladder makes the source panic on index 0; here that is
   the `EmptyLadder` error.
   */
  method DeriveBounds(levels: Ladder) returns (r: Result<Bounds>)
    ensures levels == map[] <==> r == Err(EmptyLadder)
    ensures levels != map[] ==> r.Ok? && BoundsOf(levels, r.value)
    ensures r.Ok? ==> r.value.min <= r.value.max
  {
    var sorted := SortLevels(levels);
    if |sorted| == 0 {
      assert levels.Keys == {};
      return Err(EmptyLadder);
    }
    assert sorted[0] in sorted;
    SortedLadderEnds(sorted, levels);
    r := Ok(Bounds(sorted[0].rank, sorted[|sorted| - 1].rank));
  }

  /** A ladder has one pair of bounds: min and max are functions of the ladder alone. */
  lemma BoundsUnique(levels: Ladder, b1: Bounds, b2: Bounds)
    requires BoundsOf(levels, b1) && BoundsOf(levels, b2)
    ensures b1 == b2
  {
  }
}
