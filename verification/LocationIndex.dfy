/** The spatial presence index: a chunk map kept as the exact inverse of a plain player-to-location map. */
module LocationIndex {
  import opened Common

  const PRESENCE_CHUNK_SIZE := 32
  const MAX_PRESENCE_RESULTS := 2_000

  type Player = string

  datatype Location = Location(player: Player, x: U16, y: U16, updatedAtMs: U64)

  datatype Query = Query(minX: U16, maxX: U16, minY: U16, maxY: U16) {
    predicate Contains(l: Location) { minX <= l.x <= maxX && minY <= l.y <= maxY }
  }

  type Chunk = (nat, nat)

  function ChunkOf(x: nat, y: nat): Chunk { (x / PRESENCE_CHUNK_SIZE, y / PRESENCE_CHUNK_SIZE) }

  function ChunkAt(l: Location): Chunk { ChunkOf(l.x, l.y) }

  /** The chunk map a set of locations must have: no chunk without players. */
  function Inverse(byPlayer: map<Player, Location>): map<Chunk, set<Player>> {
    map c | c in (set p | p in byPlayer :: ChunkAt(byPlayer[p])) :: Within(byPlayer, c)
  }

  function Within(byPlayer: map<Player, Location>, c: Chunk): set<Player> {
    set p | p in byPlayer && ChunkAt(byPlayer[p]) == c
  }

  /** The players a query should find: those in the rectangle, its four edges included. */
  ghost function Matching(byPlayer: map<Player, Location>, q: Query): set<Player> {
    set p | p in byPlayer && q.minX <= byPlayer[p].x && byPlayer[p].x <= q.maxX && q.minY <= byPlayer[p].y && byPlayer[p].y <= q.maxY
  }

  function Removed(byPlayer: map<Player, Location>, p: Player): map<Player, Location> { byPlayer - {p} }

  /** A location inside the rectangle lies in one of the chunks the query walks. */
  lemma ChunkInRange(q: Query, l: Location)
    requires q.Contains(l)
    ensures ChunkOf(q.minX, q.minY).0 <= ChunkAt(l).0 <= ChunkOf(q.maxX, q.maxY).0
    ensures ChunkOf(q.minX, q.minY).1 <= ChunkAt(l).1 <= ChunkOf(q.maxX, q.maxY).1
  {}

  lemma InverseHas(byPlayer: map<Player, Location>, c: Chunk)
    ensures c in Inverse(byPlayer) <==> Within(byPlayer, c) != {}
  {
    if Within(byPlayer, c) != {} {
      var p :| p in Within(byPlayer, c);
      assert p in byPlayer && ChunkAt(byPlayer[p]) == c;
    }
    if p :| p in byPlayer && ChunkAt(byPlayer[p]) == c { assert p in Within(byPlayer, c); }
  }

  /** Taking a player out of its chunk, and the chunk out if it is empty, inverts the smaller map. */
  lemma InverseWithout(byPlayer: map<Player, Location>, p: Player)
    requires p in byPlayer
    ensures var c := ChunkAt(byPlayer[p]);
            && c in Inverse(byPlayer)
            && Inverse(Removed(byPlayer, p))
            == if Inverse(byPlayer)[c] - {p} == {} then Inverse(byPlayer) - {c}
               else Inverse(byPlayer)[c := Inverse(byPlayer)[c] - {p}]
  {
    var c := ChunkAt(byPlayer[p]);
    var rest := Removed(byPlayer, p);
    forall d ensures Within(rest, d) == if d == c then Within(byPlayer, d) - {p} else Within(byPlayer, d) {}
    forall d ensures d in Inverse(rest) <==> Within(rest, d) != {} { InverseHas(rest, d); }
    forall d ensures d in Inverse(byPlayer) <==> Within(byPlayer, d) != {} { InverseHas(byPlayer, d); }
    assert p in Within(byPlayer, c);
  }

  lemma InverseWith(byPlayer: map<Player, Location>, l: Location)
    requires l.player !in byPlayer
    ensures var c := ChunkAt(l);
            var players := if c in Inverse(byPlayer) then Inverse(byPlayer)[c] else {};
            Inverse(byPlayer[l.player := l]) == Inverse(byPlayer)[c := players + {l.player}]
  {
    var c := ChunkAt(l);
    var more := byPlayer[l.player := l];
    forall d ensures Within(more, d) == if d == c then Within(byPlayer, d) + {l.player} else Within(byPlayer, d) {}
    forall d ensures d in Inverse(more) <==> Within(more, d) != {} { InverseHas(more, d); }
    forall d ensures d in Inverse(byPlayer) <==> Within(byPlayer, d) != {} { InverseHas(byPlayer, d); }
    assert l.player in Within(more, c);
  }

  class Index {
    var byPlayer: map<Player, Location>
    var chunks: map<Chunk, set<Player>>

    constructor ()
      ensures Valid() && byPlayer == map[]
    {
      byPlayer, chunks := map[], map[];
    }

    /** The chunk map is exactly the inverse of the player map; in particular no chunk is empty. */
    predicate Valid()
      reads this
    {
      && chunks == Inverse(byPlayer)
      && forall p <- byPlayer :: byPlayer[p].player == p
    }

    method Remove(player: Player)
      requires Valid()
      modifies this
      ensures Valid() && byPlayer == Removed(old(byPlayer), player)
    {
      if player !in byPlayer { return; }
      InverseWithout(byPlayer, player);
      var previous := byPlayer[player];
      byPlayer := byPlayer - {player};
      var chunk := ChunkOf(previous.x, previous.y);
      if chunk in chunks {
        var players := chunks[chunk] - {player};
        chunks := chunks[chunk := players];
        if players == {} { chunks := chunks - {chunk}; }
      }
    }

    method Upsert(location: Location)
      requires Valid()
      modifies this
      ensures Valid() && byPlayer == old(byPlayer)[location.player := location]
    {
      ghost var before := byPlayer;
      Remove(location.player);
      InverseWith(byPlayer, location);
      var chunk := ChunkOf(location.x, location.y);
      var players := if chunk in chunks then chunks[chunk] else {};
      chunks := chunks[chunk := players + {location.player}];
      byPlayer := byPlayer[location.player := location];
      assert byPlayer == before[location.player := location];
    }

    /** Only active players seen since the cutoff stay. */
    method RetainActive(active: set<Player>, cutoff: U64)
      requires Valid()
      modifies this
      ensures Valid()
      ensures byPlayer == map p | p in old(byPlayer) && p in active && old(byPlayer)[p].updatedAtMs >= cutoff :: old(byPlayer)[p]
    {
      ghost var before := byPlayer;
      var stale := set p | p in byPlayer && (p !in active || byPlayer[p].updatedAtMs < cutoff);
      ghost var all := stale;
      while stale != {}
        invariant Valid() && stale <= all
        invariant byPlayer == before - (all - stale)
      {
        var p :| p in stale;
        Remove(p);
        stale := stale - {p};
      }
    }

    /**
     Exactly the locations in the rectangle, each once; beyond the limit, exactly that many of them, flagged.
     Within a chunk players come in any order.
    */
    method Find(q: Query) returns (locations: seq<Location>, truncated: bool)
      requires Valid()
      ensures forall l <- locations :: l.player in Matching(byPlayer, q) && byPlayer[l.player] == l
      ensures forall i, j :: 0 <= i < j < |locations| ==> locations[i].player != locations[j].player
      ensures truncated <==> |Matching(byPlayer, q)| > 2_000
      ensures |locations| == if truncated then 2_000 else |Matching(byPlayer, q)|
      ensures !truncated ==> forall p <- Matching(byPlayer, q) :: byPlayer[p] in locations
    {
      hide Gathered;
      NothingGathered(byPlayer, q);
      var low, high := ChunkOf(q.minX, q.minY), ChunkOf(q.maxX, q.maxY);
      locations, truncated := [], false;
      ghost var found: set<Player> := {};
      var y := low.1;
      while y <= high.1
        invariant low.1 <= y && !truncated
        invariant Gathered(byPlayer, q, locations, found) && |locations| <= MAX_PRESENCE_RESULTS
        invariant forall p :: p in found <==> p in Matching(byPlayer, q) && ChunkAt(byPlayer[p]).1 < y
        decreases high.1 - y
      {
        var x := low.0;
        while x <= high.0
          invariant low.0 <= x && !truncated
          invariant Gathered(byPlayer, q, locations, found) && |locations| <= MAX_PRESENCE_RESULTS
          invariant forall p :: p in found <==>
                      p in Matching(byPlayer, q) && (ChunkAt(byPlayer[p]).1 < y || (ChunkAt(byPlayer[p]).1 == y && ChunkAt(byPlayer[p]).0 < x))
          decreases high.0 - x
        {
          InverseHas(byPlayer, (x, y));
          if (x, y) in chunks {
            truncated, locations, found := FindIn(q, chunks[(x, y)], locations, found);
            if truncated {
              GatheredAll(byPlayer, q, locations, found);
              return;
            }
          }
          x := x + 1;
        }
        forall p | p in Matching(byPlayer, q) ensures low.0 <= ChunkAt(byPlayer[p]).0 <= high.0 { ChunkInRange(q, byPlayer[p]); }
        y := y + 1;
      }
      forall p | p in Matching(byPlayer, q) ensures ChunkAt(byPlayer[p]).1 < y { ChunkInRange(q, byPlayer[p]); }
      assert found == Matching(byPlayer, q);
      GatheredAll(byPlayer, q, locations, found);
      return locations, false;
    }

    /** The players of one chunk that lie in the rectangle, until the limit is exceeded. */
    method FindIn(q: Query, chunk: set<Player>, before: seq<Location>, ghost earlier: set<Player>)
      returns (truncated: bool, locations: seq<Location>, ghost found: set<Player>)
      requires Valid() && chunk <= byPlayer.Keys && earlier !! chunk && earlier <= Matching(byPlayer, q)
      requires Gathered(byPlayer, q, before, earlier) && |before| <= MAX_PRESENCE_RESULTS
      ensures Gathered(byPlayer, q, locations, found) && |locations| <= MAX_PRESENCE_RESULTS
      ensures truncated ==> |locations| == MAX_PRESENCE_RESULTS < |Matching(byPlayer, q)|
      ensures !truncated ==> forall x :: x in found <==> x in earlier || (x in chunk && x in Matching(byPlayer, q))
    {
      hide Gathered, Inverse, Matching, ChunkAt;
      ghost var matching := Matching(byPlayer, q);
      locations, found := before, earlier;
      var players := chunk;
      while players != {}
        invariant players <= chunk
        invariant Gathered(byPlayer, q, locations, found) && |locations| <= MAX_PRESENCE_RESULTS
        invariant forall x :: x in found <==> x in earlier || (x in chunk && x in matching && x !in players)
      {
        var p :| p in players;
        players := players - {p};
        var location := byPlayer[p];
        InMatching(byPlayer, q, p);
        if q.Contains(location) {
          if |locations| == MAX_PRESENCE_RESULTS {
            GatheredCount(byPlayer, q, locations, found);
            Exceeds(found, p, matching);
            return true, locations, found;
          }
          GatheredOneMore(byPlayer, q, locations, found, p);
          locations := locations + [location];
          found := found + {p};
        }
      }
      return false, locations, found;
    }
  }

  /** The list so far: one entry per found player, its current location, inside the rectangle. */
  ghost predicate Gathered(m: map<Player, Location>, q: Query, locations: seq<Location>, found: set<Player>) {
    && |locations| == |found| && found <= m.Keys
    && (forall l <- locations :: l.player in found && m[l.player] == l && q.Contains(l))
    && (forall p <- found :: m[p] in locations)
    && (forall i, j :: 0 <= i < j < |locations| ==> locations[i].player != locations[j].player)
  }

  lemma InMatching(m: map<Player, Location>, q: Query, p: Player)
    requires p in m
    ensures p in Matching(m, q) <==> q.Contains(m[p])
  {}

  lemma NothingGathered(m: map<Player, Location>, q: Query)
    ensures Gathered(m, q, [], {})
  {}

  lemma GatheredAll(m: map<Player, Location>, q: Query, locations: seq<Location>, found: set<Player>)
    requires Gathered(m, q, locations, found)
    ensures |locations| == |found| && (forall p <- found :: p in m && m[p] in locations)
    ensures forall l <- locations :: l.player in m && m[l.player] == l && q.Contains(l)
    ensures forall i, j :: 0 <= i < j < |locations| ==> locations[i].player != locations[j].player
  {}

  lemma GatheredCount(m: map<Player, Location>, q: Query, locations: seq<Location>, found: set<Player>)
    requires Gathered(m, q, locations, found)
    ensures |locations| == |found| && found <= m.Keys
  {}

  lemma GatheredOneMore(m: map<Player, Location>, q: Query, locations: seq<Location>, found: set<Player>, p: Player)
    requires Gathered(m, q, locations, found) && p in m && p !in found && m[p].player == p && q.Contains(m[p])
    ensures Gathered(m, q, locations + [m[p]], found + {p})
  {}

  lemma Exceeds(found: set<Player>, p: Player, matching: set<Player>)
    requires found <= matching && p in matching && p !in found
    ensures |matching| > |found|
  {
    SubsetSize(found + {p}, matching);
  }

  // ----- any sequence of operations -----

  datatype Operation = Upsert(location: Location) | Remove(player: Player) | Retain(active: set<Player>, cutoff: U64)

  /** What the plain map does. */
  function Apply(m: map<Player, Location>, o: Operation): map<Player, Location> {
    match o
    case Upsert(l) => m[l.player := l]
    case Remove(p) => m - {p}
    case Retain(active, cutoff) => map p | p in m && p in active && m[p].updatedAtMs >= cutoff :: m[p]
  }

  function ApplyAll(operations: seq<Operation>): map<Player, Location> {
    if operations == [] then map[] else Apply(ApplyAll(operations[..|operations| - 1]), operations[|operations| - 1])
  }

  /** After any operations a query answers as the plain map would. */
  method RunThenFind(operations: seq<Operation>, q: Query) returns (locations: seq<Location>, truncated: bool)
    ensures var m := ApplyAll(operations);
            && (truncated <==> |Matching(m, q)| > 2_000)
            && |locations| == (if truncated then 2_000 else |Matching(m, q)|)
            && (forall l <- locations :: l.player in Matching(m, q) && m[l.player] == l)
            && (forall i, j :: 0 <= i < j < |locations| ==> locations[i].player != locations[j].player)
            && (!truncated ==> forall p <- Matching(m, q) :: m[p] in locations)
  {
    var index := new Index();
    for k := 0 to |operations|
      invariant fresh(index) && index.Valid() && index.byPlayer == ApplyAll(operations[..k])
    {
      assert operations[..k + 1][..k] == operations[..k];
      match operations[k]
      case Upsert(l) => index.Upsert(l);
      case Remove(p) => index.Remove(p);
      case Retain(active, cutoff) => index.RetainActive(active, cutoff);
    }
    assert operations[..|operations|] == operations;
    locations, truncated := index.Find(q);
  }
}
