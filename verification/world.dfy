/** The world of World.cs: the chunk registry, the streaming square around
    the observer's chunk, the generation queue drained in LateUpdate, and
    the routing of edits and reads to the owning chunk. */
module World {
  import opened Wrappers
  import opened Seqs
  import opened Blocks
  import opened Coords
  import opened HeightField
  import opened Voxels
  import opened Mesher
  import opened Chunks

  /** The inspector settings and the per-run random base offset. */
  datatype Config = Config(size: nat, renderDistance: int, terrain: Terrain, offset: Coord)

  /** A chunk size of zero makes every floor division divide by zero. */
  predicate ConfigOk(cfg: Config) {
    cfg.size >= 1
  }

  /** A registry entry: the dictionary key, the chunk, and whether its game
      object is active. */
  datatype Entry = Entry(key: Coord, chunk: Chunk, active: bool)

  /** The world's mutable state. The registry is a dictionary that is never
      removed from, so its enumeration order is insertion order. */
  datatype WorldState = WorldState(
    chunks: seq<Entry>,
    queue: seq<Coord>,
    playerChunk: Coord,
    chunksPerSecond: int,
    lastGeneration: real,
    placed: seq<Pos>)

  /** The stored observer chunk, the generation rate and the last
      generation time agree. */
  predicate SameClock(a: WorldState, b: WorldState) {
    a.playerChunk == b.playerChunk && a.chunksPerSecond == b.chunksPerSecond && a.lastGeneration == b.lastGeneration
  }

  /** `a` is what is left of `b` after dequeuing from the front. */
  ghost predicate IsSuffix<T>(a: seq<T>, b: seq<T>) {
    |a| <= |b| && a == b[|b| - |a|..]
  }

  /** At most one entry per key; each chunk sits under its own coordinate,
      has the configured size and keeps the height-map invariant. */
  ghost predicate RegistryOk(cfg: Config, chunks: seq<Entry>) {
    && (forall i, j :: 0 <= i < j < |chunks| ==> chunks[i].key != chunks[j].key)
    && (forall i :: 0 <= i < |chunks| ==> EntryOk(cfg, chunks[i]))
  }

  /** An entry's chunk sits under its own key, has the configured size and
      keeps the height-map invariant. */
  ghost predicate EntryOk(cfg: Config, e: Entry) {
    e.chunk.position == e.key && Sound(e.chunk) && e.chunk.volume.size == cfg.size
  }

  /** `ContainsKey`. */
  predicate Registered(chunks: seq<Entry>, c: Coord) {
    exists i | 0 <= i < |chunks| :: chunks[i].key == c
  }

  /** The first entry whose chunk reports position `c`: the routing loops
      compare `GetPosition()` rather than the key. */
  function Find(chunks: seq<Entry>, c: Coord): (r: Option<nat>)
    ensures r.Some? ==> r.value < |chunks| && chunks[r.value].chunk.position == c
    ensures r.Some? ==> forall j :: 0 <= j < r.value ==> chunks[j].chunk.position != c
    ensures r.None? ==> forall j :: 0 <= j < |chunks| ==> chunks[j].chunk.position != c
    decreases |chunks|
  {
    if chunks == [] then None
    else if chunks[0].chunk.position == c then Some(0)
    else
      match Find(chunks[1..], c)
      case None => None
      case Some(k) => Some(k + 1)
  }

  /** In a sound registry the position search finds exactly the entry under key `c`. */
  lemma FindIsKeyLookup(cfg: Config, chunks: seq<Entry>, c: Coord)
    requires RegistryOk(cfg, chunks)
    ensures Find(chunks, c).Some? <==> Registered(chunks, c)
    ensures Find(chunks, c).Some? ==> chunks[Find(chunks, c).value].key == c
  {
  }

  // ---------------------------------------------------------------- streaming

  /** Squared distance between two chunk coordinates (`sqrMagnitude`). */
  function SqDist(a: Coord, b: Coord): int {
    (a.x - b.x) * (a.x - b.x) + (a.z - b.z) * (a.z - b.z)
  }

  /** The half-open square the streaming loops visit around `p`. */
  predicate InSquare(p: Coord, r: int, c: Coord) {
    p.x - r <= c.x < p.x + r && p.z - r <= c.z < p.z + r
  }

  /** Coordinates (x, z), (x, z + 1), … below `hi`. */
  function Row(x: int, z: int, hi: int): (s: seq<Coord>)
    ensures forall c :: c in s <==> c.x == x && z <= c.z < hi
    ensures |s| == if z < hi then hi - z else 0
    ensures Distinct(s)
    decreases hi - z
  {
    if z >= hi then [] else [Coord(x, z)] + Row(x, z + 1, hi)
  }

  /** The rows x, x + 1, … below `hiX`, each spanning `[loZ, hiZ)`. */
  function Rows(x: int, hiX: int, loZ: int, hiZ: int): (s: seq<Coord>)
    ensures forall c :: c in s <==> x <= c.x < hiX && loZ <= c.z < hiZ
    ensures Distinct(s)
    ensures x <= hiX && loZ <= hiZ ==> |s| == Times(hiX - x, hiZ - loZ)
    decreases hiX - x
  {
    if x >= hiX then []
    else
      var head := Row(x, loZ, hiZ);
      var tail := Rows(x + 1, hiX, loZ, hiZ);
      DistinctConcat(head, tail);
      head + tail
  }

  /** The coordinates `RequestChunkUpdate` visits around `p`, x-major. */
  function Square(p: Coord, r: int): (s: seq<Coord>)
    ensures forall c :: c in s <==> InSquare(p, r, c)
    ensures Distinct(s)
    ensures r >= 0 ==> |s| == Times(2 * r, 2 * r)
  {
    Rows(p.x - r, p.x + r, p.z - r, p.z + r)
  }

  /** `n + n + … + n`, `k` times. */
  function Times(k: nat, n: nat): nat {
    if k == 0 then 0 else n + Times(k - 1, n)
  }

  lemma {:induction false} TimesIsProduct(k: nat, n: nat)
    ensures Times(k, n) == k * n
  {
    if k > 0 {
      TimesIsProduct(k - 1, n);
    }
  }

  /** The square holds `(2r)²` coordinates, not the `(2r + 1)²` of a square
      centred on `p`. */
  lemma SquareCount(p: Coord, r: nat)
    ensures |Square(p, r)| == 4 * r * r
  {
    TimesIsProduct(2 * r, 2 * r);
    DoubleSquared(r);
  }

  lemma DoubleSquared(r: int)
    ensures (2 * r) * (2 * r) == 4 * r * r
  {
  }

  /** The coordinates of `cs` not registered, in order. */
  function Missing(chunks: seq<Entry>, cs: seq<Coord>): (s: seq<Coord>)
    ensures forall c :: c in s <==> c in cs && !Registered(chunks, c)
    decreases |cs|
  {
    if cs == [] then []
    else
      var tail := Missing(chunks, cs[1..]);
      assert forall c :: c in cs <==> c == cs[0] || c in cs[1..];
      if Registered(chunks, cs[0]) then tail else [cs[0]] + tail
  }

  /** Filtering a list without repeats gives a list without repeats. */
  lemma {:induction false} MissingDistinct(chunks: seq<Entry>, cs: seq<Coord>)
    requires Distinct(cs)
    ensures Distinct(Missing(chunks, cs))
    decreases |cs|
  {
    if cs != [] {
      assert Distinct(cs[1..]) by {
        forall i, j | 0 <= i < j < |cs[1..]| ensures cs[1..][i] != cs[1..][j] {
          assert cs[1..][i] == cs[i + 1] && cs[1..][j] == cs[j + 1];
        }
      }
      MissingDistinct(chunks, cs[1..]);
      if !Registered(chunks, cs[0]) {
        assert cs[0] !in cs[1..];
        DistinctConcat([cs[0]], Missing(chunks, cs[1..]));
      }
    }
  }

  lemma {:induction false} MissingSameRegistry(a: seq<Entry>, b: seq<Entry>, cs: seq<Coord>)
    requires forall c :: Registered(a, c) <==> Registered(b, c)
    ensures Missing(a, cs) == Missing(b, cs)
    decreases |cs|
  {
    if cs != [] {
      MissingSameRegistry(a, b, cs[1..]);
    }
  }

  /** Same keys and chunks, in the same order; only activity may differ. */
  ghost predicate SameRegistry(a: seq<Entry>, b: seq<Entry>) {
    |a| == |b| && forall i :: 0 <= i < |a| ==> a[i].key == b[i].key && a[i].chunk == b[i].chunk
  }

  lemma SameRegistryRegistered(a: seq<Entry>, b: seq<Entry>)
    requires SameRegistry(a, b)
    ensures forall c :: Registered(a, c) <==> Registered(b, c)
  {
    forall c ensures Registered(a, c) <==> Registered(b, c) {
      if Registered(a, c) {
        var i :| 0 <= i < |a| && a[i].key == c;
        assert b[i].key == c;
      }
      if Registered(b, c) {
        var i :| 0 <= i < |b| && b[i].key == c;
        assert a[i].key == c;
      }
    }
  }

  /** `_chunks[c].gameObject.SetActive(true)`. */
  function Activate(chunks: seq<Entry>, c: Coord): (r: seq<Entry>)
    ensures SameRegistry(r, chunks)
    ensures forall i :: 0 <= i < |r| ==> r[i].active == (chunks[i].active || chunks[i].key == c)
  {
    seq(|chunks|, i requires 0 <= i < |chunks| =>
      if chunks[i].key == c then chunks[i].(active := true) else chunks[i])
  }

  /** The second loop of `RequestChunkUpdate` over the coordinates `cs`:
      a registered coordinate's chunk is activated, any other is enqueued. */
  function Visit(w: WorldState, cs: seq<Coord>): (r: WorldState)
    ensures SameRegistry(r.chunks, w.chunks)
    ensures r.queue == w.queue + Missing(w.chunks, cs)
    ensures SameClock(r, w) && r.placed == w.placed
    decreases |cs|
  {
    if cs == [] then w
    else if Registered(w.chunks, cs[0]) then
      var w1 := w.(chunks := Activate(w.chunks, cs[0]));
      SameRegistryRegistered(w1.chunks, w.chunks);
      MissingSameRegistry(w1.chunks, w.chunks, cs[1..]);
      Visit(w1, cs[1..])
    else
      var w1 := w.(queue := w.queue + [cs[0]]);
      assert w1.queue + Missing(w.chunks, cs[1..]) == w.queue + Missing(w.chunks, cs);
      Visit(w1, cs[1..])
  }

  /** After the visit a chunk is active exactly when it was, or its key was visited. */
  lemma {:induction false} VisitActivates(w: WorldState, cs: seq<Coord>)
    ensures var r := Visit(w, cs);
      forall i :: 0 <= i < |r.chunks| ==> r.chunks[i].active == (w.chunks[i].active || w.chunks[i].key in cs)
    decreases |cs|
  {
    if cs != [] {
      var c := cs[0];
      var w1 := if Registered(w.chunks, c) then w.(chunks := Activate(w.chunks, c)) else w.(queue := w.queue + [c]);
      VisitActivates(w1, cs[1..]);
      assert forall k :: k in cs <==> k == c || k in cs[1..];
    }
  }

  /** The first loop of `RequestChunkUpdate`: chunks farther than the render
      distance from the stored coordinate are deactivated. */
  function Deactivate(cfg: Config, w: WorldState): (r: WorldState)
    ensures SameRegistry(r.chunks, w.chunks)
    ensures forall i :: 0 <= i < |r.chunks| ==>
      r.chunks[i].active == (w.chunks[i].active && SqDist(w.playerChunk, w.chunks[i].key) <= cfg.renderDistance * cfg.renderDistance)
    ensures SameClock(r, w) && r.placed == w.placed && r.queue == w.queue
  {
    var rr := cfg.renderDistance * cfg.renderDistance;
    w.(chunks := seq(|w.chunks|, i requires 0 <= i < |w.chunks| =>
      if SqDist(w.playerChunk, w.chunks[i].key) > rr then w.chunks[i].(active := false) else w.chunks[i]))
  }

  /** `RequestChunkUpdate`, around the coordinate stored in the state. No
      chunk leaves the registry; a chunk ends active exactly when it lies in
      the half-open square, or was active and within the render distance;
      the unregistered coordinates of the square are enqueued in x-major
      order, each once. */
  function RequestChunkUpdate(cfg: Config, w: WorldState): (r: WorldState)
    ensures SameRegistry(r.chunks, w.chunks)
    ensures forall i :: 0 <= i < |r.chunks| ==>
      (r.chunks[i].active <==>
         InSquare(w.playerChunk, cfg.renderDistance, w.chunks[i].key) ||
         (w.chunks[i].active && SqDist(w.playerChunk, w.chunks[i].key) <= cfg.renderDistance * cfg.renderDistance))
    ensures w.queue <= r.queue
    ensures forall c :: c in r.queue[|w.queue|..] <==> InSquare(w.playerChunk, cfg.renderDistance, c) && !Registered(w.chunks, c)
    ensures r.queue[|w.queue|..] == Missing(w.chunks, Square(w.playerChunk, cfg.renderDistance))
    ensures Distinct(r.queue[|w.queue|..])
    ensures SameClock(r, w) && r.placed == w.placed
  {
    var d := Deactivate(cfg, w);
    SameRegistryRegistered(d.chunks, w.chunks);
    var r := Visit(d, Square(w.playerChunk, cfg.renderDistance));
    VisitActivates(d, Square(w.playerChunk, cfg.renderDistance));
    assert r.queue[|w.queue|..] == Missing(d.chunks, Square(w.playerChunk, cfg.renderDistance));
    MissingSameRegistry(d.chunks, w.chunks, Square(w.playerChunk, cfg.renderDistance));
    MissingDistinct(d.chunks, Square(w.playerChunk, cfg.renderDistance));
    r
  }

  /** Streaming keeps the registry sound. */
  lemma RequestKeepsRegistry(cfg: Config, w: WorldState)
    requires RegistryOk(cfg, w.chunks)
    ensures RegistryOk(cfg, RequestChunkUpdate(cfg, w).chunks)
  {
  }

  // ---------------------------------------------------------------- generation queue

  /** The rate gate `Time.time > last + 1f / chunksPerSecond`. A rate of 0
      divides to infinity and never passes; a positive rate needs the clock
      to have moved on; a negative rate passes whenever the clock has not
      gone back. */
  function Due(now: real, last: real, chunksPerSecond: int): (b: bool)
    ensures chunksPerSecond == 0 ==> !b
    ensures chunksPerSecond > 0 && b ==> now > last
    ensures chunksPerSecond < 0 && now >= last ==> b
  {
    chunksPerSecond != 0 && now > last + Interval(chunksPerSecond)
  }

  /** The wait between two generations, `1f / chunksPerSecond`. */
  function Interval(chunksPerSecond: int): (t: real)
    requires chunksPerSecond != 0
    ensures chunksPerSecond > 0 ==> t > 0.0
    ensures chunksPerSecond < 0 ==> t < 0.0
  {
    1.0 / chunksPerSecond as real
  }

  /** One pass of the `LateUpdate` loop body: dequeue, skip a coordinate
      already registered, otherwise generate the chunk and register it
      active. A throwing generation leaves the chunk unregistered. */
  function GenerateNext(cfg: Config, w: WorldState, now: real): (r: Outcome<WorldState>)
    requires |w.queue| > 0
    ensures r.state.queue == w.queue[1..] && r.state.lastGeneration == now
    ensures r.state.placed == w.placed && r.state.playerChunk == w.playerChunk && r.state.chunksPerSecond == w.chunksPerSecond
    ensures Registered(w.chunks, w.queue[0]) ==> r == Completed(r.state) && r.state.chunks == w.chunks
    ensures r.Threw? ==> r.state.chunks == w.chunks
    ensures r.Completed? && !Registered(w.chunks, w.queue[0]) ==>
      |r.state.chunks| == |w.chunks| + 1 && r.state.chunks[..|w.chunks|] == w.chunks &&
      r.state.chunks[|w.chunks|].key == w.queue[0] && r.state.chunks[|w.chunks|].active
  {
    var c := w.queue[0];
    var w1 := w.(lastGeneration := now, queue := w.queue[1..]);
    if Registered(w.chunks, c) then Completed(w1)
    else
      match GenerateChunk(c, cfg.size, cfg.terrain, cfg.offset)
      case Completed(chunk) =>
        var e := Entry(c, chunk, true);
        assert (w.chunks + [e])[..|w.chunks|] == w.chunks;
        Completed(w1.(chunks := w.chunks + [e]))
      case Threw(_, e) => Threw(w1, e)
  }

  /** One pass keeps the registry sound. */
  lemma GenerateNextKeepsRegistry(cfg: Config, w: WorldState, now: real)
    requires |w.queue| > 0 && RegistryOk(cfg, w.chunks)
    ensures RegistryOk(cfg, GenerateNext(cfg, w, now).state.chunks)
  {
    var c := w.queue[0];
    if !Registered(w.chunks, c) {
      var g := GenerateChunk(c, cfg.size, cfg.terrain, cfg.offset);
      if g.Completed? {
        RegisterNew(cfg, w.chunks, Entry(c, g.state, true));
      }
    }
  }

  /** Adding an entry under an unregistered key whose chunk sits there keeps the registry sound. */
  lemma RegisterNew(cfg: Config, chunks: seq<Entry>, e: Entry)
    requires !Registered(chunks, e.key) && EntryOk(cfg, e)
    ensures RegistryOk(cfg, chunks) ==> RegistryOk(cfg, chunks + [e])
    ensures (chunks + [e])[..|chunks|] == chunks
  {
    assert forall i :: 0 <= i < |chunks| ==> (chunks + [e])[i] == chunks[i];
  }

  /** `LateUpdate`: generate queued chunks while the rate gate passes. */
  function LateUpdate(cfg: Config, w: WorldState, now: real): (r: Outcome<WorldState>)
    ensures r.Completed? ==> r.state.queue == [] || !Due(now, r.state.lastGeneration, r.state.chunksPerSecond)
    ensures r.state.placed == w.placed && r.state.playerChunk == w.playerChunk
    ensures r.state.chunksPerSecond == w.chunksPerSecond
    decreases |w.queue|
  {
    if |w.queue| > 0 && Due(now, w.lastGeneration, w.chunksPerSecond) then
      match GenerateNext(cfg, w, now)
      case Threw(s, e) => Threw(s, e)
      case Completed(w1) => LateUpdate(cfg, w1, now)
    else Completed(w)
  }

  /** The registry stays sound. */
  lemma {:induction false} LateUpdateKeepsRegistry(cfg: Config, w: WorldState, now: real)
    requires RegistryOk(cfg, w.chunks)
    ensures RegistryOk(cfg, LateUpdate(cfg, w, now).state.chunks)
    decreases |w.queue|
  {
    if |w.queue| > 0 && Due(now, w.lastGeneration, w.chunksPerSecond) {
      var g := GenerateNext(cfg, w, now);
      if g.Completed? {
        assert LateUpdate(cfg, w, now) == LateUpdate(cfg, g.state, now);
        GenerateNextKeepsRegistry(cfg, w, now);
        LateUpdateKeepsRegistry(cfg, g.state, now);
      }
    }
  }

  /** The queue only shrinks, from the front. */
  lemma {:induction false} LateUpdateDequeues(cfg: Config, w: WorldState, now: real)
    ensures IsSuffix(LateUpdate(cfg, w, now).state.queue, w.queue)
    decreases |w.queue|
  {
    if |w.queue| > 0 && Due(now, w.lastGeneration, w.chunksPerSecond) {
      var g := GenerateNext(cfg, w, now);
      if g.Completed? {
        var r := LateUpdate(cfg, g.state, now);
        assert LateUpdate(cfg, w, now) == r;
        LateUpdateDequeues(cfg, g.state, now);
        SuffixOfTail(r.state.queue, w.queue);
      } else {
        SuffixOfTail(w.queue[1..], w.queue);
      }
    } else {
      assert w.queue[|w.queue| - |w.queue|..] == w.queue;
    }
  }

  lemma SuffixOfTail<T>(a: seq<T>, b: seq<T>)
    requires |b| > 0 && IsSuffix(a, b[1..])
    ensures IsSuffix(a, b)
  {
    assert b[1..][|b| - 1 - |a|..] == b[|b| - |a|..];
  }

  /** With nothing queued, or the gate closed, `LateUpdate` does nothing. */
  lemma LateUpdateIdle(cfg: Config, w: WorldState, now: real)
    requires w.queue == [] || !Due(now, w.lastGeneration, w.chunksPerSecond)
    ensures LateUpdate(cfg, w, now) == Completed(w)
  {
  }

  /** The registry only grows, at its end. */
  lemma {:induction false} LateUpdateGrows(cfg: Config, w: WorldState, now: real)
    ensures w.chunks <= LateUpdate(cfg, w, now).state.chunks
    decreases |w.queue|
  {
    if |w.queue| > 0 && Due(now, w.lastGeneration, w.chunksPerSecond) {
      var g := GenerateNext(cfg, w, now);
      if g.Completed? {
        assert LateUpdate(cfg, w, now) == LateUpdate(cfg, g.state, now);
        LateUpdateGrows(cfg, g.state, now);
      }
    }
  }

  /** Every key the registry gains came off the queue. */
  lemma {:induction false} LateUpdateKeysFromQueue(cfg: Config, w: WorldState, now: real)
    ensures var r := LateUpdate(cfg, w, now).state;
      forall i :: |w.chunks| <= i < |r.chunks| ==> r.chunks[i].key in w.queue
    decreases |w.queue|
  {
    if |w.queue| > 0 && Due(now, w.lastGeneration, w.chunksPerSecond) {
      var g := GenerateNext(cfg, w, now);
      if g.Completed? {
        var r := LateUpdate(cfg, g.state, now).state;
        assert LateUpdate(cfg, w, now).state == r;
        LateUpdateKeysFromQueue(cfg, g.state, now);
        LateUpdateGrows(cfg, g.state, now);
        forall i | |w.chunks| <= i < |r.chunks|
          ensures r.chunks[i].key in w.queue
        {
          if i < |g.state.chunks| {
            assert r.chunks[i] == g.state.chunks[i];
            assert g.state.chunks[i].key == w.queue[0];
          } else {
            assert r.chunks[i].key in w.queue[1..];
          }
        }
      }
    }
  }

  /** At a negative rate the gate always passes, so a `LateUpdate` that
      does not throw empties the queue. */
  lemma {:induction false} LateUpdateDrains(cfg: Config, w: WorldState, now: real)
    requires w.chunksPerSecond < 0 && w.lastGeneration <= now
    ensures LateUpdate(cfg, w, now).Completed? ==> LateUpdate(cfg, w, now).state.queue == []
    decreases |w.queue|
  {
    if |w.queue| > 0 {
      assert Due(now, w.lastGeneration, w.chunksPerSecond);
      var g := GenerateNext(cfg, w, now);
      if g.Completed? {
        assert LateUpdate(cfg, w, now) == LateUpdate(cfg, g.state, now);
        LateUpdateDrains(cfg, g.state, now);
      }
    }
  }

  /** At a positive rate, one `LateUpdate` dequeues at most one coordinate:
      after it the gate compares the clock with itself plus a positive step. */
  lemma LateUpdateAtMostOne(cfg: Config, w: WorldState, now: real)
    requires w.chunksPerSecond > 0
    ensures |LateUpdate(cfg, w, now).state.queue| >= |w.queue| - 1
    ensures |w.queue| > 0 && Due(now, w.lastGeneration, w.chunksPerSecond) ==>
      LateUpdate(cfg, w, now) == GenerateNext(cfg, w, now)
  {
    if |w.queue| > 0 && Due(now, w.lastGeneration, w.chunksPerSecond) {
      var g := GenerateNext(cfg, w, now);
      if g.Completed? {
        assert !Due(now, g.state.lastGeneration, g.state.chunksPerSecond);
        LateUpdateIdle(cfg, g.state, now);
      }
    } else {
      LateUpdateIdle(cfg, w, now);
    }
  }

  // ---------------------------------------------------------------- observer

  /** The chunk a real observer position lies in. */
  function ObserverChunk(cfg: Config, x: real, z: real): (c: Coord)
    requires ConfigOk(cfg)
    ensures (c.x * cfg.size) as real <= x < ((c.x + 1) * cfg.size) as real
    ensures (c.z * cfg.size) as real <= z < ((c.z + 1) * cfg.size) as real
  {
    Coord(FloorDivReal(x, cfg.size), FloorDivReal(z, cfg.size))
  }

  /** `World.Update`: on entering a new chunk, stream around the chunk stored
      so far, then store the new one. */
  function Update(cfg: Config, w: WorldState, x: real, z: real): (r: WorldState)
    requires ConfigOk(cfg)
    ensures r.playerChunk == ObserverChunk(cfg, x, z)
    ensures ObserverChunk(cfg, x, z) == w.playerChunk ==> r == w
    ensures ObserverChunk(cfg, x, z) != w.playerChunk ==>
      r == RequestChunkUpdate(cfg, w).(playerChunk := ObserverChunk(cfg, x, z))
  {
    var c := ObserverChunk(cfg, x, z);
    if c != w.playerChunk then RequestChunkUpdate(cfg, w).(playerChunk := c) else w
  }

  /** A second `Update` from the same position does nothing. */
  lemma UpdateIdempotent(cfg: Config, w: WorldState, x: real, z: real)
    requires ConfigOk(cfg)
    ensures Update(cfg, Update(cfg, w, x, z), x, z) == Update(cfg, w, x, z)
  {
  }

  /** The streaming `Update` triggers is centred on the previous chunk: the
      coordinates it enqueues are those missing around the old coordinate. */
  lemma UpdateStreamsAroundPreviousChunk(cfg: Config, w: WorldState, x: real, z: real)
    requires ConfigOk(cfg) && ObserverChunk(cfg, x, z) != w.playerChunk
    ensures forall c :: c in Update(cfg, w, x, z).queue[|w.queue|..] <==>
      InSquare(w.playerChunk, cfg.renderDistance, c) && !Registered(w.chunks, c)
  {
  }

  /** `World.Start`: the rate becomes five chunks per second per unit of
      render distance, the clock is sampled, and the square around chunk
      (0, 0) is requested. */
  function Start(cfg: Config, now: real): (w: WorldState)
    ensures w.chunks == [] && w.placed == [] && w.playerChunk == Coord(0, 0)
    ensures w.chunksPerSecond == cfg.renderDistance * 5 && w.lastGeneration == now
    ensures forall c :: c in w.queue <==> InSquare(Coord(0, 0), cfg.renderDistance, c)
    ensures Distinct(w.queue)
  {
    var w0 := WorldState([], [], Coord(0, 0), cfg.renderDistance * 5, now, []);
    var w := RequestChunkUpdate(cfg, w0);
    assert w.queue[0..] == w.queue;
    w
  }

  /** With render distance 1 the start-up square is the four chunks
      (-1, -1), (-1, 0), (0, -1), (0, 0): the loops stop before `p + r`. */
  lemma StartWithRadiusOne(cfg: Config, now: real)
    requires cfg.renderDistance == 1
    ensures Start(cfg, now).queue == [Coord(-1, -1), Coord(-1, 0), Coord(0, -1), Coord(0, 0)]
  {
    UnitSquare();
    MissingNothingRegistered(Square(Coord(0, 0), 1));
  }

  lemma UnitSquare()
    ensures Square(Coord(0, 0), 1) == [Coord(-1, -1), Coord(-1, 0), Coord(0, -1), Coord(0, 0)]
  {
    assert Row(-1, 1, 1) == [];
    assert Row(-1, 0, 1) == [Coord(-1, 0)];
    assert Row(-1, -1, 1) == [Coord(-1, -1), Coord(-1, 0)];
    assert Row(0, 1, 1) == [];
    assert Row(0, 0, 1) == [Coord(0, 0)];
    assert Row(0, -1, 1) == [Coord(0, -1), Coord(0, 0)];
    assert Rows(1, 1, -1, 1) == [];
    assert Rows(0, 1, -1, 1) == [Coord(0, -1), Coord(0, 0)];
  }

  lemma {:induction false} MissingNothingRegistered(cs: seq<Coord>)
    ensures Missing([], cs) == cs
    decreases |cs|
  {
    if cs != [] {
      MissingNothingRegistered(cs[1..]);
      assert !Registered([], cs[0]);
      assert cs == [cs[0]] + cs[1..];
    }
  }

  // ---------------------------------------------------------------- routing

  /** `List.Remove`: drops the first occurrence, if any. */
  function RemoveFirst(s: seq<Pos>, p: Pos): (r: seq<Pos>)
    ensures p in s ==> multiset(r) == multiset(s) - multiset{p}
    ensures p !in s ==> r == s
    decreases |s|
  {
    if s == [] then []
    else
      assert s == [s[0]] + s[1..];
      if s[0] == p then s[1..] else [s[0]] + RemoveFirst(s[1..], p)
  }

  /** The index of the first occurrence of `p`. */
  function FirstIndex(s: seq<Pos>, p: Pos): (k: nat)
    requires p in s
    ensures k < |s| && s[k] == p && p !in s[..k]
    decreases |s|
  {
    if s[0] == p then 0
    else
      var k := FirstIndex(s[1..], p);
      assert s[..k + 1] == [s[0]] + s[1..][..k];
      k + 1
  }

  /** `RemoveFirst` cuts out exactly the first occurrence and keeps the order of the rest. */
  lemma {:induction false} RemoveFirstCutsFirst(s: seq<Pos>, p: Pos)
    requires p in s
    ensures RemoveFirst(s, p) == s[..FirstIndex(s, p)] + s[FirstIndex(s, p) + 1..]
    decreases |s|
  {
    if s[0] == p {
      assert s[..0] == [];
    } else {
      var t := s[1..];
      RemoveFirstCutsFirst(t, p);
      var k := FirstIndex(t, p);
      assert FirstIndex(s, p) == k + 1;
      assert RemoveFirst(s, p) == [s[0]] + RemoveFirst(t, p);
      CutAfterHead(s, k);
    }
  }

  /** Cutting index `k + 1` out of a non-empty list keeps its head and cuts
      index `k` out of its tail. */
  lemma CutAfterHead(s: seq<Pos>, k: nat)
    requires k + 1 < |s|
    ensures s[..k + 1] + s[k + 2..] == [s[0]] + (s[1..][..k] + s[1..][k + 1..])
  {
    assert s[..k + 1] == [s[0]] + s[1..][..k];
    assert s[k + 2..] == s[1..][k + 1..];
  }

  /** Recording a position and then dropping it restores the record as a
      multiset (the copy dropped may be an earlier one). */
  lemma PlacedRoundTrip(s: seq<Pos>, p: Pos)
    ensures multiset(RemoveFirst(s + [p], p)) == multiset(s)
  {
    assert p in s + [p];
  }

  /** `World.GetBlockAt`: the owning chunk's block, AIR when none is registered. */
  function GetBlockAt(cfg: Config, w: WorldState, p: Pos): (r: Result<BlockType>)
    requires ConfigOk(cfg) && RegistryOk(cfg, w.chunks)
    ensures !Registered(w.chunks, ChunkOf(p, cfg.size)) ==> r == Ok(Air)
    ensures Registered(w.chunks, ChunkOf(p, cfg.size)) ==> (r.Err? <==> !(0 <= p.y < Height(cfg.size)))
    ensures Registered(w.chunks, ChunkOf(p, cfg.size)) ==>
      var i := Find(w.chunks, ChunkOf(p, cfg.size)).value;
      && w.chunks[i].key == ChunkOf(p, cfg.size)
      && r == Chunks.GetBlockAt(w.chunks[i].chunk, p)
  {
    var c := ChunkOf(p, cfg.size);
    FindIsKeyLookup(cfg, w.chunks, c);
    match Find(w.chunks, c)
    case None => Ok(Air)
    case Some(i) =>
      LocalInsideOwner(p, cfg.size);
      Chunks.GetBlockAt(w.chunks[i].chunk, p)
  }

  /** `World.PlaceBlockAt`: with an owning chunk registered, record the
      position, then place in that chunk and in no other; otherwise do
      nothing. A throw in the chunk keeps the record and whatever the chunk
      had done. */
  function PlaceBlockAt(cfg: Config, w: WorldState, p: Pos, t: BlockType): (r: Outcome<WorldState>)
    requires ConfigOk(cfg) && RegistryOk(cfg, w.chunks)
    ensures RegistryOk(cfg, r.state.chunks) && SameKeys(r.state.chunks, w.chunks)
    ensures SameClock(r.state, w) && r.state.queue == w.queue
    ensures !Registered(w.chunks, ChunkOf(p, cfg.size)) ==> r == Completed(w)
    ensures Registered(w.chunks, ChunkOf(p, cfg.size)) ==>
      var i := Find(w.chunks, ChunkOf(p, cfg.size)).value;
      var o := Chunks.PlaceBlockAt(w.chunks[i].chunk, p, t);
      && w.chunks[i].key == ChunkOf(p, cfg.size)
      && r.state.placed == w.placed + [p]
      && r.state.chunks == w.chunks[i := w.chunks[i].(chunk := o.state)]
      && r.Completed? == o.Completed?
  {
    var c := ChunkOf(p, cfg.size);
    FindIsKeyLookup(cfg, w.chunks, c);
    match Find(w.chunks, c)
    case None => Completed(w)
    case Some(i) =>
      var e := w.chunks[i];
      var o := Chunks.PlaceBlockAt(e.chunk, p, t);
      ReplaceChunk(cfg, w.chunks, i, e.(chunk := o.state));
      var chunks := w.chunks[i := e.(chunk := o.state)];
      var w' := w.(chunks := chunks, placed := w.placed + [p]);
      if o.Completed? then Completed(w') else Threw(w', o.fault)
  }

  /** `World.RemoveBlockAt`: as placing, but the record drops the position. */
  function RemoveBlockAt(cfg: Config, w: WorldState, p: Pos): (r: Outcome<WorldState>)
    requires ConfigOk(cfg) && RegistryOk(cfg, w.chunks)
    ensures RegistryOk(cfg, r.state.chunks) && SameKeys(r.state.chunks, w.chunks)
    ensures SameClock(r.state, w) && r.state.queue == w.queue
    ensures !Registered(w.chunks, ChunkOf(p, cfg.size)) ==> r == Completed(w)
    ensures Registered(w.chunks, ChunkOf(p, cfg.size)) ==>
      var i := Find(w.chunks, ChunkOf(p, cfg.size)).value;
      var o := Chunks.RemoveBlockAt(w.chunks[i].chunk, p);
      && w.chunks[i].key == ChunkOf(p, cfg.size)
      && r.state.placed == RemoveFirst(w.placed, p)
      && r.state.chunks == w.chunks[i := w.chunks[i].(chunk := o.state)]
      && r.Completed? == o.Completed?
  {
    var c := ChunkOf(p, cfg.size);
    FindIsKeyLookup(cfg, w.chunks, c);
    match Find(w.chunks, c)
    case None => Completed(w)
    case Some(i) =>
      var e := w.chunks[i];
      var o := Chunks.RemoveBlockAt(e.chunk, p);
      ReplaceChunk(cfg, w.chunks, i, e.(chunk := o.state));
      var chunks := w.chunks[i := e.(chunk := o.state)];
      var w' := w.(chunks := chunks, placed := RemoveFirst(w.placed, p));
      if o.Completed? then Completed(w') else Threw(w', o.fault)
  }

  /** In a loaded chunk at a height inside it, the world then reports the
      placed block, whether or not the rebuild threw; at any other height
      the store throws and no chunk changes. */
  lemma PlaceThenGet(cfg: Config, w: WorldState, p: Pos, t: BlockType)
    requires ConfigOk(cfg) && RegistryOk(cfg, w.chunks) && Registered(w.chunks, ChunkOf(p, cfg.size))
    ensures 0 <= p.y < Height(cfg.size) ==> GetBlockAt(cfg, PlaceBlockAt(cfg, w, p, t).state, p) == Ok(t)
    ensures !(0 <= p.y < Height(cfg.size)) ==>
      PlaceBlockAt(cfg, w, p, t).Threw? && PlaceBlockAt(cfg, w, p, t).state.chunks == w.chunks
  {
    var c := ChunkOf(p, cfg.size);
    FindIsKeyLookup(cfg, w.chunks, c);
    LocalInsideOwner(p, cfg.size);
    var r := PlaceBlockAt(cfg, w, p, t);
    var i := Find(w.chunks, c).value;
    FindAfterUpdate(cfg, r.state.chunks, i, c);
    if !(0 <= p.y < Height(cfg.size)) {
      assert r.state.chunks == w.chunks[i := w.chunks[i]];
    }
  }

  /** In a loaded chunk at a height inside it, the world then reports AIR;
      at any other height the store throws and no chunk changes. */
  lemma RemoveThenGet(cfg: Config, w: WorldState, p: Pos)
    requires ConfigOk(cfg) && RegistryOk(cfg, w.chunks) && Registered(w.chunks, ChunkOf(p, cfg.size))
    ensures 0 <= p.y < Height(cfg.size) ==> GetBlockAt(cfg, RemoveBlockAt(cfg, w, p).state, p) == Ok(Air)
    ensures !(0 <= p.y < Height(cfg.size)) ==>
      RemoveBlockAt(cfg, w, p).Threw? && RemoveBlockAt(cfg, w, p).state.chunks == w.chunks
  {
    var c := ChunkOf(p, cfg.size);
    FindIsKeyLookup(cfg, w.chunks, c);
    LocalInsideOwner(p, cfg.size);
    var r := RemoveBlockAt(cfg, w, p);
    var i := Find(w.chunks, c).value;
    FindAfterUpdate(cfg, r.state.chunks, i, c);
    if !(0 <= p.y < Height(cfg.size)) {
      assert r.state.chunks == w.chunks[i := w.chunks[i]];
    }
  }

  /** The same keys in the same order. */
  ghost predicate SameKeys(a: seq<Entry>, b: seq<Entry>) {
    |a| == |b| && forall i :: 0 <= i < |a| ==> a[i].key == b[i].key
  }

  /** Swapping an entry's chunk for a sound one in the same place keeps the registry sound. */
  lemma ReplaceChunk(cfg: Config, chunks: seq<Entry>, i: nat, e: Entry)
    requires RegistryOk(cfg, chunks) && i < |chunks| && e.key == chunks[i].key && EntryOk(cfg, e)
    ensures RegistryOk(cfg, chunks[i := e]) && SameKeys(chunks[i := e], chunks)
  {
  }

  lemma FindAfterUpdate(cfg: Config, chunks: seq<Entry>, i: nat, c: Coord)
    requires RegistryOk(cfg, chunks) && i < |chunks| && chunks[i].key == c
    ensures Find(chunks, c) == Some(i)
  {
    FindIsKeyLookup(cfg, chunks, c);
  }
}
