/** The block inventory of Player.cs: three slot counters, slot selection,
    placing from the selected slot, breaking into the looked-at type's
    slot, the mining timer and the looked-at block. The raycast is an
    input; the player's body position is an input to the overlap test. */
module Hotbar {
  import opened Wrappers
  import opened Blocks
  import opened Coords
  import opened Voxels
  import opened World

  /** What the player's raycast reports: nothing, or the floored cell behind
      the hit face (`target`) and the floored cell in front of it (`adjacent`). */
  datatype Ray = Miss | Hit(target: Pos, adjacent: Pos)

  /** The centre of the player's collision box. */
  datatype Body = Body(x: real, y: real, z: real)

  /** The inventory state of a player. */
  datatype Player = Player(
    selected: int,
    amounts: seq<int>,
    timeMining: real,
    lookingAt: BlockType,
    lookingAtPos: Pos)

  /** Player and world together: the hotbar acts on both. */
  datatype Game = Game(player: Player, world: WorldState)

  /** The fields' initial values: slot 1 selected, all counts 0, looking at
      grass at the origin. */
  const Initial: Player := Player(1, [0, 0, 0], 0.0, Grass, Pos(0, 0, 0))

  /** The selected slot is 1, 2 or 3, there are three counters, and none is negative. */
  ghost predicate PlayerOk(p: Player) {
    1 <= p.selected <= 3 && |p.amounts| == 3 && forall i :: 0 <= i < 3 ==> p.amounts[i] >= 0
  }

  lemma InitialOk()
    ensures PlayerOk(Initial)
  {
  }

  /** The count of the selected slot. */
  function SelectedCount(p: Player): int
    requires PlayerOk(p)
  {
    p.amounts[p.selected - 1]
  }

  /** The block slot `i` places: enum arithmetic `AIR + i`. */
  function SlotBlock(slot: int): (b: BlockType)
    requires 1 <= slot <= 3
    ensures Ordinal(b) == slot && b != Air
  {
    FromOrdinal(slot)
  }

  /** Slot 1 holds grass, slot 2 stone, slot 3 snow, and breaking a block
      credits the slot that places it again. */
  lemma SlotsMatchBlocks()
    ensures SlotBlock(1) == Grass && SlotBlock(2) == Stone && SlotBlock(3) == Snow
    ensures forall b :: b != Air ==> SlotBlock(Ordinal(b)) == b
  {
    forall b | b != Air ensures SlotBlock(Ordinal(b)) == b {
      OrdinalRoundTrip(b);
    }
  }

  /** `HotbarManager`'s key handling: keys 1, 2 and 3 are tested in that
      order, so the highest key pressed in a frame wins. */
  function SelectSlot(p: Player, key1: bool, key2: bool, key3: bool): (r: Player)
    ensures PlayerOk(p) ==> PlayerOk(r)
    ensures r.amounts == p.amounts && r.timeMining == p.timeMining
    ensures r.lookingAt == p.lookingAt && r.lookingAtPos == p.lookingAtPos
    ensures key3 ==> r.selected == 3
    ensures key2 && !key3 ==> r.selected == 2
    ensures key1 && !key2 && !key3 ==> r.selected == 1
    ensures !key1 && !key2 && !key3 ==> r == p
  {
    var s1 := if key1 then 1 else p.selected;
    var s2 := if key2 then 2 else s1;
    var s3 := if key3 then 3 else s2;
    p.(selected := s3)
  }

  /** The strict box-overlap test of `IsPlayerInBlock` between the player's
      box (half extents 0.3, 0.9, 0.3) and the unit cell at `b`. */
  predicate Overlaps(body: Body, b: Pos) {
    && Abs(body.x - (b.x as real + 0.5)) < 0.3 + 0.5
    && Abs(body.y - (b.y as real + 0.5)) < 0.9 + 0.5
    && Abs(body.z - (b.z as real + 0.5)) < 0.3 + 0.5
  }

  function Abs(r: real): real {
    if r < 0.0 then -r else r
  }

  /** The boxes overlap exactly when the player's centre lies strictly
      inside the cell widened by the player's half extents. */
  lemma OverlapsIsBoxIntersection(body: Body, b: Pos)
    ensures Overlaps(body, b) <==>
      && b.x as real - 0.3 < body.x < b.x as real + 1.3
      && b.y as real - 0.9 < body.y < b.y as real + 1.9
      && b.z as real - 0.3 < body.z < b.z as real + 1.3
  {
  }

  /** `IsPlayerInBlock` as written: true when the boxes do NOT overlap. */
  function IsPlayerInBlock(body: Body, b: Pos): (r: bool)
    ensures r <==> !Overlaps(body, b)
  {
    !Overlaps(body, b)
  }

  /** `PlaceBlock`: with a hit and a positive count in the selected slot,
      and the target cell clear of the player's box, place the slot's block
      in the world and spend one. A throw inside the world keeps the count. */
  function PlaceBlock(cfg: Config, g: Game, ray: Ray, body: Body): (r: Outcome<Game>)
    requires ConfigOk(cfg) && RegistryOk(cfg, g.world.chunks) && PlayerOk(g.player)
    ensures PlayerOk(r.state.player) && RegistryOk(cfg, r.state.world.chunks)
    ensures r.state.player.selected == g.player.selected && r.state.player.timeMining == g.player.timeMining
    ensures r.state.player.lookingAt == g.player.lookingAt && r.state.player.lookingAtPos == g.player.lookingAtPos
  {
    var p := g.player;
    if ray.Hit? && p.amounts[p.selected - 1] > 0 then
      if !IsPlayerInBlock(body, ray.adjacent) then Completed(g)
      else
        var o := World.PlaceBlockAt(cfg, g.world, ray.adjacent, SlotBlock(p.selected));
        var spent := p.(amounts := p.amounts[p.selected - 1 := p.amounts[p.selected - 1] - 1]);
        assert PlayerOk(spent);
        if o.Completed? then Completed(Game(spent, o.state)) else Threw(g.(world := o.state), o.fault)
    else Completed(g)
  }

  /** Without a hit, without blocks in the selected slot, or with the
      player's box in the target cell, placing leaves player and world as
      they were. */
  lemma PlaceBlockBlockedKeepsGame(cfg: Config, g: Game, ray: Ray, body: Body)
    requires ConfigOk(cfg) && RegistryOk(cfg, g.world.chunks) && PlayerOk(g.player)
    requires ray.Miss? || SelectedCount(g.player) <= 0 || Overlaps(body, ray.adjacent)
    ensures PlaceBlock(cfg, g, ray, body) == Completed(g)
  {
  }

  /** A placement that goes ahead hands the slot's block to the world and
      spends exactly one from the slot, unless the world throws. */
  lemma PlaceBlockSpendsOne(cfg: Config, g: Game, ray: Ray, body: Body)
    requires ConfigOk(cfg) && RegistryOk(cfg, g.world.chunks) && PlayerOk(g.player)
    requires ray.Hit? && SelectedCount(g.player) > 0 && !Overlaps(body, ray.adjacent)
    ensures var r := PlaceBlock(cfg, g, ray, body);
      var placed := World.PlaceBlockAt(cfg, g.world, ray.adjacent, SlotBlock(g.player.selected));
      && r.state.world == placed.state
      && r.Completed? == placed.Completed?
      && r.state.player.amounts ==
           if r.Completed? then g.player.amounts[g.player.selected - 1 := SelectedCount(g.player) - 1]
           else g.player.amounts
  {
    var p := g.player;
    assert IsPlayerInBlock(body, ray.adjacent);
    var placed := World.PlaceBlockAt(cfg, g.world, ray.adjacent, SlotBlock(p.selected));
    if placed.Completed? {
      assert PlaceBlock(cfg, g, ray, body) ==
        Completed(Game(p.(amounts := p.amounts[p.selected - 1 := p.amounts[p.selected - 1] - 1]), placed.state));
    } else {
      assert PlaceBlock(cfg, g, ray, body) == Threw(g.(world := placed.state), placed.fault);
    }
  }

  /** Placing toward a chunk that is not registered changes no chunk but
      still spends the block. */
  lemma PlaceIntoUnloadedChunkSpendsBlock(cfg: Config, g: Game, ray: Ray, body: Body)
    requires ConfigOk(cfg) && RegistryOk(cfg, g.world.chunks) && PlayerOk(g.player)
    requires ray.Hit? && SelectedCount(g.player) > 0 && !Overlaps(body, ray.adjacent)
    requires !Registered(g.world.chunks, ChunkOf(ray.adjacent, cfg.size))
    ensures PlaceBlock(cfg, g, ray, body) ==
      Completed(g.(player := g.player.(amounts := g.player.amounts[g.player.selected - 1 := SelectedCount(g.player) - 1])))
  {
  }

  /** Placing into a loaded chunk at a height inside it makes the world
      report the slot's block there, whether or not the rebuild throws. */
  lemma PlaceThenLook(cfg: Config, g: Game, ray: Ray, body: Body)
    requires ConfigOk(cfg) && RegistryOk(cfg, g.world.chunks) && PlayerOk(g.player)
    requires ray.Hit? && SelectedCount(g.player) > 0 && !Overlaps(body, ray.adjacent)
    requires Registered(g.world.chunks, ChunkOf(ray.adjacent, cfg.size)) && 0 <= ray.adjacent.y < Height(cfg.size)
    ensures World.GetBlockAt(cfg, PlaceBlock(cfg, g, ray, body).state.world, ray.adjacent) == Ok(SlotBlock(g.player.selected))
  {
    World.PlaceThenGet(cfg, g.world, ray.adjacent, SlotBlock(g.player.selected));
    PlaceBlockSpendsOne(cfg, g, ray, body);
  }

  /** `BreakBlock`: with a hit, reset the timer, credit the looked-at type's
      slot, then remove the target block from the world. The credit comes
      first, so it stays even when the world throws; a looked-at AIR would
      index slot -1 and throw before any credit. */
  function BreakBlock(cfg: Config, g: Game, ray: Ray): (r: Outcome<Game>)
    requires ConfigOk(cfg) && RegistryOk(cfg, g.world.chunks) && PlayerOk(g.player)
    ensures PlayerOk(r.state.player) && RegistryOk(cfg, r.state.world.chunks)
    ensures ray.Miss? ==> r == Completed(g)
    ensures ray.Hit? ==> r.state.player.timeMining == 0.0
    ensures r.state.player.selected == g.player.selected && r.state.player.lookingAt == g.player.lookingAt
    ensures r.state.player.lookingAtPos == g.player.lookingAtPos
    ensures ray.Hit? && g.player.lookingAt == Air ==>
      r == Threw(g.(player := g.player.(timeMining := 0.0)), IndexOutOfRange)
    ensures ray.Hit? && g.player.lookingAt != Air ==>
      var k := Ordinal(g.player.lookingAt) - 1;
      var removed := World.RemoveBlockAt(cfg, g.world, ray.target);
      && r.state.player.amounts == g.player.amounts[k := g.player.amounts[k] + 1]
      && r.state.world == removed.state && r.Completed? == removed.Completed?
  {
    var p := g.player;
    if ray.Hit? then
      var p1 := p.(timeMining := 0.0);
      if p.lookingAt == Air then Threw(g.(player := p1), IndexOutOfRange)
      else
        var k := Ordinal(p.lookingAt) - 1;
        var p2 := p1.(amounts := p.amounts[k := p.amounts[k] + 1]);
        assert PlayerOk(p2);
        var removed := World.RemoveBlockAt(cfg, g.world, ray.target);
        if removed.Completed? then Completed(Game(p2, removed.state)) else Threw(Game(p2, removed.state), removed.fault)
    else Completed(g)
  }

  /** The indicator's own break-time table in `BlockBreakManager`; a type it
      does not list keeps the initial 0. */
  function IndicatorBreakTime(b: BlockType): (t: real)
    ensures t == TimeToBreak(b)
  {
    if b == Grass then 1.0
    else if b == Stone then 2.0
    else if b == Snow then 0.5
    else 0.0
  }

  /** `BlockBreakManager`: looking at air resets the timer and stops; else
      the block breaks once the timer reaches its break time. */
  function BlockBreakManager(cfg: Config, g: Game, ray: Ray): (r: Outcome<Game>)
    requires ConfigOk(cfg) && RegistryOk(cfg, g.world.chunks) && PlayerOk(g.player)
    ensures PlayerOk(r.state.player) && RegistryOk(cfg, r.state.world.chunks)
    ensures g.player.lookingAt == Air ==> r == Completed(g.(player := g.player.(timeMining := 0.0)))
    ensures g.player.lookingAt != Air && g.player.timeMining < TimeToBreak(g.player.lookingAt) ==> r == Completed(g)
    ensures g.player.lookingAt != Air && g.player.timeMining >= TimeToBreak(g.player.lookingAt) ==>
      r == BreakBlock(cfg, g, ray)
    ensures r.Threw? ==> r.state.player.amounts != g.player.amounts  // only the world throws here, after the credit
  {
    if g.player.lookingAt == Air then Completed(g.(player := g.player.(timeMining := 0.0)))
    else if g.player.timeMining >= TimeToBreak(g.player.lookingAt) then BreakBlock(cfg, g, ray)
    else Completed(g)
  }

  /** `HWYLA`: with a hit, ask the world for the target block; a new target
      position resets the timer. A throwing lookup changes nothing. */
  function Hwyla(cfg: Config, g: Game, ray: Ray): (r: Outcome<Game>)
    requires ConfigOk(cfg) && RegistryOk(cfg, g.world.chunks)
    ensures r.state.world == g.world
    ensures r.state.player.selected == g.player.selected && r.state.player.amounts == g.player.amounts
    ensures ray.Miss? || r.Threw? ==> r.state == g
    ensures ray.Hit? && r.Completed? ==>
      && Ok(r.state.player.lookingAt) == World.GetBlockAt(cfg, g.world, ray.target)
      && r.state.player.lookingAtPos == ray.target
      && r.state.player.timeMining == if ray.target != g.player.lookingAtPos then 0.0 else g.player.timeMining
  {
    if ray.Hit? then
      match World.GetBlockAt(cfg, g.world, ray.target)
      case Err(e) => Threw(g, e)
      case Ok(b) =>
        var p := g.player;
        var t := if p.lookingAtPos != ray.target then 0.0 else p.timeMining;
        Completed(g.(player := p.(lookingAt := b, timeMining := t, lookingAtPos := ray.target)))
    else Completed(g)
  }

  /** One frame's input: the raycast, the body position, the mouse buttons,
      the frame time and the three number keys. */
  datatype Input = Input(ray: Ray, body: Body, placePressed: bool, mineHeld: bool, deltaTime: real,
                         key1: bool, key2: bool, key3: bool)

  /** The mining step of `Player.Update`: holding the button accumulates the
      frame time and runs `BlockBreakManager`; releasing it resets the timer. */
  function Mine(cfg: Config, g: Game, input: Input): (r: Outcome<Game>)
    requires ConfigOk(cfg) && RegistryOk(cfg, g.world.chunks) && PlayerOk(g.player)
    ensures PlayerOk(r.state.player) && RegistryOk(cfg, r.state.world.chunks)
    ensures !input.mineHeld ==> r == Completed(g.(player := g.player.(timeMining := 0.0)))
  {
    if input.mineHeld then
      BlockBreakManager(cfg, g.(player := g.player.(timeMining := g.player.timeMining + input.deltaTime)), input.ray)
    else Completed(g.(player := g.player.(timeMining := 0.0)))
  }

  /** The block-interaction part of `Player.Update`, in its order: look,
      place on a right click, mine, select a slot. A throw ends the frame. */
  function Frame(cfg: Config, g: Game, input: Input): (r: Outcome<Game>)
    requires ConfigOk(cfg) && RegistryOk(cfg, g.world.chunks) && PlayerOk(g.player)
    ensures PlayerOk(r.state.player) && RegistryOk(cfg, r.state.world.chunks)
  {
    match Hwyla(cfg, g, input.ray)
    case Threw(s, e) => Threw(s, e)
    case Completed(g1) =>
      var o2 := if input.placePressed then PlaceBlock(cfg, g1, input.ray, input.body) else Completed(g1);
      match o2
      case Threw(s, e) => Threw(s, e)
      case Completed(g2) =>
        match Mine(cfg, g2, input)
        case Threw(s, e) => Threw(s, e)
        case Completed(g3) =>
          Completed(g3.(player := SelectSlot(g3.player, input.key1, input.key2, input.key3)))
  }
}
