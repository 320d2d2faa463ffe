/**
 * minecraft_chest: a single chest, or a double chest whose right half sits
 * one block east (x + 1) of its left half.
 */
module ChestResource {
  import opened Wrappers
  import opened Strings
  import opened Framework
  import opened Remote

  datatype ChestModel = ChestModel(id: Attr<string>, size: string, trapped: bool, waterlogged: bool, position: Position)

  function Material(trapped: bool): string {
    if trapped then "minecraft:trapped_chest" else "minecraft:chest"
  }

  /** The block state `<material>[type=<part>,waterlogged=<b>]`. */
  function ChestState(material: string, part: string, waterlogged: bool): string {
    material + "[type=" + part + ",waterlogged=" + BoolToString(waterlogged) + "]"
  }

  predicate ValidSize(size: string) {
    size == "single" || size == "double"
  }

  /** The part name of the i-th placed block. */
  function Part(size: string, i: nat): string {
    if size == "single" then "single" else if i == 0 then "left" else "right"
  }

  /**
   * The blocks a chest occupies, in the order they are placed: one for a
   * single chest; for a double chest the left half at the position and the
   * right half one block east. Every block gets the same material and
   * waterlogged flag.
   */
  function Placements(d: ChestModel): seq<Cmd> {
    var m, x, y, z := Material(d.trapped), d.position.x as int, d.position.y as int, d.position.z as int;
    if d.size == "single" then [CreateBlock(ChestState(m, "single", d.waterlogged), x, y, z)]
    else if d.size == "double" then
      [CreateBlock(ChestState(m, "left", d.waterlogged), x, y, z),
       CreateBlock(ChestState(m, "right", d.waterlogged), x + 1, y, z)]
    else []
  }

  /**
   * One block for a single chest, two for a double, none otherwise; the
   * i-th sits i blocks east of the position and is the i-th part.
   */
  lemma PlacementsShape(d: ChestModel)
    ensures var cmds := Placements(d);
      && |cmds| == (if d.size == "single" then 1 else if d.size == "double" then 2 else 0)
      && forall i :: 0 <= i < |cmds| ==>
           cmds[i] == CreateBlock(ChestState(Material(d.trapped), Part(d.size, i), d.waterlogged),
                                  d.position.x as int + i, d.position.y as int, d.position.z as int)
  {
  }

  /** The ID `chest-<x>-<y>-<z>`. */
  function ChestId(p: Position): string {
    "chest-" + Coordinates(p, '-')
  }

  const SizeError: Diag := Error("Validation Error", "size must be 'single' or 'double'")

  /**
   * Create, from log position n. A size other than single or double sends
   * nothing. Otherwise the blocks are placed in order, stopping at the
   * first failure; when the right half of a double chest fails, the left
   * half is deleted again (whatever that deletion returns) before the
   * error is reported. The ID is written only when every block is placed.
   */
  function CreateRun(plan: ChestModel, s: Server, n: nat): (r: Run<ChestModel>)
    ensures !ValidSize(plan.size) ==> r == Run([], None, [SizeError])
    ensures r.state.Some? <==> ValidSize(plan.size) && AllOk(s, n, |Placements(plan)|)
    ensures r.state.Some? ==>
      && r.cmds == Placements(plan) && r.diags == []
      && r.state.value == plan.(id := Known(ChestId(plan.position)))
    ensures r.state.None? ==> |r.diags| == 1 && r.diags[0].Error?
    ensures ValidSize(plan.size) && s.fails(n) ==> r.cmds == Placements(plan)[..1]
    ensures plan.size == "double" && !s.fails(n) && s.fails(n + 1) ==>
      r.cmds == Placements(plan) + [DeleteBlock(plan.position.x as int, plan.position.y as int, plan.position.z as int)]
    ensures plan.size == "single" && s.fails(n) ==> r.diags == [Error("Client Error", "Unable to place single chest")]
    ensures plan.size == "double" && s.fails(n) ==> r.diags == [Error("Client Error", "Unable to place left half of double chest")]
    ensures plan.size == "double" && !s.fails(n) && s.fails(n + 1) ==> r.diags == [Error("Client Error", "Unable to place right half of double chest")]
  {
    var parts := Placements(plan);
    var x, y, z := plan.position.x as int, plan.position.y as int, plan.position.z as int;
    var created := plan.(id := Known(ChestId(plan.position)));
    if plan.size == "single" then
      if s.fails(n) then Run(parts, None, [Error("Client Error", "Unable to place single chest")])
      else Run(parts, Some(created), [])
    else if plan.size == "double" then
      if s.fails(n) then Run(parts[..1], None, [Error("Client Error", "Unable to place left half of double chest")])
      else if s.fails(n + 1) then
        Run(parts + [DeleteBlock(x, y, z)], None, [Error("Client Error", "Unable to place right half of double chest")])
      else Run(parts, Some(created), [])
    else Run([], None, [SizeError])
  }

  /**
   * Update sends the same placements as Create but undoes nothing: when the
   * right half fails the left half stays. The plan is written as it is.
   */
  function UpdateRun(plan: ChestModel, s: Server, n: nat): (r: Run<ChestModel>)
    ensures !ValidSize(plan.size) ==> r == Run([], None, [SizeError])
    ensures ValidSize(plan.size) ==> r.cmds == if s.fails(n) then Placements(plan)[..1] else Placements(plan)
    ensures r.state.Some? <==> ValidSize(plan.size) && AllOk(s, n, |Placements(plan)|)
    ensures r.state.Some? ==> r.state.value == plan && r.diags == []
    ensures r.state.None? ==> |r.diags| == 1 && r.diags[0].Error?
    ensures plan.size == "single" && s.fails(n) ==> r.diags == [Error("Client Error", "Unable to update single chest")]
    ensures plan.size == "double" && s.fails(n) ==> r.diags == [Error("Client Error", "Unable to update left half of double chest")]
    ensures plan.size == "double" && !s.fails(n) && s.fails(n + 1) ==> r.diags == [Error("Client Error", "Unable to update right half of double chest")]
  {
    var parts := Placements(plan);
    if plan.size == "single" then
      if s.fails(n) then Run(parts, None, [Error("Client Error", "Unable to update single chest")])
      else Run(parts, Some(plan), [])
    else if plan.size == "double" then
      if s.fails(n) then Run(parts[..1], None, [Error("Client Error", "Unable to update left half of double chest")])
      else if s.fails(n + 1) then Run(parts, None, [Error("Client Error", "Unable to update right half of double chest")])
      else Run(parts, Some(plan), [])
    else Run([], None, [SizeError])
  }

  /** Delete removes the block at the position, and the one east of it for a double chest. */
  function Removals(state: ChestModel): (cmds: seq<Cmd>)
    ensures |cmds| == (if state.size == "double" then 2 else 1)
    ensures forall i :: 0 <= i < |cmds| ==>
      cmds[i] == DeleteBlock(state.position.x as int + i, state.position.y as int, state.position.z as int)
  {
    var x, y, z := state.position.x as int, state.position.y as int, state.position.z as int;
    [DeleteBlock(x, y, z)] + (if state.size == "double" then [DeleteBlock(x + 1, y, z)] else [])
  }

  /** Delete clears exactly the blocks Create placed, wherever the chest was. */
  lemma DeleteClearsPlacements(plan: ChestModel, s: Server, n: nat)
    requires CreateRun(plan, s, n).state.Some?
    ensures var st := CreateRun(plan, s, n).state.value;
      var placed := CreateRun(plan, s, n).cmds;
      && |Removals(st)| == |placed|
      && forall i :: 0 <= i < |placed| ==>
           Removals(st)[i] == DeleteBlock(placed[i].x, placed[i].y, placed[i].z)
  {
  }

  /** Different positions get different IDs. */
  lemma ChestIdInjective(p: Position, q: Position)
    requires ChestId(p) == ChestId(q)
    ensures p == q
  {
    assert ChestId(p) == "chest-" + Coordinates(p, '-') + [];
    assert ChestId(q) == "chest-" + Coordinates(q, '-') + [];
    PrefixedCoordinates("chest-", p, q, '-', [], []);
  }

  method Create(client: Transport?, plan: ChestModel) returns (state: Option<ChestModel>, diags: seq<Diag>)
    modifies client
    ensures client == null ==> state == None && diags == [NotConfigured]
    ensures client != null ==>
      var r := CreateRun(plan, client.server, |old(client.log)|);
      client.log == old(client.log) + r.cmds && state == r.state && diags == r.diags
  {
    if client == null {
      return None, [NotConfigured];
    }
    var material := Material(plan.trapped);
    var x, y, z := plan.position.x as int, plan.position.y as int, plan.position.z as int;
    if plan.size == "single" {
      var failed := client.Call(CreateBlock(ChestState(material, "single", plan.waterlogged), x, y, z));
      if failed {
        return None, [Error("Client Error", "Unable to place single chest")];
      }
    } else if plan.size == "double" {
      var failed := client.Call(CreateBlock(ChestState(material, "left", plan.waterlogged), x, y, z));
      if failed {
        return None, [Error("Client Error", "Unable to place left half of double chest")];
      }
      failed := client.Call(CreateBlock(ChestState(material, "right", plan.waterlogged), x + 1, y, z));
      if failed {
        var _ := client.Call(DeleteBlock(x, y, z));
        return None, [Error("Client Error", "Unable to place right half of double chest")];
      }
    } else {
      return None, [SizeError];
    }
    state := Some(plan.(id := Known(ChestId(plan.position))));
    diags := [];
  }

  method Update(client: Transport?, plan: ChestModel) returns (state: Option<ChestModel>, diags: seq<Diag>)
    modifies client
    ensures client == null ==> state == None && diags == [NotConfigured]
    ensures client != null ==>
      var r := UpdateRun(plan, client.server, |old(client.log)|);
      client.log == old(client.log) + r.cmds && state == r.state && diags == r.diags
  {
    if client == null {
      return None, [NotConfigured];
    }
    var material := Material(plan.trapped);
    var x, y, z := plan.position.x as int, plan.position.y as int, plan.position.z as int;
    if plan.size == "single" {
      var failed := client.Call(CreateBlock(ChestState(material, "single", plan.waterlogged), x, y, z));
      if failed {
        return None, [Error("Client Error", "Unable to update single chest")];
      }
    } else if plan.size == "double" {
      var failed := client.Call(CreateBlock(ChestState(material, "left", plan.waterlogged), x, y, z));
      if failed {
        return None, [Error("Client Error", "Unable to update left half of double chest")];
      }
      failed := client.Call(CreateBlock(ChestState(material, "right", plan.waterlogged), x + 1, y, z));
      if failed {
        return None, [Error("Client Error", "Unable to update right half of double chest")];
      }
    } else {
      return None, [SizeError];
    }
    state, diags := Some(plan), [];
  }

  /** Delete ignores what the deletions return and reports nothing. */
  method Delete(client: Transport?, state: ChestModel) returns (diags: seq<Diag>)
    modifies client
    ensures client == null ==> diags == [NotConfigured]
    ensures client != null ==> client.log == old(client.log) + Removals(state) && diags == []
  {
    if client == null {
      return [NotConfigured];
    }
    var x, y, z := state.position.x as int, state.position.y as int, state.position.z as int;
    var _ := client.Call(DeleteBlock(x, y, z));
    if state.size == "double" {
      var _ := client.Call(DeleteBlock(x + 1, y, z));
    }
    diags := [];
  }
}
