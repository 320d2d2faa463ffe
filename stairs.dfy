/** minecraft_stairs: one stairs block with its facing, half, shape and waterlogged flag. */
module StairsResource {
  import opened Wrappers
  import opened Strings
  import opened Framework
  import opened Remote

  datatype StairsModel = StairsModel(
    id: Attr<string>, material: string, position: Position,
    facing: string, half: string, shape: string, waterlogged: bool)

  /** The ID `stairs-<x>-<y>-<z>`. */
  function StairsId(p: Position): string {
    "stairs-" + Coordinates(p, '-')
  }

  /** The stairs are placed with every attribute of the model passed through unchanged. */
  function Place(d: StairsModel): Cmd {
    CreateStairs(d.material, d.position.x as int, d.position.y as int, d.position.z as int,
                 d.facing, d.half, d.shape, d.waterlogged)
  }

  /** Create places the stairs; the ID, derived from the position alone, is written only when that succeeds. */
  function CreateRun(plan: StairsModel, s: Server, n: nat): (r: Run<StairsModel>)
    ensures r.cmds == [CreateStairs(plan.material, plan.position.x as int, plan.position.y as int, plan.position.z as int,
                           plan.facing, plan.half, plan.shape, plan.waterlogged)]
    ensures Persisted(Outcome(r)) == if s.fails(n) then None else Some(plan.(id := Known(StairsId(plan.position))))
    ensures s.fails(n) ==> r.diags == [Error("Client Error", "Unable to create stairs, got error")]
  {
    Single(Place(plan), s, n, "Unable to create stairs, got error", plan.(id := Known(StairsId(plan.position))))
  }

  /** Update places the stairs again and writes the plan as it is. */
  function UpdateRun(plan: StairsModel, s: Server, n: nat): (r: Run<StairsModel>)
    ensures r.cmds == [CreateStairs(plan.material, plan.position.x as int, plan.position.y as int, plan.position.z as int,
                           plan.facing, plan.half, plan.shape, plan.waterlogged)]
    ensures Persisted(Outcome(r)) == if s.fails(n) then None else Some(plan)
    ensures s.fails(n) ==> r.diags == [Error("Client Error", "Unable to update stairs, got error")]
  {
    Single(Place(plan), s, n, "Unable to update stairs, got error", plan)
  }

  /** Delete removes the block at the stored position; a failure is an error. */
  function DeleteRun(state: StairsModel, s: Server, n: nat): (r: Removal)
    ensures r.cmds == [DeleteBlock(state.position.x as int, state.position.y as int, state.position.z as int)]
    ensures HasError(r.diags) <==> s.fails(n)
  {
    var p := state.position;
    var r := SingleRemoval(DeleteBlock(p.x as int, p.y as int, p.z as int), s, n,
                           Error("Client Error", "Unable to delete stairs, got error"));
    assert r.diags != [] ==> r.diags[0].Error?;
    r
  }

  /** Delete removes the block Create placed. */
  lemma DeleteRemovesPlaced(plan: StairsModel, s: Server, n: nat, s': Server, n': nat)
    requires CreateRun(plan, s, n).state.Some?
    ensures var placed := CreateRun(plan, s, n).cmds[0];
      DeleteRun(CreateRun(plan, s, n).state.value, s', n').cmds == [DeleteBlock(placed.x, placed.y, placed.z)]
  {
  }

  /** Different positions get different IDs. */
  lemma StairsIdInjective(p: Position, q: Position)
    requires StairsId(p) == StairsId(q)
    ensures p == q
  {
    assert StairsId(p) == "stairs-" + Coordinates(p, '-') + [];
    assert StairsId(q) == "stairs-" + Coordinates(q, '-') + [];
    PrefixedCoordinates("stairs-", p, q, '-', [], []);
  }

  method Create(client: Transport?, plan: StairsModel) returns (state: Option<StairsModel>, diags: seq<Diag>)
    modifies client
    ensures client == null ==> state == None && diags == [NotConfigured]
    ensures client != null ==>
      var r := CreateRun(plan, client.server, |old(client.log)|);
      client.log == old(client.log) + r.cmds && state == r.state && diags == r.diags
  {
    if client == null {
      return None, [NotConfigured];
    }
    var p := plan.position;
    var failed := client.Call(CreateStairs(plan.material, p.x as int, p.y as int, p.z as int,
                                           plan.facing, plan.half, plan.shape, plan.waterlogged));
    if failed {
      return None, [Error("Client Error", "Unable to create stairs, got error")];
    }
    state, diags := Some(plan.(id := Known(StairsId(p)))), [];
  }

  method Update(client: Transport?, plan: StairsModel) returns (state: Option<StairsModel>, diags: seq<Diag>)
    modifies client
    ensures client == null ==> state == None && diags == [NotConfigured]
    ensures client != null ==>
      var r := UpdateRun(plan, client.server, |old(client.log)|);
      client.log == old(client.log) + r.cmds && state == r.state && diags == r.diags
  {
    if client == null {
      return None, [NotConfigured];
    }
    var p := plan.position;
    var failed := client.Call(CreateStairs(plan.material, p.x as int, p.y as int, p.z as int,
                                           plan.facing, plan.half, plan.shape, plan.waterlogged));
    if failed {
      return None, [Error("Client Error", "Unable to update stairs, got error")];
    }
    state, diags := Some(plan), [];
  }

  method Delete(client: Transport?, state: StairsModel) returns (diags: seq<Diag>)
    modifies client
    ensures client == null ==> diags == [NotConfigured]
    ensures client != null ==>
      var r := DeleteRun(state, client.server, |old(client.log)|);
      client.log == old(client.log) + r.cmds && diags == r.diags
  {
    if client == null {
      return [NotConfigured];
    }
    var p := state.position;
    var failed := client.Call(DeleteBlock(p.x as int, p.y as int, p.z as int));
    diags := if failed then [Error("Client Error", "Unable to delete stairs, got error")] else [];
  }
}
