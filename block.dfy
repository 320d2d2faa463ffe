/** minecraft_block: one block of a material at a position. */
module BlockResource {
  import opened Wrappers
  import opened Strings
  import opened Framework
  import opened Remote

  datatype BlockModel = BlockModel(id: Attr<string>, material: string, position: Position)

  /** The ID `block-<x>-<y>-<z>`. */
  function BlockId(p: Position): string {
    "block-" + Coordinates(p, '-')
  }

  function Place(d: BlockModel): Cmd {
    CreateBlock(d.material, d.position.x as int, d.position.y as int, d.position.z as int)
  }

  /** Create places the block; the ID, derived from the position alone, is written only when that succeeds. */
  function CreateRun(plan: BlockModel, s: Server, n: nat): (r: Run<BlockModel>)
    ensures r.cmds == [CreateBlock(plan.material, plan.position.x as int, plan.position.y as int, plan.position.z as int)]
    ensures Persisted(Outcome(r)) == if s.fails(n) then None else Some(plan.(id := Known(BlockId(plan.position))))
    ensures s.fails(n) ==> r.diags == [Error("Client Error", "Unable to create block, got error")]
  {
    Single(Place(plan), s, n, "Unable to create block, got error", plan.(id := Known(BlockId(plan.position))))
  }

  /** Update places the block again and writes the plan as it is. */
  function UpdateRun(plan: BlockModel, s: Server, n: nat): (r: Run<BlockModel>)
    ensures r.cmds == [CreateBlock(plan.material, plan.position.x as int, plan.position.y as int, plan.position.z as int)]
    ensures Persisted(Outcome(r)) == if s.fails(n) then None else Some(plan)
    ensures s.fails(n) ==> r.diags == [Error("Client Error", "Unable to update block, got error")]
  {
    Single(Place(plan), s, n, "Unable to update block, got error", plan)
  }

  /** Delete removes the block at the stored position; a failure is an error. */
  function DeleteRun(state: BlockModel, s: Server, n: nat): (r: Removal)
    ensures r.cmds == [DeleteBlock(state.position.x as int, state.position.y as int, state.position.z as int)]
    ensures HasError(r.diags) <==> s.fails(n)
  {
    var p := state.position;
    var r := SingleRemoval(DeleteBlock(p.x as int, p.y as int, p.z as int), s, n,
                           Error("Client Error", "Unable to delete block, got error"));
    assert r.diags != [] ==> r.diags[0].Error?;
    r
  }

  /** Delete removes the block Create placed. */
  lemma DeleteRemovesPlaced(plan: BlockModel, s: Server, n: nat, s': Server, n': nat)
    requires CreateRun(plan, s, n).state.Some?
    ensures var placed := CreateRun(plan, s, n).cmds[0];
      DeleteRun(CreateRun(plan, s, n).state.value, s', n').cmds == [DeleteBlock(placed.x, placed.y, placed.z)]
  {
  }

  /** Different positions get different IDs. */
  lemma BlockIdInjective(p: Position, q: Position)
    requires BlockId(p) == BlockId(q)
    ensures p == q
  {
    assert BlockId(p) == "block-" + Coordinates(p, '-') + [];
    assert BlockId(q) == "block-" + Coordinates(q, '-') + [];
    PrefixedCoordinates("block-", p, q, '-', [], []);
  }

  /** No configured-client check: the client must be present. */
  method Create(client: Transport, plan: BlockModel) returns (state: Option<BlockModel>, diags: seq<Diag>)
    modifies client
    ensures var r := CreateRun(plan, client.server, |old(client.log)|);
      client.log == old(client.log) + r.cmds && state == r.state && diags == r.diags
  {
    var p := plan.position;
    var failed := client.Call(CreateBlock(plan.material, p.x as int, p.y as int, p.z as int));
    if failed {
      return None, [Error("Client Error", "Unable to create block, got error")];
    }
    state, diags := Some(plan.(id := Known(BlockId(p)))), [];
  }

  method Update(client: Transport, plan: BlockModel) returns (state: Option<BlockModel>, diags: seq<Diag>)
    modifies client
    ensures var r := UpdateRun(plan, client.server, |old(client.log)|);
      client.log == old(client.log) + r.cmds && state == r.state && diags == r.diags
  {
    var p := plan.position;
    var failed := client.Call(CreateBlock(plan.material, p.x as int, p.y as int, p.z as int));
    if failed {
      return None, [Error("Client Error", "Unable to update block, got error")];
    }
    state, diags := Some(plan), [];
  }

  method Delete(client: Transport, state: BlockModel) returns (diags: seq<Diag>)
    modifies client
    ensures var r := DeleteRun(state, client.server, |old(client.log)|);
      client.log == old(client.log) + r.cmds && diags == r.diags
  {
    var p := state.position;
    var failed := client.Call(DeleteBlock(p.x as int, p.y as int, p.z as int));
    diags := if failed then [Error("Client Error", "Unable to delete block, got error")] else [];
  }
}
