/**
 * minecraft_zombie: a zombie with its behaviour flags, summoned at a
 * position of 64-bit coordinates and tagged with a fresh token.
 */
module ZombieResource {
  import opened Wrappers
  import opened Strings
  import opened Framework
  import opened Remote

  datatype ZombiePosition = ZombiePosition(x: Int64, y: Int64, z: Int64)

  datatype ZombieModel = ZombieModel(
    id: Attr<string>, position: ZombiePosition,
    isBaby: bool, canBreakDoors: bool, canPickUpLoot: bool, persistenceRequired: bool, health: real)

  function PositionText(p: ZombiePosition): string {
    Triple(p.x as int, p.y as int, p.z as int, ' ')
  }

  function Summon(d: ZombieModel, token: string): Cmd {
    CreateZombie(PositionText(d.position), token, d.isBaby, d.canBreakDoors, d.canPickUpLoot, d.persistenceRequired)
  }

  /** Create summons the zombie with every flag as planned and writes the token as the ID only when that succeeds. */
  function CreateRun(plan: ZombieModel, token: string, s: Server, n: nat): (r: Run<ZombieModel>)
    ensures |r.cmds| == 1 && r.cmds[0].CreateZombie?
    ensures r.cmds[0].pos == PositionText(plan.position) && r.cmds[0].tag == token
    ensures r.cmds[0].isBaby == plan.isBaby && r.cmds[0].canBreakDoors == plan.canBreakDoors
    ensures r.cmds[0].canPickUpLoot == plan.canPickUpLoot && r.cmds[0].persistenceRequired == plan.persistenceRequired
    ensures Persisted(Outcome(r)) == if s.fails(n) then None else Some(plan.(id := Known(token)))
    ensures s.fails(n) ==> r.diags == [Error("Client Error", "Unable to summon zombie")]
  {
    Single(Summon(plan, token), s, n, "Unable to summon zombie", plan.(id := Known(token)))
  }

  /** Delete removes the `minecraft:zombie` at the stored position carrying the stored ID as its tag. */
  function DeleteRun(state: ZombieModel, s: Server, n: nat): (r: Removal)
    ensures r.cmds == [DeleteEntity("minecraft:zombie", PositionText(state.position), ValueString(state.id))]
    ensures HasError(r.diags) <==> s.fails(n)
  {
    var r := SingleRemoval(DeleteEntity("minecraft:zombie", PositionText(state.position), ValueString(state.id)), s, n,
                           Error("Client Error", "Unable to delete zombie"));
    assert r.diags != [] ==> r.diags[0].Error?;
    r
  }

  /** Delete targets the zombie Create summoned: same position text and tag. */
  lemma DeleteTargetsSummoned(plan: ZombieModel, token: string, s: Server, n: nat, s': Server, n': nat)
    requires CreateRun(plan, token, s, n).state.Some?
    ensures var c := CreateRun(plan, token, s, n).cmds[0];
      DeleteRun(CreateRun(plan, token, s, n).state.value, s', n').cmds == [DeleteEntity("minecraft:zombie", c.pos, c.tag)]
  {
  }

  method Create(client: Transport?, plan: ZombieModel, token: string) returns (state: Option<ZombieModel>, diags: seq<Diag>)
    modifies client
    ensures client == null ==> state == None && diags == [NotConfigured]
    ensures client != null ==>
      var r := CreateRun(plan, token, client.server, |old(client.log)|);
      client.log == old(client.log) + r.cmds && state == r.state && diags == r.diags
  {
    if client == null {
      return None, [NotConfigured];
    }
    var p := plan.position;
    var pos := Triple(p.x as int, p.y as int, p.z as int, ' ');
    var failed := client.Call(CreateZombie(pos, token, plan.isBaby, plan.canBreakDoors, plan.canPickUpLoot, plan.persistenceRequired));
    if failed {
      return None, [Error("Client Error", "Unable to summon zombie")];
    }
    state, diags := Some(plan.(id := Known(token))), [];
  }

  method Delete(client: Transport?, state: ZombieModel) returns (diags: seq<Diag>)
    modifies client
    ensures client == null ==> diags == [NotConfigured]
    ensures client != null ==>
      var r := DeleteRun(state, client.server, |old(client.log)|);
      client.log == old(client.log) + r.cmds && diags == r.diags
  {
    if client == null {
      return [NotConfigured];
    }
    var p := state.position;
    var pos := Triple(p.x as int, p.y as int, p.z as int, ' ');
    var failed := client.Call(DeleteEntity("minecraft:zombie", pos, ValueString(state.id)));
    diags := if failed then [Error("Client Error", "Unable to delete zombie")] else [];
  }
}
