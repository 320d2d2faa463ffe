/** minecraft_sheep: a sheep of a colour, possibly sheared, summoned at a position and tagged with a fresh token. */
module SheepResource {
  import opened Wrappers
  import opened Strings
  import opened Framework
  import opened Remote

  datatype SheepModel = SheepModel(id: Attr<string>, color: string, sheared: bool, position: Position)

  function PositionText(p: Position): string {
    Coordinates(p, ' ')
  }

  /**
   * Create summons the sheep with its colour lower-cased (the state keeps
   * the colour as planned) and writes the token as the ID only when that
   * succeeds.
   */
  function CreateRun(plan: SheepModel, token: string, s: Server, n: nat): (r: Run<SheepModel>)
    ensures |r.cmds| == 1 && r.cmds[0].CreateSheep?
    ensures r.cmds[0].pos == PositionText(plan.position) && r.cmds[0].tag == token && r.cmds[0].sheared == plan.sheared
    ensures r.cmds[0].color == ToLower(plan.color)
    ensures Persisted(Outcome(r)) == if s.fails(n) then None else Some(plan.(id := Known(token)))
    ensures s.fails(n) ==> r.diags == [Error("Client Error", "Unable to summon sheep")]
  {
    Single(CreateSheep(PositionText(plan.position), token, ToLower(plan.color), plan.sheared), s, n,
           "Unable to summon sheep", plan.(id := Known(token)))
  }

  /** Delete removes the `minecraft:sheep` at the stored position carrying the stored ID as its tag. */
  function DeleteRun(state: SheepModel, s: Server, n: nat): (r: Removal)
    ensures r.cmds == [DeleteEntity("minecraft:sheep", PositionText(state.position), ValueString(state.id))]
    ensures HasError(r.diags) <==> s.fails(n)
  {
    var r := SingleRemoval(DeleteEntity("minecraft:sheep", PositionText(state.position), ValueString(state.id)), s, n,
                           Error("Client Error", "Unable to delete sheep"));
    assert r.diags != [] ==> r.diags[0].Error?;
    r
  }

  /** Delete targets the sheep Create summoned: same position text and tag. */
  lemma DeleteTargetsSummoned(plan: SheepModel, token: string, s: Server, n: nat, s': Server, n': nat)
    requires CreateRun(plan, token, s, n).state.Some?
    ensures var c := CreateRun(plan, token, s, n).cmds[0];
      DeleteRun(CreateRun(plan, token, s, n).state.value, s', n').cmds == [DeleteEntity("minecraft:sheep", c.pos, c.tag)]
  {
  }

  method Create(client: Transport?, plan: SheepModel, token: string) returns (state: Option<SheepModel>, diags: seq<Diag>)
    modifies client
    ensures client == null ==> state == None && diags == [NotConfigured]
    ensures client != null ==>
      var r := CreateRun(plan, token, client.server, |old(client.log)|);
      client.log == old(client.log) + r.cmds && state == r.state && diags == r.diags
  {
    if client == null {
      return None, [NotConfigured];
    }
    var pos := Coordinates(plan.position, ' ');
    var failed := client.Call(CreateSheep(pos, token, ToLower(plan.color), plan.sheared));
    if failed {
      return None, [Error("Client Error", "Unable to summon sheep")];
    }
    state, diags := Some(plan.(id := Known(token))), [];
  }

  method Delete(client: Transport?, state: SheepModel) returns (diags: seq<Diag>)
    modifies client
    ensures client == null ==> diags == [NotConfigured]
    ensures client != null ==>
      var r := DeleteRun(state, client.server, |old(client.log)|);
      client.log == old(client.log) + r.cmds && diags == r.diags
  {
    if client == null {
      return [NotConfigured];
    }
    var pos := Coordinates(state.position, ' ');
    var failed := client.Call(DeleteEntity("minecraft:sheep", pos, ValueString(state.id)));
    diags := if failed then [Error("Client Error", "Unable to delete sheep")] else [];
  }
}
