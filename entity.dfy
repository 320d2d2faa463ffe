/**
 * minecraft_entity: an entity of a given type summoned at a position and
 * tagged with a fresh random token, which becomes its ID.
 */
module EntityResource {
  import opened Wrappers
  import opened Strings
  import opened Framework
  import opened Remote

  datatype EntityModel = EntityModel(id: Attr<string>, entityType: string, position: Position)

  /** The position as the client takes it, `<x> <y> <z>`. */
  function PositionText(p: Position): string {
    Coordinates(p, ' ')
  }

  /**
   * Create summons the entity tagged with `token` (the random UUID the
   * resource draws) and writes the token as the ID only when that succeeds.
   */
  function CreateRun(plan: EntityModel, token: string, s: Server, n: nat): (r: Run<EntityModel>)
    ensures r.cmds == [CreateEntity(plan.entityType, PositionText(plan.position), token)]
    ensures Persisted(Outcome(r)) == if s.fails(n) then None else Some(plan.(id := Known(token)))
    ensures s.fails(n) ==> r.diags == [Error("Client Error", "Unable to summon entity")]
  {
    Single(CreateEntity(plan.entityType, PositionText(plan.position), token), s, n,
           "Unable to summon entity", plan.(id := Known(token)))
  }

  /** Delete removes the entity of the stored type at the stored position carrying the stored ID as its tag. */
  function DeleteRun(state: EntityModel, s: Server, n: nat): (r: Removal)
    ensures r.cmds == [DeleteEntity(state.entityType, PositionText(state.position), ValueString(state.id))]
    ensures HasError(r.diags) <==> s.fails(n)
  {
    var r := SingleRemoval(DeleteEntity(state.entityType, PositionText(state.position), ValueString(state.id)), s, n,
                           Error("Client Error", "Unable to delete entity"));
    assert r.diags != [] ==> r.diags[0].Error?;
    r
  }

  /** Delete targets exactly the entity Create summoned: same type, position text and tag. */
  lemma DeleteTargetsSummoned(plan: EntityModel, token: string, s: Server, n: nat, s': Server, n': nat)
    requires CreateRun(plan, token, s, n).state.Some?
    ensures var c := CreateRun(plan, token, s, n).cmds[0];
      DeleteRun(CreateRun(plan, token, s, n).state.value, s', n').cmds == [DeleteEntity(c.entityType, c.pos, c.tag)]
  {
  }

  /** The position text determines the position. */
  lemma PositionTextInjective(p: Position, q: Position)
    requires PositionText(p) == PositionText(q)
    ensures p == q
  {
    assert PositionText(p) + [] == PositionText(q) + [];
    CoordinatesThenRest(p, q, ' ', [], []);
  }

  method Create(client: Transport?, plan: EntityModel, token: string) returns (state: Option<EntityModel>, diags: seq<Diag>)
    modifies client
    ensures client == null ==> state == None && diags == [NotConfigured]
    ensures client != null ==>
      var r := CreateRun(plan, token, client.server, |old(client.log)|);
      client.log == old(client.log) + r.cmds && state == r.state && diags == r.diags
  {
    if client == null {
      return None, [NotConfigured];
    }
    var pos := Coordinates(plan.position, ' ');
    var failed := client.Call(CreateEntity(plan.entityType, pos, token));
    if failed {
      return None, [Error("Client Error", "Unable to summon entity")];
    }
    state, diags := Some(plan.(id := Known(token))), [];
  }

  method Delete(client: Transport?, state: EntityModel) returns (diags: seq<Diag>)
    modifies client
    ensures client == null ==> diags == [NotConfigured]
    ensures client != null ==>
      var r := DeleteRun(state, client.server, |old(client.log)|);
      client.log == old(client.log) + r.cmds && diags == r.diags
  {
    if client == null {
      return [NotConfigured];
    }
    var pos := Coordinates(state.position, ' ');
    var failed := client.Call(DeleteEntity(state.entityType, pos, ValueString(state.id)));
    diags := if failed then [Error("Client Error", "Unable to delete entity")] else [];
  }
}
