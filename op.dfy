/** minecraft_op: operator status granted to one player. */
module OpResource {
  import opened Wrappers
  import opened Strings
  import opened Framework
  import opened Remote

  datatype OpModel = OpModel(id: Attr<string>, player: string)

  const PlayerError: Diag := Error("Validation Error", "Attribute `player` cannot be empty or whitespace.")

  /**
   * Create grants operator to the trimmed player name; a blank name sends
   * nothing. The trimmed name becomes the ID; `player` keeps the planned text.
   */
  function CreateRun(plan: OpModel, s: Server, n: nat): (r: Run<OpModel>)
    ensures TrimSpace(plan.player) == "" <==> r == Run([], None, [PlayerError])
    ensures TrimSpace(plan.player) != "" ==> r.cmds == [CreateOp(TrimSpace(plan.player))]
    ensures Persisted(Outcome(r)).Some? <==> TrimSpace(plan.player) != "" && !s.fails(n)
    ensures Persisted(Outcome(r)).Some? ==> r.state.value == plan.(id := Known(TrimSpace(plan.player)))
    ensures TrimSpace(plan.player) != "" && s.fails(n) ==> r.diags == [Error("Client Error", "Unable to grant operator")]
    ensures TrimSpace(plan.player) != "" && !s.fails(n) ==> r.diags == []
  {
    var player := TrimSpace(plan.player);
    if player == "" then Run([], None, [PlayerError])
    else Single(CreateOp(player), s, n, "Unable to grant operator", plan.(id := Known(player)))
  }

  /** Delete revokes operator from the trimmed stored name; a blank name is silently skipped. */
  function DeleteRun(state: OpModel, s: Server, n: nat): (r: Removal)
    ensures TrimSpace(state.player) == "" <==> r == Removal([], [])
    ensures TrimSpace(state.player) != "" ==> r.cmds == [RemoveOp(TrimSpace(state.player))]
    ensures HasError(r.diags) <==> TrimSpace(state.player) != "" && s.fails(n)
  {
    var player := TrimSpace(state.player);
    if player == "" then Removal([], [])
    else
      var r := SingleRemoval(RemoveOp(player), s, n, Error("Client Error", "Unable to revoke operator"));
      assert r.diags != [] ==> r.diags[0].Error?;
      r
  }

  /** Import takes the trimmed import ID as both `id` and `player`; a blank ID is an error. */
  function ImportState(reqId: string): (r: Response<OpModel>)
    ensures Persisted(r).Some? <==> TrimSpace(reqId) != ""
    ensures Persisted(r).Some? ==> r.state.value == OpModel(Known(TrimSpace(reqId)), TrimSpace(reqId))
    ensures Persisted(r).None? ==> r.diags == [Error("Import Error", "Expected non-empty player name as import ID.")]
  {
    var player := TrimSpace(reqId);
    if player == "" then Response(None, [Error("Import Error", "Expected non-empty player name as import ID.")])
    else Response(Some(OpModel(Known(player), player)), [])
  }

  /**
   * Importing the ID Create wrote gives back a state whose Delete revokes
   * the same player as the created state's Delete.
   */
  lemma ImportOfCreated(plan: OpModel, s: Server, n: nat, s': Server, n': nat)
    requires Persisted(Outcome(CreateRun(plan, s, n))).Some?
    ensures var created := CreateRun(plan, s, n).state.value;
      var imported := ImportState(ValueString(created.id));
      && Persisted(imported) == Some(created.(player := TrimSpace(plan.player)))
      && DeleteRun(imported.state.value, s', n').cmds == DeleteRun(created, s', n').cmds == [RemoveOp(TrimSpace(plan.player))]
  {
    TrimSpaceIdempotent(plan.player);
  }

  method Create(client: Transport?, plan: OpModel) returns (state: Option<OpModel>, diags: seq<Diag>)
    modifies client
    ensures client == null ==> state == None && diags == [NotConfigured]
    ensures client != null ==>
      var r := CreateRun(plan, client.server, |old(client.log)|);
      client.log == old(client.log) + r.cmds && state == r.state && diags == r.diags
  {
    if client == null {
      return None, [NotConfigured];
    }
    var player := TrimSpace(plan.player);
    if player == "" {
      return None, [PlayerError];
    }
    var failed := client.Call(CreateOp(player));
    if failed {
      return None, [Error("Client Error", "Unable to grant operator")];
    }
    state, diags := Some(plan.(id := Known(player))), [];
  }

  method Delete(client: Transport?, state: OpModel) returns (diags: seq<Diag>)
    modifies client
    ensures client == null ==> diags == [NotConfigured]
    ensures client != null ==>
      var r := DeleteRun(state, client.server, |old(client.log)|);
      client.log == old(client.log) + r.cmds && diags == r.diags
  {
    if client == null {
      return [NotConfigured];
    }
    var player := TrimSpace(state.player);
    if player == "" {
      return [];
    }
    var failed := client.Call(RemoveOp(player));
    diags := if failed then [Error("Client Error", "Unable to revoke operator")] else [];
  }
}
