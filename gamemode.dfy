/**
 * minecraft_gamemode: the default game mode of the server, or the game
 * mode of one player. Before changing it the resource reads the current
 * mode and keeps it as `previous_mode`, which Delete restores.
 */
module GamemodeResource {
  import opened Wrappers
  import opened Strings
  import opened Framework
  import opened Remote

  datatype GamemodeModel = GamemodeModel(id: Attr<string>, mode: Attr<string>, player: Attr<string>, previousMode: Attr<string>)

  /** validateGamemode: the four modes the server knows, in lower case. */
  predicate ValidGamemode(m: string) {
    m == "survival" || m == "creative" || m == "adventure" || m == "spectator"
  }

  const ModeError: Diag := Error("Validation Error", "mode must be one of: survival, creative, adventure, spectator")

  /** The mode sent: the planned text trimmed and lower-cased. */
  function Mode(d: GamemodeModel): string {
    ToLower(TrimSpace(ValueString(d.mode)))
  }

  /** The player addressed: "" (the server default) when `player` is null, else the trimmed name. */
  function Target(d: GamemodeModel): string {
    if d.player.Null? then "" else TrimSpace(ValueString(d.player))
  }

  function ReadCmd(player: string): Cmd {
    if player == "" then GetDefaultGameMode else GetUserGameMode(player)
  }

  function WriteCmd(mode: string, player: string): Cmd {
    if player == "" then SetDefaultGameMode(mode) else SetUserGameMode(mode, player)
  }

  function SetFailure(player: string): string {
    if player == "" then "Unable to set default gamemode" else "Unable to set player gamemode"
  }

  function RestoreFailure(player: string): string {
    if player == "" then "Failed to restore default gamemode" else "Failed to restore player gamemode"
  }

  /** The ID `default`, or `player:<name>`. */
  function GamemodeId(player: string): string {
    if player == "" then "default" else "player:" + player
  }

  /**
   * The snapshot a read at log position n yields: its reply when the read
   * succeeded with a non-empty reply, and `fallback` otherwise.
   */
  function Observed(s: Server, n: nat, fallback: string): string {
    if !s.fails(n) && s.replies(n) != "" then s.replies(n) else fallback
  }

  /**
   * Create, from log position n: an invalid mode sends nothing; otherwise
   * the current mode of the target is read and then the new mode written,
   * whatever the read returned. The state is written only when the write
   * succeeds, with the read's reply as the snapshot ("" when the read
   * failed or returned nothing).
   */
  function CreateRun(plan: GamemodeModel, s: Server, n: nat): (r: Run<GamemodeModel>)
    ensures !ValidGamemode(Mode(plan)) ==> r == Run([], None, [ModeError])
    ensures ValidGamemode(Mode(plan)) ==> r.cmds == [ReadCmd(Target(plan)), WriteCmd(Mode(plan), Target(plan))]
    ensures Persisted(Outcome(r)).Some? <==> ValidGamemode(Mode(plan)) && !s.fails(n + 1)
    ensures Persisted(Outcome(r)).Some? ==>
      && r.state.value.id == Known(GamemodeId(Target(plan)))
      && r.state.value.previousMode == Known(Observed(s, n, ""))
      && r.state.value.(id := plan.id, previousMode := plan.previousMode) == plan
    ensures ValidGamemode(Mode(plan)) && s.fails(n + 1) ==>
      r.diags == [Error("Client Error", if Target(plan) == "" then "Unable to set default gamemode" else "Unable to set player gamemode")]
    ensures ValidGamemode(Mode(plan)) && !s.fails(n + 1) ==> r.diags == []
  {
    var mode, player := Mode(plan), Target(plan);
    if !ValidGamemode(mode) then Run([], None, [ModeError])
    else
      var cmds := [ReadCmd(player), WriteCmd(mode, player)];
      if s.fails(n + 1) then Run(cmds, None, [Error("Client Error", SetFailure(player))])
      else Run(cmds, Some(plan.(id := Known(GamemodeId(player)), previousMode := Known(Observed(s, n, "")))), [])
  }

  /**
   * Update reads and writes like Create. The snapshot moves on only when
   * the read returns a non-empty mode; otherwise the stored one is kept.
   * The ID stays as planned.
   */
  function UpdateRun(plan: GamemodeModel, state: GamemodeModel, s: Server, n: nat): (r: Run<GamemodeModel>)
    ensures !ValidGamemode(Mode(plan)) ==> r == Run([], None, [ModeError])
    ensures ValidGamemode(Mode(plan)) ==> r.cmds == [ReadCmd(Target(plan)), WriteCmd(Mode(plan), Target(plan))]
    ensures Persisted(Outcome(r)).Some? <==> ValidGamemode(Mode(plan)) && !s.fails(n + 1)
    ensures Persisted(Outcome(r)).Some? ==>
      r.state.value == plan.(previousMode := Known(Observed(s, n, ValueString(state.previousMode))))
    ensures ValidGamemode(Mode(plan)) && s.fails(n + 1) ==>
      r.diags == [Error("Client Error", if Target(plan) == "" then "Unable to set default gamemode" else "Unable to set player gamemode")]
    ensures ValidGamemode(Mode(plan)) && !s.fails(n + 1) ==> r.diags == []
  {
    var mode, player := Mode(plan), Target(plan);
    if !ValidGamemode(mode) then Run([], None, [ModeError])
    else
      var prev := Observed(s, n, ValueString(state.previousMode));
      var cmds := [ReadCmd(player), WriteCmd(mode, player)];
      if s.fails(n + 1) then Run(cmds, None, [Error("Client Error", SetFailure(player))])
      else Run(cmds, Some(plan.(previousMode := Known(prev))), [])
  }

  /**
   * Delete writes the trimmed snapshot back to the trimmed stored player
   * (the default mode when there is none); a blank snapshot sends nothing.
   * A failed restore is only a warning, so Delete never reports an error.
   */
  function DeleteRun(state: GamemodeModel, s: Server, n: nat): (r: Removal)
    ensures !HasError(r.diags)
    ensures TrimSpace(ValueString(state.previousMode)) == "" <==> r == Removal([], [])
    ensures TrimSpace(ValueString(state.previousMode)) != "" ==>
      && r.cmds == [WriteCmd(TrimSpace(ValueString(state.previousMode)), TrimSpace(ValueString(state.player)))]
      && (r.diags != [] <==> s.fails(n))
      && (s.fails(n) ==> r.diags == [Warning("Restore Warning",
            if TrimSpace(ValueString(state.player)) == "" then "Failed to restore default gamemode"
            else "Failed to restore player gamemode")])
  {
    var prev := TrimSpace(ValueString(state.previousMode));
    if prev == "" then Removal([], [])
    else
      var player := TrimSpace(ValueString(state.player));
      var r := SingleRemoval(WriteCmd(prev, player), s, n, Warning("Restore Warning", RestoreFailure(player)));
      assert r.diags != [] ==> !r.diags[0].Error?;
      r
  }

  /**
   * A resource created over a server that reported a mode restores that
   * mode, to the same target Create changed, when it is deleted.
   */
  lemma CreateThenDeleteRestores(plan: GamemodeModel, s: Server, n: nat, s': Server, n': nat)
    requires Persisted(Outcome(CreateRun(plan, s, n))).Some?
    requires !s.fails(n) && TrimSpace(s.replies(n)) != ""
    ensures DeleteRun(CreateRun(plan, s, n).state.value, s', n').cmds ==
      [WriteCmd(TrimSpace(s.replies(n)), Target(plan))]
  {
    var created := CreateRun(plan, s, n).state.value;
    assert created.player == plan.player;
    assert TrimSpace("") == "";
  }

  /** Without a snapshot (the read failed, or returned only white space) Delete leaves the server alone. */
  lemma NoSnapshotNoRestore(plan: GamemodeModel, s: Server, n: nat, s': Server, n': nat)
    requires Persisted(Outcome(CreateRun(plan, s, n))).Some?
    requires s.fails(n) || TrimSpace(s.replies(n)) == ""
    ensures DeleteRun(CreateRun(plan, s, n).state.value, s', n') == Removal([], [])
  {
    assert TrimSpace("") == "";
  }

  predicate HasPlayerPrefix(id: string) {
    |id| >= 7 && id[..7] == "player:"
  }

  /**
   * Import takes the trimmed ID: `default`, or `player:<name>` which also
   * sets `player`. A blank ID sets nothing; any other ID is set as `id` but
   * reported as an error, so nothing is kept.
   */
  function ImportState(reqId: string): (r: Response<GamemodeModel>)
    ensures TrimSpace(reqId) == "" ==> r.state.None? && HasError(r.diags)
    ensures Persisted(r).Some? <==> TrimSpace(reqId) == "default" || HasPlayerPrefix(TrimSpace(reqId))
    ensures Persisted(r).Some? ==>
      && r.state.value.id == Known(TrimSpace(reqId))
      && r.state.value.mode.Null? && r.state.value.previousMode.Null?
      && r.state.value.player == (if TrimSpace(reqId) == "default" then Null else Known(TrimSpace(reqId)[7..]))
  {
    var id := TrimSpace(reqId);
    if id == "" then
      var r := Response(None, [Error("Import Error", "Expected `default` or `player:<name>` as import ID.")]);
      assert r.diags[0].Error?;
      r
    else
      var base := GamemodeModel(Known(id), Null, Null, Null);
      if id == "default" then Response(Some(base), [])
      else if HasPlayerPrefix(id) then Response(Some(base.(player := Known(id[7..]))), [])
      else
        var r := Response(Some(base), [Error("Import Error", "Unrecognized import ID. Use `default` or `player:<name>`.")]);
        assert r.diags[0].Error?;
        r
  }

  /**
   * The ID Create writes imports again, with the same ID and addressing
   * the same target.
   */
  lemma ImportOfCreatedId(plan: GamemodeModel, s: Server, n: nat)
    requires Persisted(Outcome(CreateRun(plan, s, n))).Some?
    ensures var created := CreateRun(plan, s, n).state.value;
      var imported := Persisted(ImportState(ValueString(created.id)));
      imported.Some? && imported.value.id == created.id && Target(imported.value) == Target(plan)
  {
    if !plan.player.Null? {
      TrimSpaceIdempotent(ValueString(plan.player));
    }
    ImportOfGamemodeId(Target(plan));
  }

  /** `default`, and `player:<name>` for a trimmed name, import as the target they name. */
  lemma ImportOfGamemodeId(p: string)
    requires TrimSpace(p) == p
    ensures var imported := Persisted(ImportState(GamemodeId(p)));
      imported.Some? && imported.value.id == Known(GamemodeId(p)) && Target(imported.value) == p
  {
    var id := GamemodeId(p);
    if p == "" {
      DefaultIdImports();
      assert Target(GamemodeModel(Known(id), Null, Null, Null)) == "";
    } else {
      PlayerIdImports(id, p);
      assert Target(GamemodeModel(Known(id), Null, Known(p), Null)) == p;
    }
  }

  lemma DefaultIdImports()
    ensures ImportState("default") == Response(Some(GamemodeModel(Known("default"), Null, Null, Null)), [])
  {
    TrimSpaceKeeps("default");
  }

  /** A trimmed non-empty name comes back out of `player:<name>`. */
  lemma PlayerIdImports(id: string, p: string)
    requires p != "" && TrimSpace(p) == p && id == "player:" + p
    ensures ImportState(id) == Response(Some(GamemodeModel(Known(id), Null, Known(p), Null)), [])
  {
    PlayerIdFacts(id, p);
    ImportOfPlayerId(id, p);
  }

  lemma PlayerIdFacts(id: string, p: string)
    requires p != "" && TrimSpace(p) == p && id == "player:" + p
    ensures TrimSpace(id) == id && id != "" && id != "default" && HasPlayerPrefix(id) && id[7..] == p
  {
    PlayerIdKeeps(p);
    PlayerIdShape(id, p);
  }

  lemma PlayerIdShape(id: string, p: string)
    requires id == "player:" + p
    ensures id != "default" && HasPlayerPrefix(id) && id[7..] == p
  {
    assert id[0] == 'p';
  }

  lemma PlayerIdKeeps(p: string)
    requires p != "" && TrimSpace(p) == p
    ensures TrimSpace("player:" + p) == "player:" + p
  {
    var id := "player:" + p;
    assert !IsSpace(p[|p| - 1]) by {
      TrimRightDropsSpace(TrimLeft(p));
    }
    assert id[0] == 'p' && id[|id| - 1] == p[|p| - 1];
    TrimSpaceKeeps(id);
  }

  lemma ImportOfPlayerId(id: string, p: string)
    requires TrimSpace(id) == id && id != "" && id != "default" && HasPlayerPrefix(id) && id[7..] == p
    ensures ImportState(id) == Response(Some(GamemodeModel(Known(id), Null, Known(p), Null)), [])
  {
  }

  method Create(client: Transport?, plan: GamemodeModel) returns (state: Option<GamemodeModel>, diags: seq<Diag>)
    modifies client
    ensures client == null ==> state == None && diags == [NotConfigured]
    ensures client != null ==>
      var r := CreateRun(plan, client.server, |old(client.log)|);
      client.log == old(client.log) + r.cmds && state == r.state && diags == r.diags
  {
    if client == null {
      return None, [NotConfigured];
    }
    var mode := Mode(plan);
    if !ValidGamemode(mode) {
      return None, [ModeError];
    }
    var player := Target(plan);
    var prev := "";
    var got, failed := client.Query(ReadCmd(player));
    if !failed && got != "" {
      prev := got;
    }
    failed := client.Call(WriteCmd(mode, player));
    if failed {
      return None, [Error("Client Error", SetFailure(player))];
    }
    state := Some(plan.(id := Known(GamemodeId(player)), previousMode := Known(prev)));
    diags := [];
  }

  method Update(client: Transport?, plan: GamemodeModel, prior: GamemodeModel) returns (state: Option<GamemodeModel>, diags: seq<Diag>)
    modifies client
    ensures client == null ==> state == None && diags == [NotConfigured]
    ensures client != null ==>
      var r := UpdateRun(plan, prior, client.server, |old(client.log)|);
      client.log == old(client.log) + r.cmds && state == r.state && diags == r.diags
  {
    if client == null {
      return None, [NotConfigured];
    }
    var mode := Mode(plan);
    if !ValidGamemode(mode) {
      return None, [ModeError];
    }
    var player := Target(plan);
    var prev := ValueString(prior.previousMode);
    var got, failed := client.Query(ReadCmd(player));
    if !failed && got != "" {
      prev := got;
    }
    failed := client.Call(WriteCmd(mode, player));
    if failed {
      return None, [Error("Client Error", SetFailure(player))];
    }
    state := Some(plan.(previousMode := Known(prev)));
    diags := [];
  }

  method Delete(client: Transport?, state: GamemodeModel) returns (diags: seq<Diag>)
    modifies client
    ensures client == null ==> diags == [NotConfigured]
    ensures client != null ==>
      var r := DeleteRun(state, client.server, |old(client.log)|);
      client.log == old(client.log) + r.cmds && diags == r.diags
  {
    if client == null {
      return [NotConfigured];
    }
    var prev := TrimSpace(ValueString(state.previousMode));
    if prev == "" {
      return [];
    }
    var player := TrimSpace(ValueString(state.player));
    if player == "" {
      var failed := client.Call(SetDefaultGameMode(prev));
      diags := if failed then [Warning("Restore Warning", "Failed to restore default gamemode")] else [];
      return;
    }
    var failed := client.Call(SetUserGameMode(prev, player));
    diags := if failed then [Warning("Restore Warning", "Failed to restore player gamemode")] else [];
  }
}
