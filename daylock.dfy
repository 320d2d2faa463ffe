/** minecraft_daylock: the server-wide switch that locks the world at daytime. */
module DaylockResource {
  import opened Wrappers
  import opened Framework
  import opened Remote

  datatype DaylockModel = DaylockModel(id: Attr<string>, enabled: Attr<bool>)

  /** The command that puts the lock into the planned position. */
  function Switch(d: DaylockModel): Cmd {
    if ValueBool(d.enabled) then EnableDayLock else DisableDayLock
  }

  function SwitchFailure(d: DaylockModel): string {
    if ValueBool(d.enabled) then "Failed to enable daylock" else "Failed to disable daylock"
  }

  /** Create switches the lock as planned; the ID is always `default`. */
  function CreateRun(plan: DaylockModel, s: Server, n: nat): (r: Run<DaylockModel>)
    ensures r.cmds == [if ValueBool(plan.enabled) then EnableDayLock else DisableDayLock]
    ensures Persisted(Outcome(r)) == if s.fails(n) then None else Some(plan.(id := Known("default")))
    ensures s.fails(n) ==> r.diags == [Error("Client Error", if ValueBool(plan.enabled) then "Failed to enable daylock" else "Failed to disable daylock")]
    ensures !s.fails(n) ==> r.diags == []
  {
    Single(Switch(plan), s, n, SwitchFailure(plan), plan.(id := Known("default")))
  }

  /** Update sends the same switch; it sets the ID to `default` only when the plan has none yet. */
  function UpdateRun(plan: DaylockModel, s: Server, n: nat): (r: Run<DaylockModel>)
    ensures r.cmds == [if ValueBool(plan.enabled) then EnableDayLock else DisableDayLock]
    ensures Persisted(Outcome(r)).Some? <==> !s.fails(n)
    ensures Persisted(Outcome(r)).Some? ==>
      && r.state.value.enabled == plan.enabled
      && r.state.value.id == (if plan.id.Known? then plan.id else Known("default"))
    ensures s.fails(n) ==> r.diags == [Error("Client Error", if ValueBool(plan.enabled) then "Failed to enable daylock" else "Failed to disable daylock")]
    ensures !s.fails(n) ==> r.diags == []
  {
    var data := if plan.id.Null? || plan.id.Unknown? then plan.(id := Known("default")) else plan;
    Single(Switch(plan), s, n, SwitchFailure(plan), data)
  }

  /** Delete turns the lock off; a failure is only a warning, so the resource is forgotten regardless. */
  function DeleteRun(s: Server, n: nat): (r: Removal)
    ensures r.cmds == [DisableDayLock]
    ensures !HasError(r.diags)
    ensures r.diags != [] <==> s.fails(n)
  {
    var r := SingleRemoval(DisableDayLock, s, n, Warning("Delete Warning", "Failed to disable daylock during destroy"));
    assert r.diags != [] ==> !r.diags[0].Error?;
    r
  }

  const ImportError: Diag := Error("Import Error", "Expected import ID to be \"default\" for the global daylock setting.")

  /** Import accepts exactly the ID `default` and sets nothing but the ID. */
  function ImportState(reqId: string): (r: Response<DaylockModel>)
    ensures Persisted(r).Some? <==> reqId == "default"
    ensures Persisted(r).Some? ==> r.state.value == DaylockModel(Known("default"), Null)
    ensures Persisted(r).None? ==> r.diags == [ImportError]
  {
    if reqId != "default" then Response(None, [ImportError])
    else Response(Some(DaylockModel(Known("default"), Null)), [])
  }

  /** The ID Create writes is the one Import accepts. */
  lemma ImportOfCreated(plan: DaylockModel, s: Server, n: nat)
    requires Persisted(Outcome(CreateRun(plan, s, n))).Some?
    ensures Persisted(ImportState(ValueString(CreateRun(plan, s, n).state.value.id))).Some?
  {
  }

  method Create(client: Transport?, plan: DaylockModel) returns (state: Option<DaylockModel>, diags: seq<Diag>)
    modifies client
    ensures client == null ==> state == None && diags == [NotConfigured]
    ensures client != null ==>
      var r := CreateRun(plan, client.server, |old(client.log)|);
      client.log == old(client.log) + r.cmds && state == r.state && diags == r.diags
  {
    if client == null {
      return None, [NotConfigured];
    }
    if ValueBool(plan.enabled) {
      var failed := client.Call(EnableDayLock);
      if failed {
        return None, [Error("Client Error", "Failed to enable daylock")];
      }
    } else {
      var failed := client.Call(DisableDayLock);
      if failed {
        return None, [Error("Client Error", "Failed to disable daylock")];
      }
    }
    state, diags := Some(plan.(id := Known("default"))), [];
  }

  method Update(client: Transport?, plan: DaylockModel) returns (state: Option<DaylockModel>, diags: seq<Diag>)
    modifies client
    ensures client == null ==> state == None && diags == [NotConfigured]
    ensures client != null ==>
      var r := UpdateRun(plan, client.server, |old(client.log)|);
      client.log == old(client.log) + r.cmds && state == r.state && diags == r.diags
  {
    if client == null {
      return None, [NotConfigured];
    }
    if ValueBool(plan.enabled) {
      var failed := client.Call(EnableDayLock);
      if failed {
        return None, [Error("Client Error", "Failed to enable daylock")];
      }
    } else {
      var failed := client.Call(DisableDayLock);
      if failed {
        return None, [Error("Client Error", "Failed to disable daylock")];
      }
    }
    var data := plan;
    if data.id.Null? || data.id.Unknown? {
      data := data.(id := Known("default"));
    }
    state, diags := Some(data), [];
  }

  method Delete(client: Transport?) returns (diags: seq<Diag>)
    modifies client
    ensures client == null ==> diags == [NotConfigured]
    ensures client != null ==>
      var r := DeleteRun(client.server, |old(client.log)|);
      client.log == old(client.log) + r.cmds && diags == r.diags
  {
    if client == null {
      return [NotConfigured];
    }
    var failed := client.Call(DisableDayLock);
    diags := if failed then [Warning("Delete Warning", "Failed to disable daylock during destroy")] else [];
  }
}
