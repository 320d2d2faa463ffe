/**
 * minecraft_gamerule: one game rule set to a value written as text, an
 * integer or `true`/`false`.
 */
module GameruleResource {
  import opened Wrappers
  import opened Strings
  import opened Framework
  import opened Remote

  datatype GameruleModel = GameruleModel(id: Attr<string>, name: string, value: string)

  /** What a value is sent as. */
  datatype Typed = IntRule(i: int) | BoolRule(b: bool) | Invalid

  /**
   * An integer wins whenever strconv.Atoi accepts the text; only then is
   * the lower-cased text compared with `true` and `false`.
   */
  function Classify(val: string): (t: Typed)
    ensures Atoi(val).Some? ==> t == IntRule(Atoi(val).value)
    ensures Atoi(val).None? ==> (t != Invalid <==> ToLower(val) == "true" || ToLower(val) == "false")
  {
    match Atoi(val)
    case Some(i) => IntRule(i)
    case None =>
      var lv := ToLower(val);
      if lv == "true" || lv == "false" then BoolRule(lv == "true") else Invalid
  }

  /** A printed 64-bit integer is sent as that integer. */
  lemma ClassifyPrinted(i: int)
    requires MinInt64 <= i <= MaxInt64
    ensures Classify(IntToString(i)) == IntRule(i)
  {
    AtoiOfIntToString(i);
  }

  /** `true` and `false` in any letter case are sent as that boolean. */
  lemma ClassifyBoolWord(val: string)
    requires ToLower(val) == "true" || ToLower(val) == "false"
    ensures Classify(val) == BoolRule(ToLower(val) == "true")
  {
    ToLowerChars(val);
    assert LowerChar(val[0]) == 't' || LowerChar(val[0]) == 'f';
  }

  function SetRule(name: string, t: Typed): Cmd
    requires !t.Invalid?
  {
    if t.IntRule? then SetGameRuleInt(name, t.i) else SetGameRuleBool(name, t.b)
  }

  const InvalidValue: Diag := Error("Invalid Gamerule Value", "Value is neither an integer nor true/false.")

  /**
   * Create and Update send the trimmed value, typed by Classify, to the
   * trimmed rule name; an invalid value sends nothing.
   */
  function WriteRun(plan: GameruleModel, s: Server, n: nat, ok: GameruleModel): (r: Run<GameruleModel>)
    ensures Classify(TrimSpace(plan.value)).Invalid? ==> r == Run([], None, [InvalidValue])
    ensures !Classify(TrimSpace(plan.value)).Invalid? ==>
      r.cmds == [SetRule(TrimSpace(plan.name), Classify(TrimSpace(plan.value)))]
    ensures Persisted(Outcome(r)).Some? <==> !Classify(TrimSpace(plan.value)).Invalid? && !s.fails(n)
    ensures Persisted(Outcome(r)).Some? ==> r.state.value == ok && r.diags == []
    ensures !Classify(TrimSpace(plan.value)).Invalid? && s.fails(n) ==> r.diags == [Error("Client Error", "Unable to set gamerule")]
  {
    var name, t := TrimSpace(plan.name), Classify(TrimSpace(plan.value));
    if t.Invalid? then Run([], None, [InvalidValue])
    else
      var r := Single(SetRule(name, t), s, n, "Unable to set gamerule", ok);
      assert r.diags != [] ==> r.diags[0].Error?;
      r
  }

  /** Create stores the plan with the trimmed name as its ID. */
  function CreateRun(plan: GameruleModel, s: Server, n: nat): (r: Run<GameruleModel>)
    ensures Classify(TrimSpace(plan.value)).Invalid? ==> r == Run([], None, [InvalidValue])
    ensures !Classify(TrimSpace(plan.value)).Invalid? ==>
      r.cmds == [SetRule(TrimSpace(plan.name), Classify(TrimSpace(plan.value)))]
    ensures Persisted(Outcome(r)).Some? <==> !Classify(TrimSpace(plan.value)).Invalid? && !s.fails(n)
    ensures r.state.Some? ==> r.state.value == plan.(id := Known(TrimSpace(plan.name))) && r.diags == []
    ensures !Classify(TrimSpace(plan.value)).Invalid? && s.fails(n) ==> r.diags == [Error("Client Error", "Unable to set gamerule")]
  {
    WriteRun(plan, s, n, plan.(id := Known(TrimSpace(plan.name))))
  }

  /** Update stores the plan as it is, keeping its ID. */
  function UpdateRun(plan: GameruleModel, s: Server, n: nat): (r: Run<GameruleModel>)
    ensures Classify(TrimSpace(plan.value)).Invalid? ==> r == Run([], None, [InvalidValue])
    ensures !Classify(TrimSpace(plan.value)).Invalid? ==>
      r.cmds == [SetRule(TrimSpace(plan.name), Classify(TrimSpace(plan.value)))]
    ensures Persisted(Outcome(r)).Some? <==> !Classify(TrimSpace(plan.value)).Invalid? && !s.fails(n)
    ensures r.state.Some? ==> r.state.value == plan && r.diags == []
    ensures !Classify(TrimSpace(plan.value)).Invalid? && s.fails(n) ==> r.diags == [Error("Client Error", "Unable to set gamerule")]
  {
    WriteRun(plan, s, n, plan)
  }

  /** Read queries the trimmed rule and replaces the value with the trimmed reply. */
  function ReadRun(state: GameruleModel, s: Server, n: nat): (r: Run<GameruleModel>)
    ensures r.cmds == [GetGameRule(TrimSpace(state.name))]
    ensures r.state.Some? <==> !s.fails(n)
    ensures r.state.Some? ==> r.state.value == state.(value := TrimSpace(s.replies(n))) && r.diags == []
    ensures r.state.None? ==> r.diags == [Error("Client Error", "Unable to read gamerule")]
  {
    var cmds := [GetGameRule(TrimSpace(state.name))];
    if s.fails(n) then Run(cmds, None, [Error("Client Error", "Unable to read gamerule")])
    else Run(cmds, Some(state.(value := TrimSpace(s.replies(n)))), [])
  }

  /** Delete resets the rule to its default; a failure is only a warning. */
  function DeleteRun(state: GameruleModel, s: Server, n: nat): (r: Removal)
    ensures r.cmds == [ResetGameRuleToDefault(TrimSpace(state.name))]
    ensures !HasError(r.diags)
    ensures r.diags != [] <==> s.fails(n)
  {
    var r := SingleRemoval(ResetGameRuleToDefault(TrimSpace(state.name)), s, n,
                           Warning("Reset Warning", "Could not reset gamerule to default"));
    assert r.diags != [] ==> !r.diags[0].Error?;
    r
  }

  /**
   * Import reads the rule named by the trimmed ID; the ID is both `id` and
   * `name`, and the trimmed reply is the value. A read failure is an import
   * error.
   */
  function ImportRun(reqId: string, s: Server, n: nat): (r: Run<GameruleModel>)
    ensures r.cmds == [GetGameRule(TrimSpace(reqId))]
    ensures r.state.Some? <==> !s.fails(n)
    ensures r.state.Some? ==>
      r.state.value == GameruleModel(Known(TrimSpace(reqId)), TrimSpace(reqId), TrimSpace(s.replies(n))) && r.diags == []
    ensures r.state.None? ==> r.diags == [Error("Import Error", "Unable to read gamerule")]
  {
    var name := TrimSpace(reqId);
    if s.fails(n) then Run([GetGameRule(name)], None, [Error("Import Error", "Unable to read gamerule")])
    else Run([GetGameRule(name)], Some(GameruleModel(Known(name), name, TrimSpace(s.replies(n)))), [])
  }

  /** Read and Delete of a created rule address the rule Create wrote. */
  lemma LifecycleTargetsRule(plan: GameruleModel, s: Server, n: nat, s': Server, n': nat)
    requires CreateRun(plan, s, n).state.Some?
    ensures var created, rule := CreateRun(plan, s, n).state.value, TrimSpace(plan.name);
      && CreateRun(plan, s, n).cmds == [SetRule(rule, Classify(TrimSpace(plan.value)))]
      && ReadRun(created, s', n').cmds == [GetGameRule(rule)]
      && DeleteRun(created, s', n').cmds == [ResetGameRuleToDefault(rule)]
  {
    assert CreateRun(plan, s, n).state.value.name == plan.name;
  }

  /**
   * A rule read back after Create is typed as it was written whenever the
   * server's reply, trimmed, is the value that was written (the trimmed
   * plan value), whatever white space the reply carries around it.
   */
  lemma ReadBackClassifies(plan: GameruleModel, s: Server, n: nat, s': Server, n': nat)
    requires CreateRun(plan, s, n).state.Some?
    requires !s'.fails(n') && TrimSpace(s'.replies(n')) == TrimSpace(plan.value)
    ensures var read := ReadRun(CreateRun(plan, s, n).state.value, s', n');
      Classify(TrimSpace(read.state.value.value)) == Classify(TrimSpace(plan.value))
  {
    TrimSpaceIdempotent(plan.value);
  }

  /** A refresh of an imported rule queries the rule Import queried and changes nothing else. */
  lemma ImportThenRead(reqId: string, s: Server, n: nat, s': Server, n': nat)
    requires ImportRun(reqId, s, n).state.Some?
    ensures var imported := ImportRun(reqId, s, n).state.value;
      && ReadRun(imported, s', n').cmds == ImportRun(reqId, s, n).cmds
      && (ReadRun(imported, s', n').state.Some? ==>
            ReadRun(imported, s', n').state.value.(value := imported.value) == imported)
  {
    TrimSpaceIdempotent(reqId);
  }

  method Create(client: Transport?, plan: GameruleModel) returns (state: Option<GameruleModel>, diags: seq<Diag>)
    modifies client
    ensures client == null ==> state == None && diags == [NotConfigured]
    ensures client != null ==>
      var r := CreateRun(plan, client.server, |old(client.log)|);
      client.log == old(client.log) + r.cmds && state == r.state && diags == r.diags
  {
    if client == null {
      return None, [NotConfigured];
    }
    var name, t := TrimSpace(plan.name), Classify(TrimSpace(plan.value));
    if t.Invalid? {
      return None, [InvalidValue];
    }
    var failed := client.Call(SetRule(name, t));
    if failed {
      return None, [Error("Client Error", "Unable to set gamerule")];
    }
    state, diags := Some(plan.(id := Known(name))), [];
  }

  method Update(client: Transport?, plan: GameruleModel) returns (state: Option<GameruleModel>, diags: seq<Diag>)
    modifies client
    ensures client == null ==> state == None && diags == [NotConfigured]
    ensures client != null ==>
      var r := UpdateRun(plan, client.server, |old(client.log)|);
      client.log == old(client.log) + r.cmds && state == r.state && diags == r.diags
  {
    if client == null {
      return None, [NotConfigured];
    }
    var name, t := TrimSpace(plan.name), Classify(TrimSpace(plan.value));
    if t.Invalid? {
      return None, [InvalidValue];
    }
    var failed := client.Call(SetRule(name, t));
    if failed {
      return None, [Error("Client Error", "Unable to set gamerule")];
    }
    state, diags := Some(plan), [];
  }

  method Read(client: Transport?, prior: GameruleModel) returns (state: Option<GameruleModel>, diags: seq<Diag>)
    modifies client
    ensures client == null ==> state == None && diags == [NotConfigured]
    ensures client != null ==>
      var r := ReadRun(prior, client.server, |old(client.log)|);
      client.log == old(client.log) + r.cmds && state == r.state && diags == r.diags
  {
    if client == null {
      return None, [NotConfigured];
    }
    var raw, failed := client.Query(GetGameRule(TrimSpace(prior.name)));
    if failed {
      return None, [Error("Client Error", "Unable to read gamerule")];
    }
    state, diags := Some(prior.(value := TrimSpace(raw))), [];
  }

  method Delete(client: Transport?, state: GameruleModel) returns (diags: seq<Diag>)
    modifies client
    ensures client == null ==> diags == [NotConfigured]
    ensures client != null ==>
      var r := DeleteRun(state, client.server, |old(client.log)|);
      client.log == old(client.log) + r.cmds && diags == r.diags
  {
    if client == null {
      return [NotConfigured];
    }
    var failed := client.Call(ResetGameRuleToDefault(TrimSpace(state.name)));
    diags := if failed then [Warning("Reset Warning", "Could not reset gamerule to default")] else [];
  }

  method ImportState(client: Transport?, reqId: string) returns (state: Option<GameruleModel>, diags: seq<Diag>)
    modifies client
    ensures client == null ==> state == None && diags == [NotConfigured]
    ensures client != null ==>
      var r := ImportRun(reqId, client.server, |old(client.log)|);
      client.log == old(client.log) + r.cmds && state == r.state && diags == r.diags
  {
    if client == null {
      return None, [NotConfigured];
    }
    var name := TrimSpace(reqId);
    var raw, failed := client.Query(GetGameRule(name));
    if failed {
      return None, [Error("Import Error", "Unable to read gamerule")];
    }
    state, diags := Some(GameruleModel(Known(name), name, TrimSpace(raw))), [];
  }
}
