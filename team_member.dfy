/**
 * minecraft_team_member: one player, selector or named entity in a team.
 * The ID is `team|kind|value`; Import and Delete split it again with
 * strings.SplitN(id, "|", 3).
 */
module TeamMemberResource {
  import opened Wrappers
  import opened Strings
  import opened Framework
  import opened Remote

  datatype MemberModel = MemberModel(id: Attr<string>, team: Attr<string>, player: Attr<string>, selector: Attr<string>, entityId: Attr<string>)

  /** The three kinds of member. In the ID and in the switches they are the words `player`, `selector`, `entity`. */
  datatype Kind = Player | Selector | Entity

  function KindWord(k: Kind): string {
    match k
    case Player => "player"
    case Selector => "selector"
    case Entity => "entity"
  }

  /** The kind a word names, if any. */
  function ParseKind(w: string): (k: Option<Kind>)
    ensures k.Some? ==> KindWord(k.value) == w
    ensures k.None? <==> w != "player" && w != "selector" && w != "entity"
  {
    if w == "player" then Some(Player)
    else if w == "selector" then Some(Selector)
    else if w == "entity" then Some(Entity)
    else None
  }

  /** Every kind word names its kind back, and none contains `|`. */
  lemma KindWordParses(k: Kind)
    ensures ParseKind(KindWord(k)) == Some(k)
    ensures '|' !in KindWord(k)
  {
  }

  /** A validated membership: the trimmed team, the kind and the trimmed value. */
  datatype Membership = Membership(team: string, kind: Kind, value: string)

  /** An optional target counts when it is known and not blank; its trimmed text is the value. */
  function Target(a: Attr<string>): Option<string> {
    if a.Known? && TrimSpace(ValueString(a)) != "" then Some(TrimSpace(ValueString(a))) else None
  }

  /** The field of a kind. */
  function Field(d: MemberModel, k: Kind): Attr<string> {
    match k
    case Player => d.player
    case Selector => d.selector
    case Entity => d.entityId
  }

  /** The model with the field of kind k set to v. */
  function WithField(d: MemberModel, k: Kind, v: string): (r: MemberModel)
    ensures Field(r, k) == Known(v)
    ensures forall j :: j != k ==> Field(r, j) == Field(d, j)
    ensures r.id == d.id && r.team == d.team
  {
    match k
    case Player => d.(player := Known(v))
    case Selector => d.(selector := Known(v))
    case Entity => d.(entityId := Known(v))
  }

  /** The target of kind k as a (kind, value) entry when it is set. */
  function Entry(d: MemberModel, k: Kind): seq<(Kind, string)> {
    if Target(Field(d, k)).Some? then [(k, Target(Field(d, k)).value)] else []
  }

  /** The targets that are set, in the order player, selector, entity. */
  function SetTargets(d: MemberModel): seq<(Kind, string)> {
    Entry(d, Player) + Entry(d, Selector) + Entry(d, Entity)
  }

  const TeamRequired := "`team` is required"
  const NoTarget := "exactly one of `player`, `selector`, or `entity_id` must be set"
  const TooManyTargets := "only one of `player`, `selector`, or `entity_id` may be set"

  /** validateTeamMemberCreate, as a value: the membership, or the error text. */
  function Validation(d: MemberModel): Result<Membership, string> {
    var team := TrimSpace(ValueString(d.team));
    var ts := SetTargets(d);
    if team == "" then Err(TeamRequired)
    else if |ts| == 0 then Err(NoTarget)
    else if |ts| > 1 then Err(TooManyTargets)
    else Ok(Membership(team, ts[0].0, ts[0].1))
  }

  /** Each way validation fails has its own text: blank team, no target, more than one target. */
  lemma ValidationErrors(d: MemberModel)
    ensures var team := TrimSpace(ValueString(d.team));
      && (team == "" ==> Validation(d) == Err(TeamRequired))
      && (team != "" && (forall k :: Target(Field(d, k)).None?) ==> Validation(d) == Err(NoTarget))
      && (team != "" && (exists j, k :: j != k && Target(Field(d, j)).Some? && Target(Field(d, k)).Some?) ==>
            Validation(d) == Err(TooManyTargets))
  {
    if forall k :: Target(Field(d, k)).None? {
      assert Entry(d, Player) == Entry(d, Selector) == Entry(d, Entity) == [];
    }
    if exists j, k :: j != k && Target(Field(d, j)).Some? && Target(Field(d, k)).Some? {
      var j, k :| j != k && Target(Field(d, j)).Some? && Target(Field(d, k)).Some?;
      TwoEntries(d, j, k);
    }
  }

  /** Two different targets that are set make at least two entries. */
  lemma TwoEntries(d: MemberModel, j: Kind, k: Kind)
    requires j != k && Target(Field(d, j)).Some? && Target(Field(d, k)).Some?
    ensures |SetTargets(d)| > 1
  {
    assert |Entry(d, j)| == |Entry(d, k)| == 1;
  }

  /**
   * Validation succeeds exactly when the trimmed team is not blank and
   * exactly one of player, selector and entity_id is set; the membership
   * then has that kind and its trimmed value.
   */
  lemma ValidationExactlyOne(d: MemberModel)
    ensures forall k :: TrimSpace(ValueString(d.team)) != "" && Target(Field(d, k)).Some? && (forall j :: j != k ==> Target(Field(d, j)).None?) ==>
      Validation(d) == Ok(Membership(TrimSpace(ValueString(d.team)), k, Target(Field(d, k)).value))
    ensures Validation(d).Ok? ==>
      var m := Validation(d).value;
      && m.team == TrimSpace(ValueString(d.team)) != ""
      && Target(Field(d, m.kind)) == Some(m.value)
      && (forall j :: j != m.kind ==> Target(Field(d, j)).None?)
  {
    if Validation(d).Ok? {
      var m := Validation(d).value;
      forall j | j != m.kind ensures Target(Field(d, j)).None? {
        if Target(Field(d, j)).Some? {
          TwoEntries(d, j, m.kind);
        }
      }
    }
  }

  /**
   * One of validateTeamMemberCreate's three target checks: a set target is
   * counted and becomes the kind and value; otherwise nothing changes.
   */
  method CountTarget(a: Attr<string>, k: Kind, count: nat, kind: Kind, value: string)
    returns (count': nat, kind': Kind, value': string)
    ensures Target(a).Some? ==> count' == count + 1 && kind' == k && value' == Target(a).value
    ensures Target(a).None? ==> count' == count && kind' == kind && value' == value
  {
    count', kind', value' := count, kind, value;
    if a.Known? {
      var v := TrimSpace(ValueString(a));
      if v != "" {
        count' := count + 1;
        kind', value' := k, v;
      }
    }
  }

  /**
   * validateTeamMemberCreate: counts the targets that are set, keeping the
   * kind and value of the last one, and accepts exactly one. On an error
   * the team and value are blank.
   */
  method ValidateTeamMemberCreate(d: MemberModel) returns (team: string, kind: Kind, value: string, err: Option<string>)
    ensures err.None? ==> Validation(d) == Ok(Membership(team, kind, value))
    ensures err.Some? ==> Validation(d) == Err(err.value) && team == value == ""
  {
    team := TrimSpace(ValueString(d.team));
    kind, value := Player, "";
    if team == "" {
      team, err := "", Some(TeamRequired);
    } else {
      var count := 0;
      count, kind, value := CountTarget(d.player, Player, count, kind, value);
      ghost var seen := Entry(d, Player);
      count, kind, value := CountTarget(d.selector, Selector, count, kind, value);
      seen := seen + Entry(d, Selector);
      count, kind, value := CountTarget(d.entityId, Entity, count, kind, value);
      seen := seen + Entry(d, Entity);
      assert seen == SetTargets(d);
      if count == 0 {
        team, value, err := "", "", Some(NoTarget);
      } else if count > 1 {
        team, value, err := "", "", Some(TooManyTargets);
      } else {
        err := None;
      }
    }
  }

  /**
   * pickTeamMemberTarget: the first set target in the order player,
   * selector, entity; None stands for the ("", "") the source returns when
   * none is set.
   */
  function PickTarget(d: MemberModel): Option<(Kind, string)> {
    if Target(d.player).Some? then Some((Player, Target(d.player).value))
    else if Target(d.selector).Some? then Some((Selector, Target(d.selector).value))
    else if Target(d.entityId).Some? then Some((Entity, Target(d.entityId).value))
    else None
  }

  /** The target picked is the first of those set, and none is picked exactly when none is set. */
  lemma PickTargetFirst(d: MemberModel)
    ensures SetTargets(d) == [] <==> PickTarget(d).None?
    ensures SetTargets(d) != [] ==> PickTarget(d) == Some(SetTargets(d)[0])
    ensures PickTarget(d).Some? ==> PickTarget(d).value.1 != ""
  {
  }

  /** The composite ID `team|kind|value`. */
  function MemberId(m: Membership): string {
    m.team + "|" + KindWord(m.kind) + "|" + m.value
  }

  /** parseTeamMemberID: the second and third of three `|`-separated parts, or ("", ""). */
  function ParseId(id: string): (string, string) {
    var parts := SplitN3(id, '|');
    if |parts| == 3 then (parts[1], parts[2]) else ("", "")
  }

  /** Splitting an ID built from a membership whose team has no `|` gives its three fields back. */
  lemma SplitMemberId(m: Membership)
    requires '|' !in m.team
    ensures SplitN3(MemberId(m), '|') == [m.team, KindWord(m.kind), m.value]
  {
    KindWordParses(m.kind);
    SplitN3OfJoin(m.team, KindWord(m.kind), m.value, '|');
    assert MemberId(m) == m.team + ['|'] + KindWord(m.kind) + ['|'] + m.value;
  }

  /** Parsing an ID built from a membership whose team has no `|` gives its kind and value back. */
  lemma ParseIdOfMemberId(m: Membership)
    requires '|' !in m.team
    ensures ParseId(MemberId(m)) == (KindWord(m.kind), m.value)
  {
    SplitMemberId(m);
  }

  function JoinCmd(k: Kind, team: string, value: string): Cmd {
    match k
    case Player => JoinTeamPlayers(team, value)
    case Selector => JoinTeamTargets(team, value)
    case Entity => JoinTeamEntityByName(team, value)
  }

  function LeaveCmd(k: Kind, value: string): Cmd {
    match k
    case Player => LeaveTeamPlayers(value)
    case Selector => LeaveTeamTargets(value)
    case Entity => LeaveTeamEntityByName(value)
  }

  function JoinWording(k: Kind): string {
    "Unable to add " + KindWord(k) + " to team"
  }

  function LeaveWording(k: Kind): string {
    "Unable to remove " + KindWord(k) + " from team"
  }

  /**
   * Create: a validation failure sends nothing; otherwise the join command
   * of the kind, and on success the plan is written with ID `team|kind|value`.
   */
  function CreateRun(plan: MemberModel, s: Server, n: nat): (r: Run<MemberModel>)
    ensures Validation(plan).Err? ==> r == Run([], None, [Error("Validation Error", Validation(plan).error)])
    ensures Validation(plan).Ok? ==>
      var m := Validation(plan).value;
      && r.cmds == [JoinCmd(m.kind, m.team, m.value)]
      && (Persisted(Outcome(r)).Some? <==> !s.fails(n))
      && (Persisted(Outcome(r)).Some? ==> r.state.value == plan.(id := Known(MemberId(m))))
    ensures r.state.None? ==> HasError(r.diags)
  {
    match Validation(plan)
    case Err(e) =>
      var r := Run([], None, [Error("Validation Error", e)]);
      assert r.diags[0].Error?;
      r
    case Ok(m) =>
      var r := Single(JoinCmd(m.kind, m.team, m.value), s, n, JoinWording(m.kind), plan.(id := Known(MemberId(m))));
      assert r.diags != [] ==> r.diags[0].Error?;
      r
  }

  /** Delete's target: the picked state field, or else the kind and value parsed from the ID. */
  function DeleteTarget(state: MemberModel): (Option<Kind>, string) {
    match PickTarget(state)
    case Some((k, v)) => (Some(k), v)
    case None =>
      var kv := ParseId(ValueString(state.id));
      (ParseKind(kv.0), kv.1)
  }

  /**
   * Delete: an empty value or an unknown kind sends nothing and reports
   * nothing; otherwise the leave command of the kind, whose failure is an error.
   */
  function DeleteRun(state: MemberModel, s: Server, n: nat): (r: Removal)
    ensures var (kind, value) := DeleteTarget(state);
      && (value == "" || kind.None? <==> r == Removal([], []))
      && (value != "" && kind.Some? ==>
            r.cmds == [LeaveCmd(kind.value, value)] && (HasError(r.diags) <==> s.fails(n)))
  {
    var (kind, value) := DeleteTarget(state);
    if value == "" then Removal([], [])
    else
      match kind
      case None => Removal([], [])
      case Some(k) =>
        var r := SingleRemoval(LeaveCmd(k, value), s, n, Error("Client Error", LeaveWording(k)));
        assert r.diags != [] ==> r.diags[0].Error?;
        r
  }

  const ImportFormat: Diag := Error("Import Error", "Expected ID in format `team|kind|value` (e.g., `blue|player|Steve`).")
  const ImportKind: Diag := Error("Import Error", "kind must be one of `player`, `selector`, or `entity`.")

  /**
   * Import: the ID must split into three parts whose second names one of
   * the three kinds. The ID is kept as it is, the first part is the team and
   * the third is the value of the field the kind names; nothing else is set.
   */
  function ImportState(reqId: string): (r: Response<MemberModel>)
    ensures var parts := SplitN3(reqId, '|');
      && (|parts| != 3 ==> r == Response(None, [ImportFormat]))
      && (|parts| == 3 && ParseKind(parts[1]).None? ==> r == Response(None, [ImportKind]))
      && (|parts| == 3 && ParseKind(parts[1]).Some? ==>
            r == Response(Some(WithField(MemberModel(Known(reqId), Known(parts[0]), Null, Null, Null),
                                         ParseKind(parts[1]).value, parts[2])), []))
      && (r.state.None? <==> HasError(r.diags))
  {
    var parts := SplitN3(reqId, '|');
    if |parts| != 3 then
      var r := Response(None, [ImportFormat]);
      assert r.diags[0].Error?;
      r
    else
      match ParseKind(parts[1])
      case None =>
        var r := Response(None, [ImportKind]);
        assert r.diags[0].Error?;
        r
      case Some(k) => Response(Some(WithField(MemberModel(Known(reqId), Known(parts[0]), Null, Null, Null), k, parts[2])), [])
  }

  /** When exactly one target is set, it is the one picked. */
  lemma PickIsTheOnlyTarget(d: MemberModel, k: Kind)
    requires Target(Field(d, k)).Some?
    requires forall j :: j != k ==> Target(Field(d, j)).None?
    ensures PickTarget(d) == Some((k, Target(Field(d, k)).value))
  {
    assert Target(Field(d, Player)) == Target(d.player);
    assert Target(Field(d, Selector)) == Target(d.selector);
    assert Target(Field(d, Entity)) == Target(d.entityId);
  }

  /** A validated plan picks its validated target, whose value is already trimmed and not blank. */
  lemma PickOfValid(d: MemberModel)
    requires Validation(d).Ok?
    ensures var m := Validation(d).value;
      PickTarget(d) == Some((m.kind, m.value)) && TrimSpace(m.value) == m.value && m.value != ""
  {
    var m := Validation(d).value;
    ValidationExactlyOne(d);
    PickIsTheOnlyTarget(d, m.kind);
    TrimSpaceIdempotent(ValueString(Field(d, m.kind)));
  }

  /** A state whose one target is a trimmed, non-blank v of kind k picks that target. */
  lemma PickOfSingleTarget(id: string, team: string, k: Kind, v: string)
    requires TrimSpace(v) == v && v != ""
    ensures PickTarget(WithField(MemberModel(Known(id), Known(team), Null, Null, Null), k, v)) == Some((k, v))
  {
    var st := WithField(MemberModel(Known(id), Known(team), Null, Null, Null), k, v);
    assert Target(Field(st, k)) == Some(v);
    assert forall j :: j != k ==> Target(Field(st, j)).None?;
    PickIsTheOnlyTarget(st, k);
  }

  /**
   * Importing the ID Create wrote, when the team contains no `|`, restores
   * the ID and the team and puts the value, even one containing `|`, in
   * the field of the kind, with the other two targets unset; the kind and
   * value are then the target picked from the imported state.
   *
   * The condition on the team is needed: the ID is split at its first two
   * `|`, so a team containing one comes back cut short (see
   * BarInTeamSplitsEarly). A Minecraft server accepts only the characters
   * 0-9, A-Z, a-z, `_`, `-`, `.` and `+` in a team name, so such a team
   * cannot have been created on a real server; the model's server is
   * arbitrary and does not rule it out.
   */
  lemma CreateThenImport(plan: MemberModel, s: Server, n: nat)
    requires Persisted(Outcome(CreateRun(plan, s, n))).Some?
    requires '|' !in Validation(plan).value.team
    ensures var m := Validation(plan).value;
      var imported := ImportState(ValueString(CreateRun(plan, s, n).state.value.id));
      && Persisted(imported) == Some(WithField(MemberModel(Known(MemberId(m)), Known(m.team), Null, Null, Null), m.kind, m.value))
      && PickTarget(imported.state.value) == Some((m.kind, m.value))
  {
    var m := Validation(plan).value;
    SplitMemberId(m);
    KindWordParses(m.kind);
    PickOfValid(plan);
    PickOfSingleTarget(MemberId(m), m.team, m.kind, m.value);
  }

  /**
   * The ID of team `a|player` with player `x` is `a|player|player|x`, and
   * importing it yields team `a` with player `player|x`: not the membership
   * the ID was written for.
   */
  lemma BarInTeamSplitsEarly()
    ensures MemberId(Membership("a|player", Player, "x")) == "a|player|player|x"
    ensures Persisted(ImportState("a|player|player|x")) ==
      Some(MemberModel(Known("a|player|player|x"), Known("a"), Known("player|x"), Null, Null))
  {
    var id := "a|player|player|x";
    assert MemberId(Membership("a|player", Player, "x")) == id by {
      assert KindWord(Player) == "player";
      assert "a|player" + "|" + "player" + "|" + "x" == id;
    }
    assert "a" + ['|'] + "player" + ['|'] + "player|x" == id;
    SplitN3OfJoin("a", "player", "player|x", '|');
    assert ParseKind("player") == Some(Player);
  }

  /** Delete of a created membership leaves with the kind and value Create joined. */
  lemma CreateThenDeleteLeaves(plan: MemberModel, s: Server, n: nat, s': Server, n': nat)
    requires Persisted(Outcome(CreateRun(plan, s, n))).Some?
    ensures var m := Validation(plan).value;
      DeleteRun(CreateRun(plan, s, n).state.value, s', n').cmds == [LeaveCmd(m.kind, m.value)]
  {
    var created := CreateRun(plan, s, n).state.value;
    PickOfValid(plan);
    assert PickTarget(created) == PickTarget(plan);
  }

  /**
   * Delete of an imported membership whose value is already trimmed and
   * not blank leaves with the kind and value the ID names.
   */
  lemma ImportThenDeleteLeaves(reqId: string, s: Server, n: nat)
    requires Persisted(ImportState(reqId)).Some?
    requires var v := SplitN3(reqId, '|')[2]; TrimSpace(v) == v && v != ""
    ensures var parts := SplitN3(reqId, '|');
      DeleteRun(ImportState(reqId).state.value, s, n).cmds == [LeaveCmd(ParseKind(parts[1]).value, parts[2])]
  {
    var parts := SplitN3(reqId, '|');
    PickOfSingleTarget(reqId, parts[0], ParseKind(parts[1]).value, parts[2]);
  }

  method Create(client: Transport?, plan: MemberModel) returns (state: Option<MemberModel>, diags: seq<Diag>)
    modifies client
    ensures client == null ==> state == None && diags == [NotConfigured]
    ensures client != null ==>
      var r := CreateRun(plan, client.server, |old(client.log)|);
      client.log == old(client.log) + r.cmds && state == r.state && diags == r.diags
  {
    if client == null {
      return None, [NotConfigured];
    }
    var team, kind, value, err := ValidateTeamMemberCreate(plan);
    if err.Some? {
      return None, [Error("Validation Error", err.value)];
    }
    var failed := client.Call(JoinCmd(kind, team, value));
    if failed {
      return None, [Error("Client Error", JoinWording(kind))];
    }
    state, diags := Some(plan.(id := Known(team + "|" + KindWord(kind) + "|" + value))), [];
  }

  method Delete(client: Transport?, state: MemberModel) returns (diags: seq<Diag>)
    modifies client
    ensures client == null ==> diags == [NotConfigured]
    ensures client != null ==>
      var r := DeleteRun(state, client.server, |old(client.log)|);
      client.log == old(client.log) + r.cmds && diags == r.diags
  {
    if client == null {
      return [NotConfigured];
    }
    var kind: Option<Kind>, value := None, "";
    var picked := PickTarget(state);
    if picked.Some? {
      kind, value := Some(picked.value.0), picked.value.1;
    } else {
      var parsed := ParseId(ValueString(state.id));
      kind, value := ParseKind(parsed.0), parsed.1;
    }
    if value == "" {
      return [];
    }
    if kind.None? {
      return [];
    }
    var failed := client.Call(LeaveCmd(kind.value, value));
    diags := if failed then [Error("Client Error", LeaveWording(kind.value))] else [];
  }
}
