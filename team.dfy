/**
 * minecraft_team: a scoreboard team, created with a display name and then
 * given its optional settings one command at a time.
 */
module TeamResource {
  import opened Wrappers
  import opened Strings
  import opened Framework
  import opened Remote

  datatype TeamModel = TeamModel(
    id: Attr<string>, name: Attr<string>, displayName: Attr<string>, color: Attr<string>,
    friendlyFire: Attr<bool>, seeFriendlyInvisibles: Attr<bool>,
    nametagVisibility: Attr<string>, collisionRule: Attr<string>)

  const NameError: Diag := Error("Validation Error", "Attribute `name` cannot be empty or whitespace.")

  /** The trimmed team name; "" means the plan names no team. */
  function TeamName(d: TeamModel): string {
    TrimSpace(ValueString(d.name))
  }

  /** A text option is sent only when it is known and not blank. */
  predicate TextSet(a: Attr<string>) {
    a.Known? && TrimSpace(a.v) != ""
  }

  /** The display name sent: the trimmed `display_name` when it is set, otherwise the team name. */
  function Display(d: TeamModel, name: string): string {
    if TextSet(d.displayName) then TrimSpace(d.displayName.v) else name
  }

  /**
   * stringValuesEqual: two nulls are equal, an unknown value equals
   * nothing, and otherwise the texts are compared, so null equals "".
   */
  predicate StringValuesEqual(a: Attr<string>, b: Attr<string>) {
    if a.Null? && b.Null? then true
    else if a.Unknown? || b.Unknown? then false
    else ValueString(a) == ValueString(b)
  }

  /** StringValuesEqual is an equivalence on values that are not unknown, and a null matches the empty text. */
  lemma StringValuesEqualProperties(a: Attr<string>, b: Attr<string>, c: Attr<string>)
    ensures !a.Unknown? ==> StringValuesEqual(a, a)
    ensures StringValuesEqual(a, b) == StringValuesEqual(b, a)
    ensures StringValuesEqual(a, b) && StringValuesEqual(b, c) ==> StringValuesEqual(a, c)
    ensures StringValuesEqual(Null, Known("")) && !StringValuesEqual(a, Unknown)
    ensures StringValuesEqual(a, b) <==> (a.Null? && b.Null?) || (!a.Unknown? && !b.Unknown? && ValueString(a) == ValueString(b))
  {
  }

  /** The position of an option in the fixed order in which applyTeamOptions sends them. */
  function OptionRank(c: Cmd): int {
    match c
    case SetTeamColor(_, _) => 0
    case SetTeamFriendlyFire(_, _) => 1
    case SetTeamSeeFriendlyInvisibles(_, _) => 2
    case SetTeamNametagVisibility(_, _) => 3
    case SetTeamCollisionRule(_, _) => 4
    case _ => -1
  }

  /** The error an option's failure reports. */
  function OptionWording(c: Cmd): string {
    match c
    case SetTeamColor(_, _) => "unable to set color"
    case SetTeamFriendlyFire(_, _) => "unable to set friendlyFire"
    case SetTeamSeeFriendlyInvisibles(_, _) => "unable to set seeFriendlyInvisibles"
    case SetTeamNametagVisibility(_, _) => "unable to set nametagVisibility"
    case SetTeamCollisionRule(_, _) => "unable to set collisionRule"
    case _ => ""
  }

  /** The team an option command addresses. */
  function OptionTeam(c: Cmd): string {
    match c
    case SetTeamColor(t, _) => t
    case SetTeamFriendlyFire(t, _) => t
    case SetTeamSeeFriendlyInvisibles(t, _) => t
    case SetTeamNametagVisibility(t, _) => t
    case SetTeamCollisionRule(t, _) => t
    case _ => ""
  }

  /** The steps keep the option order, each option at most once. */
  predicate Ordered(steps: seq<Step>) {
    forall i, j :: 0 <= i < j < |steps| ==> OptionRank(steps[i].cmd) < OptionRank(steps[j].cmd)
  }

  /** Every step is an option addressed to the team, failing with that option's wording. */
  predicate Addressed(steps: seq<Step>, name: string) {
    forall i :: 0 <= i < |steps| ==>
      OptionRank(steps[i].cmd) >= 0 && OptionTeam(steps[i].cmd) == name && steps[i].wording == OptionWording(steps[i].cmd)
  }

  predicate Above(steps: seq<Step>, k: int) {
    forall i :: 0 <= i < |steps| ==> OptionRank(steps[i].cmd) >= k
  }

  /** A step of rank k, or none. */
  predicate Piece(p: seq<Step>, k: int, name: string) {
    && Ranked(p, k)
    && (|p| == 1 ==> OptionTeam(p[0].cmd) == name && p[0].wording == OptionWording(p[0].cmd))
  }

  predicate Ranked(p: seq<Step>, k: int) {
    |p| <= 1 && (|p| == 1 ==> OptionRank(p[0].cmd) == k)
  }

  /** The step of option command c when its option is set, failing with the option's wording. */
  function OptionStep(on: bool, c: Cmd): (p: seq<Step>)
    ensures Piece(p, OptionRank(c), OptionTeam(c))
    ensures on <==> Sends(p, c)
  {
    if on then
      var p := [Step(c, OptionWording(c))];
      assert p[0].cmd == c;
      p
    else []
  }

  function ColorStep(name: string, d: TeamModel): (p: seq<Step>)
    ensures Piece(p, 0, name)
  {
    OptionStep(TextSet(d.color), SetTeamColor(name, ToLower(ValueString(d.color))))
  }

  function FriendlyFireStep(name: string, d: TeamModel): (p: seq<Step>)
    ensures Piece(p, 1, name)
  {
    OptionStep(d.friendlyFire.Known?, SetTeamFriendlyFire(name, ValueBool(d.friendlyFire)))
  }

  function SeeInvisiblesStep(name: string, d: TeamModel): (p: seq<Step>)
    ensures Piece(p, 2, name)
  {
    OptionStep(d.seeFriendlyInvisibles.Known?, SetTeamSeeFriendlyInvisibles(name, ValueBool(d.seeFriendlyInvisibles)))
  }

  function NametagStep(name: string, d: TeamModel): (p: seq<Step>)
    ensures Piece(p, 3, name)
  {
    OptionStep(TextSet(d.nametagVisibility), SetTeamNametagVisibility(name, ValueString(d.nametagVisibility)))
  }

  function CollisionStep(name: string, d: TeamModel): (p: seq<Step>)
    ensures Piece(p, 4, name)
  {
    OptionStep(TextSet(d.collisionRule), SetTeamCollisionRule(name, ValueString(d.collisionRule)))
  }

  /** Some step sends c. */
  predicate Sends(steps: seq<Step>, c: Cmd) {
    exists i :: 0 <= i < |steps| && steps[i].cmd == c
  }

  /** Putting an optional step of rank k in front of steps of higher rank keeps the order. */
  lemma PieceOrdered(p: seq<Step>, rest: seq<Step>, k: int, name: string)
    requires k >= 0 && Piece(p, k, name)
    requires Ordered(rest) && Addressed(rest, name) && Above(rest, k + 1)
    ensures Ordered(p + rest) && Addressed(p + rest, name) && Above(p + rest, k)
  {
    var all := p + rest;
    assert forall i :: |p| <= i < |all| ==> all[i] == rest[i - |p|];
  }

  /** In front of steps of higher rank, a command of rank k is sent only by the optional step. */
  lemma PieceSends(p: seq<Step>, rest: seq<Step>, k: int, c: Cmd)
    requires Ranked(p, k) && Above(rest, k + 1) && OptionRank(c) >= k
    ensures Sends(p + rest, c) <==> Sends(p, c) || Sends(rest, c)
    ensures OptionRank(c) == k ==> !Sends(rest, c)
  {
    var all := p + rest;
    if Sends(all, c) {
      var i :| 0 <= i < |all| && all[i].cmd == c;
      if i >= |p| {
        assert rest[i - |p|].cmd == c;
      }
    }
    if Sends(rest, c) {
      var i :| 0 <= i < |rest| && rest[i].cmd == c;
      assert all[i + |p|].cmd == c;
    }
    if Sends(p, c) {
      assert all[0].cmd == c;
    }
  }

  /** Five optional steps of ranks 0 to 4, in rank order, are ordered. */
  lemma Chain(p0: seq<Step>, p1: seq<Step>, p2: seq<Step>, p3: seq<Step>, p4: seq<Step>, name: string)
    requires Piece(p0, 0, name) && Piece(p1, 1, name) && Piece(p2, 2, name) && Piece(p3, 3, name) && Piece(p4, 4, name)
    ensures Ordered(p0 + (p1 + (p2 + (p3 + p4))))
    ensures Addressed(p0 + (p1 + (p2 + (p3 + p4))), name)
  {
    PieceOrdered(p4, [], 4, name);
    assert p4 + [] == p4;
    PieceOrdered(p3, p4, 3, name);
    PieceOrdered(p2, p3 + p4, 2, name);
    PieceOrdered(p1, p2 + (p3 + p4), 1, name);
    PieceOrdered(p0, p1 + (p2 + (p3 + p4)), 0, name);
  }

  /** An optional step of rank k in front of steps of higher rank: all have rank k or more. */
  lemma PieceAbove(p: seq<Step>, rest: seq<Step>, k: int)
    requires Ranked(p, k) && Above(rest, k + 1)
    ensures Above(p + rest, k)
  {
    var all := p + rest;
    assert forall i :: |p| <= i < |all| ==> all[i] == rest[i - |p|];
  }

  /** Among such steps, a command of rank k is sent exactly when the step of rank k sends it. */
  lemma ChainSends(p0: seq<Step>, p1: seq<Step>, p2: seq<Step>, p3: seq<Step>, p4: seq<Step>, c: Cmd)
    requires Ranked(p0, 0) && Ranked(p1, 1) && Ranked(p2, 2) && Ranked(p3, 3) && Ranked(p4, 4)
    requires 0 <= OptionRank(c) <= 4
    ensures OptionRank(c) == 0 ==> (Sends(p0 + (p1 + (p2 + (p3 + p4))), c) <==> Sends(p0, c))
    ensures OptionRank(c) == 1 ==> (Sends(p0 + (p1 + (p2 + (p3 + p4))), c) <==> Sends(p1, c))
    ensures OptionRank(c) == 2 ==> (Sends(p0 + (p1 + (p2 + (p3 + p4))), c) <==> Sends(p2, c))
    ensures OptionRank(c) == 3 ==> (Sends(p0 + (p1 + (p2 + (p3 + p4))), c) <==> Sends(p3, c))
    ensures OptionRank(c) == 4 ==> (Sends(p0 + (p1 + (p2 + (p3 + p4))), c) <==> Sends(p4, c))
  {
    var s1 := p1 + (p2 + (p3 + p4));
    Tail4(p1, p2, p3, p4, c);
    PieceSends(p0, s1, 0, c);
  }

  lemma Tail4(p1: seq<Step>, p2: seq<Step>, p3: seq<Step>, p4: seq<Step>, c: Cmd)
    requires Ranked(p1, 1) && Ranked(p2, 2) && Ranked(p3, 3) && Ranked(p4, 4)
    requires 0 <= OptionRank(c) <= 4
    ensures Above(p1 + (p2 + (p3 + p4)), 1)
    ensures OptionRank(c) == 1 ==> (Sends(p1 + (p2 + (p3 + p4)), c) <==> Sends(p1, c))
    ensures OptionRank(c) == 2 ==> (Sends(p1 + (p2 + (p3 + p4)), c) <==> Sends(p2, c))
    ensures OptionRank(c) == 3 ==> (Sends(p1 + (p2 + (p3 + p4)), c) <==> Sends(p3, c))
    ensures OptionRank(c) == 4 ==> (Sends(p1 + (p2 + (p3 + p4)), c) <==> Sends(p4, c))
  {
    Tail3(p2, p3, p4, c);
    PieceAbove(p1, p2 + (p3 + p4), 1);
    if OptionRank(c) >= 1 {
      PieceSends(p1, p2 + (p3 + p4), 1, c);
    }
  }

  lemma Tail3(p2: seq<Step>, p3: seq<Step>, p4: seq<Step>, c: Cmd)
    requires Ranked(p2, 2) && Ranked(p3, 3) && Ranked(p4, 4)
    requires 0 <= OptionRank(c) <= 4
    ensures Above(p2 + (p3 + p4), 2)
    ensures OptionRank(c) == 2 ==> (Sends(p2 + (p3 + p4), c) <==> Sends(p2, c))
    ensures OptionRank(c) == 3 ==> (Sends(p2 + (p3 + p4), c) <==> Sends(p3, c))
    ensures OptionRank(c) == 4 ==> (Sends(p2 + (p3 + p4), c) <==> Sends(p4, c))
  {
    Tail2(p3, p4, c);
    PieceAbove(p2, p3 + p4, 2);
    if OptionRank(c) >= 2 {
      PieceSends(p2, p3 + p4, 2, c);
    }
  }

  lemma Tail2(p3: seq<Step>, p4: seq<Step>, c: Cmd)
    requires Ranked(p3, 3) && Ranked(p4, 4)
    requires 0 <= OptionRank(c) <= 4
    ensures Above(p3 + p4, 3)
    ensures OptionRank(c) == 3 ==> (Sends(p3 + p4, c) <==> Sends(p3, c))
    ensures OptionRank(c) == 4 ==> (Sends(p3 + p4, c) <==> Sends(p4, c))
  {
    PieceAbove(p4, [], 4);
    assert p4 + [] == p4;
    PieceAbove(p3, p4, 3);
    if OptionRank(c) >= 3 {
      PieceSends(p3, p4, 3, c);
    }
  }

  /** The optional step of the option of rank k. */
  function OptionAt(name: string, d: TeamModel, k: nat): seq<Step>
    requires k < 5
  {
    if k == 0 then ColorStep(name, d)
    else if k == 1 then FriendlyFireStep(name, d)
    else if k == 2 then SeeInvisiblesStep(name, d)
    else if k == 3 then NametagStep(name, d)
    else CollisionStep(name, d)
  }

  /** The optional steps of the options of rank k and above, in rank order. */
  function OptionsFrom(name: string, d: TeamModel, k: nat): seq<Step>
    decreases 5 - k
  {
    if k >= 5 then [] else OptionAt(name, d, k) + OptionsFrom(name, d, k + 1)
  }

  /** applyTeamOptions as the steps it tries, one optional step per option. */
  function OptionSteps(name: string, d: TeamModel): seq<Step> {
    OptionsFrom(name, d, 0)
  }

  /** The option steps are the five optional steps in rank order. */
  lemma OptionStepsPieces(name: string, d: TeamModel)
    ensures OptionSteps(name, d) ==
      ColorStep(name, d) + (FriendlyFireStep(name, d) + (SeeInvisiblesStep(name, d) + (NametagStep(name, d) + CollisionStep(name, d))))
  {
    assert OptionsFrom(name, d, 4) == CollisionStep(name, d) + [];
    assert OptionsFrom(name, d, 3) == NametagStep(name, d) + OptionsFrom(name, d, 4);
    assert OptionsFrom(name, d, 2) == SeeInvisiblesStep(name, d) + OptionsFrom(name, d, 3);
    assert OptionsFrom(name, d, 1) == FriendlyFireStep(name, d) + OptionsFrom(name, d, 2);
    assert OptionsFrom(name, d, 0) == ColorStep(name, d) + OptionsFrom(name, d, 1);
    assert CollisionStep(name, d) + [] == CollisionStep(name, d);
  }

  /**
   * The option steps: the colour (lower-cased), friendly fire, seeing
   * invisible team mates, name-tag visibility and collision rule, each
   * tried exactly when set, always in that order, all addressed to the
   * team, each failing with its own wording.
   */
  lemma OptionStepsShape(name: string, d: TeamModel)
    ensures Ordered(OptionSteps(name, d)) && Addressed(OptionSteps(name, d), name)
    ensures TextSet(d.color) <==> Sends(OptionSteps(name, d), SetTeamColor(name, ToLower(ValueString(d.color))))
    ensures d.friendlyFire.Known? <==> Sends(OptionSteps(name, d), SetTeamFriendlyFire(name, ValueBool(d.friendlyFire)))
    ensures d.seeFriendlyInvisibles.Known? <==>
      Sends(OptionSteps(name, d), SetTeamSeeFriendlyInvisibles(name, ValueBool(d.seeFriendlyInvisibles)))
    ensures TextSet(d.nametagVisibility) <==>
      Sends(OptionSteps(name, d), SetTeamNametagVisibility(name, ValueString(d.nametagVisibility)))
    ensures TextSet(d.collisionRule) <==> Sends(OptionSteps(name, d), SetTeamCollisionRule(name, ValueString(d.collisionRule)))
  {
    var p0, p1, p2, p3, p4 := ColorStep(name, d), FriendlyFireStep(name, d), SeeInvisiblesStep(name, d),
                              NametagStep(name, d), CollisionStep(name, d);
    OptionStepsPieces(name, d);
    Chain(p0, p1, p2, p3, p4, name);
    ChainSends(p0, p1, p2, p3, p4, SetTeamColor(name, ToLower(ValueString(d.color))));
    ChainSends(p0, p1, p2, p3, p4, SetTeamFriendlyFire(name, ValueBool(d.friendlyFire)));
    ChainSends(p0, p1, p2, p3, p4, SetTeamSeeFriendlyInvisibles(name, ValueBool(d.seeFriendlyInvisibles)));
    ChainSends(p0, p1, p2, p3, p4, SetTeamNametagVisibility(name, ValueString(d.nametagVisibility)));
    ChainSends(p0, p1, p2, p3, p4, SetTeamCollisionRule(name, ValueString(d.collisionRule)));
  }

  /** What Create tries for a team of the given name: CreateTeam, then the options. */
  function CreateSteps(plan: TeamModel, name: string): seq<Step> {
    [Step(CreateTeam(name, Display(plan, name)), "Unable to create team")] + OptionSteps(name, plan)
  }

  /** Create: a blank name sends nothing; otherwise the steps run until the first failure, reported as an error. */
  function CreateRun(plan: TeamModel, s: Server, n: nat): Run<TeamModel> {
    var name := TeamName(plan);
    if name == "" then Run([], None, [NameError])
    else
      var sent := RunSteps(CreateSteps(plan, name), s, n);
      if sent.1.Some? then Run(sent.0, None, [Error("Client Error", sent.1.value)])
      else Run(sent.0, Some(plan.(id := Known(name))), [])
  }

  /** Create of a named team is CreateTeam and then, when that succeeded, applyTeamOptions. */
  lemma CreateRunSplit(plan: TeamModel, s: Server, n: nat)
    requires TeamName(plan) != ""
    ensures var name := TeamName(plan);
      var c := CreateTeam(name, Display(plan, name));
      var opts := RunSteps(OptionSteps(name, plan), s, n + 1);
      CreateRun(plan, s, n) ==
        if s.fails(n) then Run([c], None, [Error("Client Error", "Unable to create team")])
        else if opts.1.Some? then Run([c] + opts.0, None, [Error("Client Error", opts.1.value)])
        else Run([c] + opts.0, Some(plan.(id := Known(name))), [])
  {
    var name := TeamName(plan);
    var steps := CreateSteps(plan, name);
    assert steps == [steps[0]] + OptionSteps(name, plan);
    RunStepsCons(steps[0], OptionSteps(name, plan), s, n);
  }

  /**
   * Create, from log position n: a blank name sends nothing. Otherwise
   * CreateTeam is sent and then the options, stopping at the first
   * failure, which is reported as an error. A failure after CreateTeam
   * leaves the team on the server: no DeleteTeam is sent. The ID is the
   * trimmed name, written only when every command succeeded.
   */
  lemma CreateRunSends(plan: TeamModel, s: Server, n: nat)
    ensures var r := CreateRun(plan, s, n);
      && (TeamName(plan) == "" ==> r == Run([], None, [NameError]))
      && (TeamName(plan) != "" ==>
            var steps := CreateSteps(plan, TeamName(plan));
            && 0 < |r.cmds| <= |steps| && r.cmds == Cmds(steps[..|r.cmds|])
            && r.cmds[0] == CreateTeam(TeamName(plan), Display(plan, TeamName(plan)))
            && (r.state.Some? <==> AllOk(s, n, |steps|))
            && DeleteTeam(TeamName(plan)) !in r.cmds)
      && (r.state.Some? ==> r.state.value == plan.(id := Known(TeamName(plan))) && r.diags == [])
      && (r.state.None? ==> |r.diags| == 1 && r.diags[0].Error?)
  {
    var name := TeamName(plan);
    if name != "" {
      var steps := CreateSteps(plan, name);
      RunStepsSends(steps, s, n);
      OptionStepsShape(name, plan);
      var sent := RunSteps(steps, s, n);
      CompensationFree(steps[0], OptionSteps(name, plan), |sent.0|, name);
      assert sent.0[0] == steps[0].cmd;
    }
  }

  /**
   * A run of steps stops at the first failure: when it keeps a state every
   * step was sent; otherwise the last command sent is the first that
   * failed, every one before it succeeded, and that step's wording is the
   * one error reported.
   */
  predicate StopsAtFirstFailure(r: Run<TeamModel>, steps: seq<Step>, s: Server, n: nat) {
    && (r.state.Some? ==> r.cmds == Cmds(steps))
    && (r.state.None? ==>
          && 0 < |r.cmds| <= |steps| && AllOk(s, n, |r.cmds| - 1) && s.fails(n + |r.cmds| - 1)
          && r.diags == [Error("Client Error", steps[|r.cmds| - 1].wording)])
  }

  /** A run built from RunSteps, keeping `ok` when no step failed, stops at the first failure. */
  lemma StepsOutcome(steps: seq<Step>, s: Server, n: nat, sent: (seq<Cmd>, Option<string>), r: Run<TeamModel>, ok: TeamModel)
    requires sent == RunSteps(steps, s, n)
    requires r == if sent.1.Some? then Run(sent.0, None, [Error("Client Error", sent.1.value)]) else Run(sent.0, Some(ok), [])
    ensures StopsAtFirstFailure(r, steps, s, n)
  {
    RunStepsSends(steps, s, n);
    assert steps[..|steps|] == steps;
  }

  /**
   * Create of a named team sends every step when it succeeds; when it
   * fails, the commands stop at the first step that failed, and that
   * step's wording is the one error reported.
   */
  lemma CreateRunStops(plan: TeamModel, s: Server, n: nat)
    requires TeamName(plan) != ""
    ensures StopsAtFirstFailure(CreateRun(plan, s, n), CreateSteps(plan, TeamName(plan)), s, n)
  {
    var name := TeamName(plan);
    var steps := CreateSteps(plan, name);
    var sent := RunSteps(steps, s, n);
    StepsOutcome(steps, s, n, sent, CreateRun(plan, s, n), plan.(id := Known(name)));
  }

  /** No prefix of CreateTeam followed by option steps contains a DeleteTeam. */
  lemma CompensationFree(first: Step, opts: seq<Step>, k: nat, name: string)
    requires first.cmd.CreateTeam? && Addressed(opts, name) && k <= 1 + |opts|
    ensures DeleteTeam(name) !in Cmds(([first] + opts)[..k])
  {
    var cmds := Cmds(([first] + opts)[..k]);
    forall i | 0 <= i < k
      ensures cmds[i] != DeleteTeam(name)
    {
      if i > 0 {
        assert cmds[i] == opts[i - 1].cmd;
      }
    }
  }

  /** The display-name step Update sends first when the planned display name differs from the stored one. */
  function DisplayStep(name: string, plan: TeamModel, state: TeamModel): seq<Step> {
    if !StringValuesEqual(plan.displayName, state.displayName) then
      [Step(SetTeamDisplayName(name, Display(plan, name)), "Unable to set displayName")]
    else []
  }

  /** What Update tries: the display name when it changed, then the options. */
  function UpdateSteps(plan: TeamModel, state: TeamModel, name: string): seq<Step> {
    DisplayStep(name, plan, state) + OptionSteps(name, plan)
  }

  /** The state Update writes for a named team. */
  function Updated(plan: TeamModel, name: string): TeamModel {
    plan.(id := if plan.id.Known? then plan.id else Known(name))
  }

  /** What applyTeamOptions leads to after `first` was sent: the options' commands, and their error or `ok`. */
  function OptionsRun(first: seq<Cmd>, name: string, plan: TeamModel, s: Server, n: nat, ok: TeamModel): Run<TeamModel> {
    var opts := RunSteps(OptionSteps(name, plan), s, n);
    if opts.1.Some? then Run(first + opts.0, None, [Error("Client Error", opts.1.value)])
    else Run(first + opts.0, Some(ok), [])
  }

  /**
   * Update: a blank name sends nothing. Otherwise a changed display name is
   * sent first, and its failure ends the update; then applyTeamOptions runs.
   */
  function UpdateRun(plan: TeamModel, state: TeamModel, s: Server, n: nat): Run<TeamModel> {
    var name := TeamName(plan);
    if name == "" then Run([], None, [NameError])
    else if !StringValuesEqual(plan.displayName, state.displayName) then
      var c := SetTeamDisplayName(name, Display(plan, name));
      if s.fails(n) then Run([c], None, [Error("Client Error", "Unable to set displayName")])
      else OptionsRun([c], name, plan, s, n + 1, Updated(plan, name))
    else OptionsRun([], name, plan, s, n, Updated(plan, name))
  }

  /**
   * Update of a named team is one run of its steps (the display name when it
   * changed, then the options) until the first failure, which is reported.
   */
  lemma UpdateRunIsSteps(plan: TeamModel, state: TeamModel, s: Server, n: nat)
    requires TeamName(plan) != ""
    ensures var sent := RunSteps(UpdateSteps(plan, state, TeamName(plan)), s, n);
      UpdateRun(plan, state, s, n) ==
        if sent.1.Some? then Run(sent.0, None, [Error("Client Error", sent.1.value)])
        else Run(sent.0, Some(Updated(plan, TeamName(plan))), [])
  {
    var name := TeamName(plan);
    var steps := UpdateSteps(plan, state, name);
    if !StringValuesEqual(plan.displayName, state.displayName) {
      assert steps == [steps[0]] + OptionSteps(name, plan);
      RunStepsCons(steps[0], OptionSteps(name, plan), s, n);
    } else {
      assert steps == OptionSteps(name, plan);
      assert [] + RunSteps(steps, s, n).0 == RunSteps(steps, s, n).0;
    }
  }

  /** No option step sets the display name. */
  lemma OptionStepsNoDisplay(name: string, d: TeamModel)
    ensures forall i :: 0 <= i < |OptionSteps(name, d)| ==> !OptionSteps(name, d)[i].cmd.SetTeamDisplayName?
  {
    OptionStepsShape(name, d);
    forall i | 0 <= i < |OptionSteps(name, d)| ensures !OptionSteps(name, d)[i].cmd.SetTeamDisplayName? {
      assert OptionRank(OptionSteps(name, d)[i].cmd) >= 0;
    }
  }

  /**
   * Update: a blank name sends nothing. Otherwise the display name is sent
   * first, exactly when it changed, and then the options are all sent
   * again, stopping at the first failure. The plan is written, with the
   * trimmed name as ID only when the plan has no ID yet.
   */
  lemma UpdateRunSends(plan: TeamModel, state: TeamModel, s: Server, n: nat)
    ensures var r := UpdateRun(plan, state, s, n);
      && (TeamName(plan) == "" ==> r == Run([], None, [NameError]))
      && (TeamName(plan) != "" ==>
            var steps := UpdateSteps(plan, state, TeamName(plan));
            && |r.cmds| <= |steps| && r.cmds == Cmds(steps[..|r.cmds|])
            && (r.state.Some? <==> AllOk(s, n, |steps|))
            && (!StringValuesEqual(plan.displayName, state.displayName) <==>
                  0 < |r.cmds| && r.cmds[0] == SetTeamDisplayName(TeamName(plan), Display(plan, TeamName(plan)))))
      && (r.state.Some? ==>
            r.diags == [] && r.state.value == plan.(id := if plan.id.Known? then plan.id else Known(TeamName(plan))))
      && (r.state.None? ==> |r.diags| == 1 && r.diags[0].Error?)
  {
    var name := TeamName(plan);
    if name != "" {
      var steps := UpdateSteps(plan, state, name);
      UpdateRunIsSteps(plan, state, s, n);
      RunStepsSends(steps, s, n);
      var sent := RunSteps(steps, s, n);
      if 0 < |sent.0| {
        assert sent.0[0] == steps[0].cmd;
        if DisplayStep(name, plan, state) == [] {
          OptionStepsNoDisplay(name, plan);
          assert steps[0] == OptionSteps(name, plan)[0];
        }
      }
    }
  }

  /**
   * Update of a named team re-sends every step when it succeeds; when it
   * fails, the commands stop at the first step that failed, and that
   * step's wording is the one error reported.
   */
  lemma UpdateRunStops(plan: TeamModel, state: TeamModel, s: Server, n: nat)
    requires TeamName(plan) != ""
    ensures StopsAtFirstFailure(UpdateRun(plan, state, s, n), UpdateSteps(plan, state, TeamName(plan)), s, n)
  {
    var name := TeamName(plan);
    var steps := UpdateSteps(plan, state, name);
    var sent := RunSteps(steps, s, n);
    var r := UpdateRun(plan, state, s, n);
    assert r == if sent.1.Some? then Run(sent.0, None, [Error("Client Error", sent.1.value)]) else Run(sent.0, Some(Updated(plan, name)), []) by {
      UpdateRunIsSteps(plan, state, s, n);
    }
    StepsOutcome(steps, s, n, sent, r, Updated(plan, name));
  }

  /** The name Delete uses: the trimmed name, or else the trimmed ID. */
  function DeleteName(state: TeamModel): string {
    if TeamName(state) != "" then TeamName(state) else TrimSpace(ValueString(state.id))
  }

  /** Delete removes the team known by name or ID; without either it is an error and sends nothing. */
  function DeleteRun(state: TeamModel, s: Server, n: nat): (r: Removal)
    ensures DeleteName(state) == "" <==> r.cmds == []
    ensures DeleteName(state) == "" ==> r.diags == [Error("Validation Error", "Missing team name for delete.")]
    ensures DeleteName(state) != "" ==>
      r.cmds == [DeleteTeam(DeleteName(state))] && (HasError(r.diags) <==> s.fails(n))
  {
    var name := DeleteName(state);
    if name == "" then Removal([], [Error("Validation Error", "Missing team name for delete.")])
    else
      var r := SingleRemoval(DeleteTeam(name), s, n, Error("Client Error", "Unable to delete team"));
      assert r.diags != [] ==> r.diags[0].Error?;
      r
  }

  /** Import sets `id` and `name` to the trimmed ID; a blank ID is an error. */
  function ImportState(reqId: string): (r: Response<TeamModel>)
    ensures Persisted(r).Some? <==> TrimSpace(reqId) != ""
    ensures Persisted(r).Some? ==>
      r.state.value == TeamModel(Known(TrimSpace(reqId)), Known(TrimSpace(reqId)), Null, Null, Null, Null, Null, Null)
    ensures r.state.None? ==> r.diags == [Error("Import Error", "Expected non-empty team name as import ID.")]
  {
    var name := TrimSpace(reqId);
    if name == "" then
      var r := Response(None, [Error("Import Error", "Expected non-empty team name as import ID.")]);
      assert r.diags[0].Error?;
      r
    else Response(Some(TeamModel(Known(name), Known(name), Null, Null, Null, Null, Null, Null)), [])
  }

  /** Delete removes the team Create made. */
  lemma DeleteRemovesCreated(plan: TeamModel, s: Server, n: nat, s': Server, n': nat)
    requires CreateRun(plan, s, n).state.Some?
    ensures var made := CreateRun(plan, s, n).cmds[0];
      made.CreateTeam? && DeleteRun(CreateRun(plan, s, n).state.value, s', n').cmds == [DeleteTeam(made.team)]
  {
    CreateRunSends(plan, s, n);
    var created := CreateRun(plan, s, n).state.value;
    assert TeamName(created) == TeamName(plan);
  }

  /** An imported team is deleted under the name it was imported by. */
  lemma ImportThenDelete(reqId: string, s: Server, n: nat)
    requires Persisted(ImportState(reqId)).Some?
    ensures DeleteRun(ImportState(reqId).state.value, s, n).cmds == [DeleteTeam(TrimSpace(reqId))]
  {
    TrimSpaceIdempotent(reqId);
  }

  /**
   * applyTeamOptions: the commands of the options that are set (colour,
   * friendly fire, seeing invisible team mates, name-tag visibility,
   * collision rule), issued in that order until the first failure, whose
   * wording is returned.
   */
  method ApplyTeamOptions(client: Transport, name: string, d: TeamModel) returns (err: Option<string>)
    modifies client
    ensures var r := RunSteps(OptionSteps(name, d), client.server, |old(client.log)|);
      client.log == old(client.log) + r.0 && err == r.1
  {
    err := IssueSteps(client, OptionSteps(name, d));
  }

  method Create(client: Transport?, plan: TeamModel) returns (state: Option<TeamModel>, diags: seq<Diag>)
    modifies client
    ensures client == null ==> state == None && diags == [NotConfigured]
    ensures client != null ==>
      var r := CreateRun(plan, client.server, |old(client.log)|);
      client.log == old(client.log) + r.cmds && state == r.state && diags == r.diags
  {
    if client == null {
      return None, [NotConfigured];
    }
    var name := TeamName(plan);
    if name == "" {
      return None, [NameError];
    }
    ghost var n0 := |client.log|;
    CreateRunSplit(plan, client.server, n0);
    var failed := client.Call(CreateTeam(name, Display(plan, name)));
    if failed {
      return None, [Error("Client Error", "Unable to create team")];
    }
    var err := ApplyTeamOptions(client, name, plan);
    AppendAssoc(old(client.log), [CreateTeam(name, Display(plan, name))], RunSteps(OptionSteps(name, plan), client.server, n0 + 1).0);
    if err.Some? {
      return None, [Error("Client Error", err.value)];
    }
    state, diags := Some(plan.(id := Known(name))), [];
  }

  method Update(client: Transport?, plan: TeamModel, prior: TeamModel) returns (state: Option<TeamModel>, diags: seq<Diag>)
    modifies client
    ensures client == null ==> state == None && diags == [NotConfigured]
    ensures client != null ==>
      var r := UpdateRun(plan, prior, client.server, |old(client.log)|);
      client.log == old(client.log) + r.cmds && state == r.state && diags == r.diags
  {
    if client == null {
      return None, [NotConfigured];
    }
    var name := TeamName(plan);
    if name == "" {
      return None, [NameError];
    }
    ghost var n0 := |client.log|;
    if !StringValuesEqual(plan.displayName, prior.displayName) {
      var failed := client.Call(SetTeamDisplayName(name, Display(plan, name)));
      if failed {
        return None, [Error("Client Error", "Unable to set displayName")];
      }
      var err := ApplyTeamOptions(client, name, plan);
      AppendAssoc(old(client.log), [SetTeamDisplayName(name, Display(plan, name))],
                  RunSteps(OptionSteps(name, plan), client.server, n0 + 1).0);
      if err.Some? {
        return None, [Error("Client Error", err.value)];
      }
    } else {
      var err := ApplyTeamOptions(client, name, plan);
      AppendEmpty(RunSteps(OptionSteps(name, plan), client.server, n0).0);
      if err.Some? {
        return None, [Error("Client Error", err.value)];
      }
    }
    var id := plan.id;
    if plan.id.Null? || plan.id.Unknown? {
      id := Known(name);
    }
    state, diags := Some(plan.(id := id)), [];
  }

  method Delete(client: Transport?, state: TeamModel) returns (diags: seq<Diag>)
    modifies client
    ensures client == null ==> diags == [NotConfigured]
    ensures client != null ==>
      var r := DeleteRun(state, client.server, |old(client.log)|);
      client.log == old(client.log) + r.cmds && diags == r.diags
  {
    if client == null {
      return [NotConfigured];
    }
    var name := TrimSpace(ValueString(state.name));
    if name == "" {
      name := TrimSpace(ValueString(state.id));
    }
    if name == "" {
      return [Error("Validation Error", "Missing team name for delete.")];
    }
    var failed := client.Call(DeleteTeam(name));
    diags := if failed then [Error("Client Error", "Unable to delete team")] else [];
  }
}
