/**
 * The game-server client as the resources see it. Every client call is a
 * `Cmd` carrying the arguments the resource passes. A `Transport` records
 * the calls in order. Whether a call fails, and the text a query returns,
 * come from a `Server` oracle indexed by the call's position in the log.
 */
module Remote {
  import opened Wrappers
  import opened Framework

  /** One call of the server client, with the arguments the resource passes. */
  datatype Cmd =
    | CreateBlock(block: string, x: int, y: int, z: int)
    | DeleteBlock(x: int, y: int, z: int)
    | FillBlock(material: string, x1: int, y1: int, z1: int, x2: int, y2: int, z2: int)
    | CreateStairs(material: string, x: int, y: int, z: int, facing: string, half: string, shape: string, waterlogged: bool)
    | CreateEntity(entityType: string, pos: string, tag: string)
    | CreateSheep(pos: string, tag: string, color: string, sheared: bool)
    | CreateZombie(pos: string, tag: string, isBaby: bool, canBreakDoors: bool, canPickUpLoot: bool, persistenceRequired: bool)
    | DeleteEntity(entityType: string, pos: string, tag: string)
    | GetDefaultGameMode
    | SetDefaultGameMode(mode: string)
    | GetUserGameMode(player: string)
    | SetUserGameMode(mode: string, player: string)
    | GetGameRule(rule: string)
    | SetGameRuleInt(rule: string, intValue: int)
    | SetGameRuleBool(rule: string, boolValue: bool)
    | ResetGameRuleToDefault(rule: string)
    | CreateTeam(team: string, display: string)
    | SetTeamDisplayName(team: string, display: string)
    | SetTeamColor(team: string, color: string)
    | SetTeamFriendlyFire(team: string, enabled: bool)
    | SetTeamSeeFriendlyInvisibles(team: string, enabled: bool)
    | SetTeamNametagVisibility(team: string, visibility: string)
    | SetTeamCollisionRule(team: string, rule: string)
    | DeleteTeam(team: string)
    | JoinTeamPlayers(team: string, member: string)
    | JoinTeamTargets(team: string, member: string)
    | JoinTeamEntityByName(team: string, member: string)
    | LeaveTeamPlayers(member: string)
    | LeaveTeamTargets(member: string)
    | LeaveTeamEntityByName(member: string)
    | EnableDayLock
    | DisableDayLock
    | CreateOp(player: string)
    | RemoveOp(player: string)

  /**
   * How the server answers: `fails(i)` says whether the i-th call of the
   * log returns an error, `replies(i)` is the text a query at position i
   * returns when it succeeds.
   */
  datatype Server = Server(fails: nat -> bool, replies: nat -> string)

  /** The k calls from position n on all succeed. */
  predicate AllOk(s: Server, n: nat, k: nat) {
    forall i :: n <= i < n + k ==> !s.fails(i)
  }

  /** The client a resource was configured with: it issues commands and keeps their log. */
  class Transport {
    var log: seq<Cmd>
    const server: Server

    constructor (server: Server)
      ensures log == [] && this.server == server
    {
      log := [];
      this.server := server;
    }

    /** Issues a command; reports whether it failed. */
    method Call(c: Cmd) returns (failed: bool)
      modifies this
      ensures log == old(log) + [c]
      ensures failed == server.fails(|old(log)|)
    {
      failed := server.fails(|log|);
      log := log + [c];
    }

    /** Issues a query; returns its reply, or reports that it failed. */
    method Query(c: Cmd) returns (reply: string, failed: bool)
      modifies this
      ensures log == old(log) + [c]
      ensures failed == server.fails(|old(log)|)
      ensures !failed ==> reply == server.replies(|old(log)|)
    {
      failed := server.fails(|log|);
      reply := if failed then "" else server.replies(|log|);
      log := log + [c];
    }
  }

  /** What one create, update or import sends, and the response it writes. */
  datatype Run<M> = Run(cmds: seq<Cmd>, state: Option<M>, diags: seq<Diag>)

  /** What one delete sends, and the diagnostics it reports. */
  datatype Removal = Removal(cmds: seq<Cmd>, diags: seq<Diag>)

  /** The response part of a run. */
  function Outcome<M>(r: Run<M>): Response<M> {
    Response(r.state, r.diags)
  }

  /**
   * The shape of most operations: one command; when it fails the wording
   * is reported as a client error and nothing is written, otherwise `ok`
   * is written.
   */
  function Single<M>(c: Cmd, s: Server, n: nat, wording: string, ok: M): (r: Run<M>)
    ensures r.cmds == [c]
    ensures r.state == (if s.fails(n) then None else Some(ok))
    ensures r.diags == (if s.fails(n) then [Error("Client Error", wording)] else [])
  {
    if s.fails(n) then Run([c], None, [Error("Client Error", wording)]) else Run([c], Some(ok), [])
  }

  /** A delete of one command; `failure` is what its failure reports. */
  function SingleRemoval(c: Cmd, s: Server, n: nat, failure: Diag): (r: Removal)
    ensures r.cmds == [c]
    ensures r.diags == (if s.fails(n) then [failure] else [])
  {
    Removal([c], if s.fails(n) then [failure] else [])
  }

  /** A command, and the wording of the error reported when it fails. */
  datatype Step = Step(cmd: Cmd, wording: string)

  function Cmds(steps: seq<Step>): (cmds: seq<Cmd>)
    ensures |cmds| == |steps|
    ensures forall i :: 0 <= i < |steps| ==> cmds[i] == steps[i].cmd
  {
    seq(|steps|, i requires 0 <= i < |steps| => steps[i].cmd)
  }

  /** Issues the steps in order from log position n, stopping at the first that fails. */
  function RunSteps(steps: seq<Step>, s: Server, n: nat): (seq<Cmd>, Option<string>)
    decreases |steps|
  {
    if steps == [] then ([], None)
    else if s.fails(n) then ([steps[0].cmd], Some(steps[0].wording))
    else
      var rest := RunSteps(steps[1..], s, n + 1);
      ([steps[0].cmd] + rest.0, rest.1)
  }

  /**
   * The commands RunSteps sends are a prefix of the steps, all but the last
   * of them succeeded, and an error (the failed step's wording) is reported
   * exactly when not all steps were sent and succeeded.
   */
  lemma {:induction false} RunStepsSends(steps: seq<Step>, s: Server, n: nat)
    ensures var r := RunSteps(steps, s, n);
      && |r.0| <= |steps| && r.0 == Cmds(steps[..|r.0|])
      && (r.1.None? <==> |r.0| == |steps| && AllOk(s, n, |steps|))
      && (r.1.Some? ==>
            && |r.0| > 0
            && AllOk(s, n, |r.0| - 1)
            && s.fails(n + |r.0| - 1)
            && r.1.value == steps[|r.0| - 1].wording)
    decreases |steps|
  {
    if steps != [] && !s.fails(n) {
      RunStepsSends(steps[1..], s, n + 1);
      var rest := RunSteps(steps[1..], s, n + 1);
      assert Cmds(steps[..|rest.0| + 1]) == [steps[0].cmd] + Cmds(steps[1..][..|rest.0|]);
      if rest.1.None? {
        assert AllOk(s, n, |steps|) by {
          forall i | n <= i < n + |steps| ensures !s.fails(i) {
            if i > n {
              assert n + 1 <= i < n + 1 + |steps[1..]|;
            }
          }
        }
      } else {
        assert AllOk(s, n, |rest.0|) by {
          forall i | n <= i < n + |rest.0| ensures !s.fails(i) {
            if i > n {
              assert n + 1 <= i < n + 1 + |rest.0| - 1;
            }
          }
        }
      }
    }
  }

  /**
   * Running `all` from n0 has sent `sent` so far and has `t` left to run:
   * the whole run is what was sent followed by the run of `t`.
   */
  predicate Progress(all: seq<Step>, sent: seq<Cmd>, t: seq<Step>, s: Server, n0: nat) {
    var rest := RunSteps(t, s, n0 + |sent|);
    RunSteps(all, s, n0) == (sent + rest.0, rest.1)
  }

  /** Nothing sent yet, everything left to run. */
  lemma ProgressStart(all: seq<Step>, s: Server, n0: nat)
    ensures Progress(all, [], all, s, n0)
  {
    assert [] + RunSteps(all, s, n0).0 == RunSteps(all, s, n0).0;
  }

  /** Nothing left to run: what was sent is the whole run, without error. */
  lemma ProgressEnd(all: seq<Step>, sent: seq<Cmd>, s: Server, n0: nat)
    requires Progress(all, sent, [], s, n0)
    ensures RunSteps(all, s, n0) == (sent, None)
  {
    assert sent + [] == sent;
  }

  /** Progress over a step that fails: the run ends there with its wording. */
  lemma RunStepsStop(all: seq<Step>, sent: seq<Cmd>, st: Step, t: seq<Step>, s: Server, n0: nat)
    requires Progress(all, sent, [st] + t, s, n0) && s.fails(n0 + |sent|)
    ensures RunSteps(all, s, n0) == (sent + [st.cmd], Some(st.wording))
  {
    RunStepsCons(st, t, s, n0 + |sent|);
  }

  /** Progress over a step that succeeds: it joins what was sent. */
  lemma RunStepsGo(all: seq<Step>, sent: seq<Cmd>, st: Step, t: seq<Step>, s: Server, n0: nat)
    requires Progress(all, sent, [st] + t, s, n0) && !s.fails(n0 + |sent|)
    ensures Progress(all, sent + [st.cmd], t, s, n0)
  {
    var m := n0 + |sent|;
    RunStepsCons(st, t, s, m);
    var rest := RunSteps(t, s, m + 1);
    assert RunSteps(all, s, n0) == (sent + ([st.cmd] + rest.0), rest.1);
    assert sent + ([st.cmd] + rest.0) == (sent + [st.cmd]) + rest.0;
    assert n0 + |sent + [st.cmd]| == m + 1;
  }

  lemma AppendAssoc(a: seq<Cmd>, b: seq<Cmd>, c: seq<Cmd>)
    ensures (a + b) + c == a + (b + c)
  {
  }

  lemma AppendEmpty(a: seq<Cmd>)
    ensures [] + a == a
  {
  }

  /** Running one step and then the rest is running them all. */
  lemma RunStepsCons(st: Step, rest: seq<Step>, s: Server, n: nat)
    ensures RunSteps([st] + rest, s, n) ==
      if s.fails(n) then ([st.cmd], Some(st.wording))
      else ([st.cmd] + RunSteps(rest, s, n + 1).0, RunSteps(rest, s, n + 1).1)
  {
    assert ([st] + rest)[1..] == rest;
  }

  /**
   * Issues the steps' commands in order and returns at the first failure
   * with its wording: the log grows by exactly what RunSteps sends.
   */
  method IssueSteps(client: Transport, steps: seq<Step>) returns (err: Option<string>)
    modifies client
    ensures var r := RunSteps(steps, client.server, |old(client.log)|);
      client.log == old(client.log) + r.0 && err == r.1
  {
    ghost var n0 := |client.log|;
    ghost var sent: seq<Cmd> := [];
    ProgressStart(steps, client.server, n0);
    var i := 0;
    while i < |steps|
      invariant 0 <= i <= |steps| && |sent| == i
      invariant client.log == old(client.log) + sent
      invariant Progress(steps, sent, steps[i..], client.server, n0)
    {
      assert steps[i..] == [steps[i]] + steps[i + 1..];
      var failed := client.Call(steps[i].cmd);
      if failed {
        RunStepsStop(steps, sent, steps[i], steps[i + 1..], client.server, n0);
        return Some(steps[i].wording);
      }
      RunStepsGo(steps, sent, steps[i], steps[i + 1..], client.server, n0);
      sent := sent + [steps[i].cmd];
      i := i + 1;
    }
    assert steps[i..] == [];
    ProgressEnd(steps, sent, client.server, n0);
    return None;
  }
}
