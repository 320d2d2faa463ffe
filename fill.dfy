/** minecraft_fill: a cuboid region between two corners filled with one material. */
module FillResource {
  import opened Wrappers
  import opened Strings
  import opened Framework
  import opened Remote

  datatype FillModel = FillModel(id: Attr<string>, material: string, start: Position, end: Position)

  /** The ID `<material>|<x1>,<y1>,<z1>-><x2>,<y2>,<z2>`. */
  function FillId(d: FillModel): string {
    d.material + "|" + Corners(d)
  }

  /** The corners part of the ID, `<x1>,<y1>,<z1>-><x2>,<y2>,<z2>`. */
  function Corners(d: FillModel): string {
    Coordinates(d.start, ',') + "->" + Coordinates(d.end, ',')
  }

  function FillWith(material: string, d: FillModel): Cmd {
    FillBlock(material, d.start.x as int, d.start.y as int, d.start.z as int,
              d.end.x as int, d.end.y as int, d.end.z as int)
  }

  /** Create fills the region; its ID, derived from material and corners, is written only when that succeeds. */
  function CreateRun(plan: FillModel, s: Server, n: nat): (r: Run<FillModel>)
    ensures r.cmds == [FillWith(plan.material, plan)]
    ensures Persisted(Outcome(r)) == if s.fails(n) then None else Some(plan.(id := Known(FillId(plan))))
    ensures s.fails(n) ==> r.diags == [Error("Client Error", "Unable to fill region")]
  {
    Single(FillWith(plan.material, plan), s, n, "Unable to fill region", plan.(id := Known(FillId(plan))))
  }

  /**
   * Update fills the region again and recomputes the ID in the same format
   * as Create: it sends what Create sends and keeps what Create keeps, and
   * differs from it only in the wording of its failure.
   */
  function UpdateRun(plan: FillModel, s: Server, n: nat): (r: Run<FillModel>)
    ensures r.cmds == CreateRun(plan, s, n).cmds
    ensures r.state == CreateRun(plan, s, n).state
    ensures s.fails(n) ==> r.diags == [Error("Client Error", "Unable to update filled region")]
    ensures !s.fails(n) ==> r.diags == CreateRun(plan, s, n).diags == []
  {
    Single(FillWith(plan.material, plan), s, n, "Unable to update filled region", plan.(id := Known(FillId(plan))))
  }

  /** Delete fills the stored region with air; a failure is an error. */
  function DeleteRun(state: FillModel, s: Server, n: nat): (r: Removal)
    ensures r.cmds == [FillWith("minecraft:air", state)]
    ensures HasError(r.diags) <==> s.fails(n)
  {
    var r := SingleRemoval(FillWith("minecraft:air", state), s, n, Error("Client Error", "Unable to clear region"));
    assert r.diags != [] ==> r.diags[0].Error?;
    r
  }

  /** Delete clears, with air, exactly the region Create filled. */
  lemma DeleteClearsFilled(plan: FillModel, s: Server, n: nat, s': Server, n': nat)
    requires CreateRun(plan, s, n).state.Some?
    ensures var f := CreateRun(plan, s, n).cmds[0];
      DeleteRun(CreateRun(plan, s, n).state.value, s', n').cmds ==
        [FillBlock("minecraft:air", f.x1, f.y1, f.z1, f.x2, f.y2, f.z2)]
  {
  }

  /**
   * The ID identifies the fill: material and both corners are read back
   * from it, even when the material itself contains `|`.
   */
  lemma FillIdInjective(d: FillModel, e: FillModel)
    requires FillId(d) == FillId(e)
    ensures d.material == e.material && d.start == e.start && d.end == e.end
  {
    CornersAvoidBar(d);
    CornersAvoidBar(e);
    SplitAtLast(d.material, Corners(d), e.material, Corners(e), '|');
    CornersInjective(d, e);
  }

  lemma CornersAvoidBar(d: FillModel)
    ensures '|' !in Corners(d)
  {
    TripleAvoids(d.start.x as int, d.start.y as int, d.start.z as int, ',', '|');
    TripleAvoids(d.end.x as int, d.end.y as int, d.end.z as int, ',', '|');
  }

  lemma CornersInjective(d: FillModel, e: FillModel)
    requires Corners(d) == Corners(e)
    ensures d.start == e.start && d.end == e.end
  {
    JoinedCoordinates(d.start, d.end, e.start, e.end, ',', "->");
  }

  method Create(client: Transport?, plan: FillModel) returns (state: Option<FillModel>, diags: seq<Diag>)
    modifies client
    ensures client == null ==> state == None && diags == [NotConfigured]
    ensures client != null ==>
      var r := CreateRun(plan, client.server, |old(client.log)|);
      client.log == old(client.log) + r.cmds && state == r.state && diags == r.diags
  {
    if client == null {
      return None, [NotConfigured];
    }
    var a, b := plan.start, plan.end;
    var failed := client.Call(FillBlock(plan.material, a.x as int, a.y as int, a.z as int, b.x as int, b.y as int, b.z as int));
    if failed {
      return None, [Error("Client Error", "Unable to fill region")];
    }
    state, diags := Some(plan.(id := Known(FillId(plan)))), [];
  }

  method Update(client: Transport?, plan: FillModel) returns (state: Option<FillModel>, diags: seq<Diag>)
    modifies client
    ensures client == null ==> state == None && diags == [NotConfigured]
    ensures client != null ==>
      var r := UpdateRun(plan, client.server, |old(client.log)|);
      client.log == old(client.log) + r.cmds && state == r.state && diags == r.diags
  {
    if client == null {
      return None, [NotConfigured];
    }
    var a, b := plan.start, plan.end;
    var failed := client.Call(FillBlock(plan.material, a.x as int, a.y as int, a.z as int, b.x as int, b.y as int, b.z as int));
    if failed {
      return None, [Error("Client Error", "Unable to update filled region")];
    }
    state, diags := Some(plan.(id := Known(FillId(plan)))), [];
  }

  method Delete(client: Transport?, state: FillModel) returns (diags: seq<Diag>)
    modifies client
    ensures client == null ==> diags == [NotConfigured]
    ensures client != null ==>
      var r := DeleteRun(state, client.server, |old(client.log)|);
      client.log == old(client.log) + r.cmds && diags == r.diags
  {
    if client == null {
      return [NotConfigured];
    }
    var a, b := state.start, state.end;
    var failed := client.Call(FillBlock("minecraft:air", a.x as int, a.y as int, a.z as int, b.x as int, b.y as int, b.z as int));
    diags := if failed then [Error("Client Error", "Unable to clear region")] else [];
  }
}
