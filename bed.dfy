/**
 * minecraft_bed: a two-block bed whose foot sits at the position and whose
 * head sits one block further in the facing direction.
 */
module BedResource {
  import opened Wrappers
  import opened Strings
  import opened Framework
  import opened Remote

  datatype BedModel = BedModel(id: Attr<string>, material: string, position: Position, direction: string, occupied: bool)

  /** bedOffset: where the head lies relative to the foot, and whether the facing is known. */
  datatype Offset = Offset(dx: int, dz: int, valid: bool)

  function Abs(i: int): nat {
    if i < 0 then -i else i
  }

  /**
   * North is towards negative z, south positive z, east positive x and
   * west negative x; the head is always the horizontal neighbour of the
   * foot, and an unknown facing has no offset at all.
   */
  function BedOffset(facing: string): (o: Offset)
    ensures o.valid <==> facing in {"north", "south", "east", "west"}
    ensures o.valid ==> Abs(o.dx) + Abs(o.dz) == 1
    ensures !o.valid ==> o.dx == 0 && o.dz == 0
    ensures facing == "north" ==> o.dz < 0
    ensures facing == "south" ==> o.dz > 0
    ensures facing == "east" ==> o.dx > 0
    ensures facing == "west" ==> o.dx < 0
  {
    match facing
    case "north" => Offset(0, -1, true)
    case "south" => Offset(0, 1, true)
    case "east" => Offset(1, 0, true)
    case "west" => Offset(-1, 0, true)
    case _ => Offset(0, 0, false)
  }

  /** The block state `<material>[facing=<f>,part=<part>,occupied=<b>]`. */
  function BedState(d: BedModel, part: string): string {
    d.material + "[facing=" + d.direction + ",part=" + part + ",occupied=" + BoolToString(d.occupied) + "]"
  }

  function Foot(d: BedModel): Cmd {
    CreateBlock(BedState(d, "foot"), d.position.x as int, d.position.y as int, d.position.z as int)
  }

  function Head(d: BedModel): Cmd {
    var o := BedOffset(d.direction);
    CreateBlock(BedState(d, "head"), d.position.x as int + o.dx, d.position.y as int, d.position.z as int + o.dz)
  }

  /** The ID `bed-<x>-<y>-<z>-<direction>`. */
  function BedId(p: Position, direction: string): string {
    "bed-" + Coordinates(p, '-') + "-" + direction
  }

  const DirectionError: Diag := Error("Validation Error", "direction must be one of north|south|east|west")

  /**
   * Create, from log position n. An unknown direction sends nothing.
   * Otherwise the foot is placed and then the head; when the head fails,
   * the foot is deleted again (whatever that deletion returns) before the
   * error is reported. The ID is written only when both parts are placed.
   */
  function CreateRun(plan: BedModel, s: Server, n: nat): (r: Run<BedModel>)
    ensures !BedOffset(plan.direction).valid ==> r == Run([], None, [DirectionError])
    ensures r.state.Some? <==> BedOffset(plan.direction).valid && AllOk(s, n, 2)
    ensures r.state.Some? ==>
      && r.cmds == [Foot(plan), Head(plan)] && r.diags == []
      && r.state.value == plan.(id := Known(BedId(plan.position, plan.direction)))
    ensures r.state.None? ==> |r.diags| == 1 && r.diags[0].Error?
    ensures BedOffset(plan.direction).valid && s.fails(n) ==> r.cmds == [Foot(plan)]
    ensures BedOffset(plan.direction).valid && !s.fails(n) && s.fails(n + 1) ==>
      r.cmds == [Foot(plan), Head(plan), DeleteBlock(Foot(plan).x, Foot(plan).y, Foot(plan).z)]
    ensures BedOffset(plan.direction).valid && s.fails(n) ==> r.diags == [Error("Client Error", "Unable to place bed foot")]
    ensures BedOffset(plan.direction).valid && !s.fails(n) && s.fails(n + 1) ==> r.diags == [Error("Client Error", "Unable to place bed head")]
  {
    if !BedOffset(plan.direction).valid then Run([], None, [DirectionError])
    else if s.fails(n) then Run([Foot(plan)], None, [Error("Client Error", "Unable to place bed foot")])
    else if s.fails(n + 1) then
      var p := plan.position;
      Run([Foot(plan), Head(plan), DeleteBlock(p.x as int, p.y as int, p.z as int)], None,
          [Error("Client Error", "Unable to place bed head")])
    else Run([Foot(plan), Head(plan)], Some(plan.(id := Known(BedId(plan.position, plan.direction)))), [])
  }

  /** Update places foot and head again; a failed head leaves the foot in place. The plan is written as it is. */
  function UpdateRun(plan: BedModel, s: Server, n: nat): (r: Run<BedModel>)
    ensures !BedOffset(plan.direction).valid ==> r == Run([], None, [DirectionError])
    ensures BedOffset(plan.direction).valid ==> r.cmds == if s.fails(n) then [Foot(plan)] else [Foot(plan), Head(plan)]
    ensures r.state.Some? <==> BedOffset(plan.direction).valid && AllOk(s, n, 2)
    ensures r.state.Some? ==> r.state.value == plan && r.diags == []
    ensures r.state.None? ==> |r.diags| == 1 && r.diags[0].Error?
    ensures BedOffset(plan.direction).valid && s.fails(n) ==> r.diags == [Error("Client Error", "Unable to update bed foot")]
    ensures BedOffset(plan.direction).valid && !s.fails(n) && s.fails(n + 1) ==> r.diags == [Error("Client Error", "Unable to update bed head")]
  {
    if !BedOffset(plan.direction).valid then Run([], None, [DirectionError])
    else if s.fails(n) then Run([Foot(plan)], None, [Error("Client Error", "Unable to update bed foot")])
    else if s.fails(n + 1) then Run([Foot(plan), Head(plan)], None, [Error("Client Error", "Unable to update bed head")])
    else Run([Foot(plan), Head(plan)], Some(plan), [])
  }

  /** Delete removes the foot, and the head too when the stored direction is known. */
  function Removals(state: BedModel): (cmds: seq<Cmd>)
    ensures |cmds| == (if BedOffset(state.direction).valid then 2 else 1)
    ensures cmds[0] == DeleteBlock(Foot(state).x, Foot(state).y, Foot(state).z)
    ensures |cmds| == 2 ==> cmds[1] == DeleteBlock(Head(state).x, Head(state).y, Head(state).z)
  {
    var o := BedOffset(state.direction);
    var x, y, z := state.position.x as int, state.position.y as int, state.position.z as int;
    [DeleteBlock(x, y, z)] + (if o.valid then [DeleteBlock(x + o.dx, y, z + o.dz)] else [])
  }

  /** Delete clears exactly the two blocks Create placed. */
  lemma DeleteClearsBed(plan: BedModel, s: Server, n: nat)
    requires CreateRun(plan, s, n).state.Some?
    ensures var st := CreateRun(plan, s, n).state.value;
      var placed := CreateRun(plan, s, n).cmds;
      && |Removals(st)| == |placed| == 2
      && forall i :: 0 <= i < 2 ==> Removals(st)[i] == DeleteBlock(placed[i].x, placed[i].y, placed[i].z)
  {
    var st := CreateRun(plan, s, n).state.value;
    assert Foot(st) == Foot(plan) && Head(st) == Head(plan);
  }

  /** The head of a placed bed never overlaps its foot: they are horizontal neighbours. */
  lemma HeadBesideFoot(d: BedModel)
    requires BedOffset(d.direction).valid
    ensures Head(d).y == Foot(d).y
    ensures Abs(Head(d).x - Foot(d).x) + Abs(Head(d).z - Foot(d).z) == 1
  {
  }

  /** Different positions or directions get different IDs. */
  lemma BedIdInjective(p: Position, d1: string, q: Position, d2: string)
    requires BedId(p, d1) == BedId(q, d2)
    ensures p == q && d1 == d2
  {
    var r1, r2 := "-" + d1, "-" + d2;
    assert BedId(p, d1) == "bed-" + Coordinates(p, '-') + r1;
    assert BedId(q, d2) == "bed-" + Coordinates(q, '-') + r2;
    PrefixedCoordinates("bed-", p, q, '-', r1, r2);
    assert d1 == r1[1..] && d2 == r2[1..];
  }

  /** No configured-client check: the client must be present. */
  method Create(client: Transport, plan: BedModel) returns (state: Option<BedModel>, diags: seq<Diag>)
    modifies client
    ensures var r := CreateRun(plan, client.server, |old(client.log)|);
      client.log == old(client.log) + r.cmds && state == r.state && diags == r.diags
  {
    var offset := BedOffset(plan.direction);
    if !offset.valid {
      return None, [DirectionError];
    }
    var x, y, z := plan.position.x as int, plan.position.y as int, plan.position.z as int;
    var failed := client.Call(CreateBlock(BedState(plan, "foot"), x, y, z));
    if failed {
      return None, [Error("Client Error", "Unable to place bed foot")];
    }
    failed := client.Call(CreateBlock(BedState(plan, "head"), x + offset.dx, y, z + offset.dz));
    if failed {
      var _ := client.Call(DeleteBlock(x, y, z));
      return None, [Error("Client Error", "Unable to place bed head")];
    }
    state := Some(plan.(id := Known(BedId(plan.position, plan.direction))));
    diags := [];
  }

  method Update(client: Transport, plan: BedModel) returns (state: Option<BedModel>, diags: seq<Diag>)
    modifies client
    ensures var r := UpdateRun(plan, client.server, |old(client.log)|);
      client.log == old(client.log) + r.cmds && state == r.state && diags == r.diags
  {
    var offset := BedOffset(plan.direction);
    if !offset.valid {
      return None, [DirectionError];
    }
    var x, y, z := plan.position.x as int, plan.position.y as int, plan.position.z as int;
    var failed := client.Call(CreateBlock(BedState(plan, "foot"), x, y, z));
    if failed {
      return None, [Error("Client Error", "Unable to update bed foot")];
    }
    failed := client.Call(CreateBlock(BedState(plan, "head"), x + offset.dx, y, z + offset.dz));
    if failed {
      return None, [Error("Client Error", "Unable to update bed head")];
    }
    state, diags := Some(plan), [];
  }

  /** Delete ignores what the deletions return and reports nothing. */
  method Delete(client: Transport, state: BedModel) returns (diags: seq<Diag>)
    modifies client
    ensures client.log == old(client.log) + Removals(state) && diags == []
  {
    var offset := BedOffset(state.direction);
    var x, y, z := state.position.x as int, state.position.y as int, state.position.z as int;
    var _ := client.Call(DeleteBlock(x, y, z));
    if offset.valid {
      var _ := client.Call(DeleteBlock(x + offset.dx, y, z + offset.dz));
    }
    diags := [];
  }
}
