/**
 * The parts of the plugin framework the resources touch: attribute values
 * that may be null or unknown, 32- and 64-bit integer attributes, nested
 * position attributes, diagnostics, and what the host keeps of a response.
 */
module Framework {
  import opened Wrappers
  import opened Strings

  newtype Int32 = x: int | -0x8000_0000 <= x < 0x8000_0000
  newtype Int64 = x: int | -0x8000_0000_0000_0000 <= x < 0x8000_0000_0000_0000

  /** A framework attribute value (types.String, types.Bool): null, not yet known, or known. */
  datatype Attr<T> = Null | Unknown | Known(v: T)

  /** ValueString(): the known value, or "" for a null or unknown one. */
  function ValueString(a: Attr<string>): string {
    if a.Known? then a.v else ""
  }

  /** ValueBool(): the known value, or false for a null or unknown one. */
  function ValueBool(a: Attr<bool>): bool {
    a.Known? && a.v
  }

  /** A nested `position` attribute of three Int32 coordinates. */
  datatype Position = Position(x: Int32, y: Int32, z: Int32)

  /** Diagnostics keep their summary and the fixed wording of their detail. */
  datatype Diag = Error(summary: string, detail: string) | Warning(summary: string, detail: string)

  predicate HasError(diags: seq<Diag>) {
    exists i :: 0 <= i < |diags| && diags[i].Error?
  }

  /** What a resource writes into its response: a state (or none) and diagnostics. */
  datatype Response<M> = Response(state: Option<M>, diags: seq<Diag>)

  const NotConfigured: Diag :=
    Error("Client Error", "Provider client is not configured. Please configure the provider before using this resource.")

  /** The host keeps the state a response carries only when no error was reported with it. */
  function Persisted<M>(r: Response<M>): Option<M> {
    if HasError(r.diags) then None else r.state
  }

  /**
   * Read, and the updates that issue no command: the model read from the
   * request is written back unchanged. When the resource checks for a
   * configured client (`configured` is false only then), a missing client
   * is reported instead and nothing is written.
   */
  function Echo<M>(configured: bool, data: M): Response<M> {
    if configured then Response(Some(data), []) else Response(None, [NotConfigured])
  }

  /**
   * Read after a successful write shows no drift: a state the host kept
   * survives the echoing Read unchanged. Without a client the Read keeps
   * nothing and reports the missing client.
   */
  lemma EchoKeepsPersisted<M>(r: Response<M>, configured: bool)
    requires Persisted(r).Some?
    ensures Persisted(Echo(configured, Persisted(r).value)) == (if configured then Persisted(r) else None)
    ensures configured ==> Echo(configured, Persisted(r).value).diags == []
    ensures !configured ==> Echo(configured, Persisted(r).value).diags == [NotConfigured]
  {
  }

  /**
   * resource.ImportStatePassthroughID: the import ID is copied into `id`
   * as it is, with no parsing and no other attribute set.
   */
  function ImportPassthrough(reqId: string): Attr<string> {
    Known(reqId)
  }

  /** Three numbers printed with %d and joined by sep, as in `x-y-z`, `x y z` and `x,y,z`. */
  function Triple(x: int, y: int, z: int, sep: char): string {
    IntToString(x) + [sep] + IntToString(y) + [sep] + IntToString(z)
  }

  /** The coordinates of a position joined by sep. */
  function Coordinates(p: Position, sep: char): string {
    Triple(p.x as int, p.y as int, p.z as int, sep)
  }

  /**
   * Three numbers joined by a separator that is not a digit, followed by
   * text that does not start with a digit, are read back unambiguously.
   */
  lemma TripleThenRest(x1: int, y1: int, z1: int, x2: int, y2: int, z2: int, sep: char, r1: string, r2: string)
    requires !IsDigit(sep)
    requires r1 == [] || !IsDigit(r1[0])
    requires r2 == [] || !IsDigit(r2[0])
    requires Triple(x1, y1, z1, sep) + r1 == Triple(x2, y2, z2, sep) + r2
    ensures x1 == x2 && y1 == y2 && z1 == z2 && r1 == r2
  {
    Regroup(IntToString(x1), IntToString(y1), IntToString(z1), r1, sep);
    Regroup(IntToString(x2), IntToString(y2), IntToString(z2), r2, sep);
    var u1, u2 := IntToString(z1) + r1, IntToString(z2) + r2;
    var t1, t2 := IntToString(y1) + [sep] + u1, IntToString(y2) + [sep] + u2;
    IntThenSeparator(x1, x2, sep, t1, t2);
    IntThenSeparator(y1, y2, sep, u1, u2);
    IntThenRest(z1, z2, r1, r2);
  }

  lemma Regroup(a: string, b: string, c: string, r: string, sep: char)
    ensures a + [sep] + b + [sep] + c + r == a + [sep] + (b + [sep] + (c + r))
  {
  }

  lemma CoordinatesThenRest(p: Position, q: Position, sep: char, r1: string, r2: string)
    requires !IsDigit(sep)
    requires r1 == [] || !IsDigit(r1[0])
    requires r2 == [] || !IsDigit(r2[0])
    requires Coordinates(p, sep) + r1 == Coordinates(q, sep) + r2
    ensures p == q && r1 == r2
  {
    TripleThenRest(p.x as int, p.y as int, p.z as int, q.x as int, q.y as int, q.z as int, sep, r1, r2);
  }

  /** Coordinates after a common prefix and before text not starting with a digit are read back. */
  lemma PrefixedCoordinates(pre: string, p: Position, q: Position, sep: char, r1: string, r2: string)
    requires !IsDigit(sep)
    requires r1 == [] || !IsDigit(r1[0])
    requires r2 == [] || !IsDigit(r2[0])
    requires pre + Coordinates(p, sep) + r1 == pre + Coordinates(q, sep) + r2
    ensures p == q && r1 == r2
  {
    DropPrefix(pre, Coordinates(p, sep), r1, Coordinates(q, sep), r2);
    CoordinatesThenRest(p, q, sep, r1, r2);
  }

  /** Two positions joined by a separator text that starts with a non-digit are read back. */
  lemma JoinedCoordinates(p1: Position, q1: Position, p2: Position, q2: Position, sep: char, mid: string)
    requires !IsDigit(sep)
    requires |mid| > 0 && !IsDigit(mid[0])
    requires Coordinates(p1, sep) + mid + Coordinates(q1, sep) == Coordinates(p2, sep) + mid + Coordinates(q2, sep)
    ensures p1 == p2 && q1 == q2
  {
    var t1, t2 := mid + Coordinates(q1, sep), mid + Coordinates(q2, sep);
    Regroup2(Coordinates(p1, sep), mid, Coordinates(q1, sep));
    Regroup2(Coordinates(p2, sep), mid, Coordinates(q2, sep));
    CoordinatesThenRest(p1, p2, sep, t1, t2);
    DropPrefix(mid, Coordinates(q1, sep), [], Coordinates(q2, sep), []);
    CoordinatesThenRest(q1, q2, sep, [], []);
  }

  lemma Regroup2(a: string, m: string, b: string)
    ensures a + m + b == a + (m + b)
    ensures (m + b)[..|m|] == m
  {
  }

  lemma DropPrefix(pre: string, a1: string, r1: string, a2: string, r2: string)
    requires pre + a1 + r1 == pre + a2 + r2
    ensures a1 + r1 == a2 + r2
    ensures a1 + r1 + [] == a2 + r2 + []
  {
    assert a1 + r1 == (pre + a1 + r1)[|pre|..];
    assert a2 + r2 == (pre + a2 + r2)[|pre|..];
  }

  /** Printed coordinates contain only digits, `-` and the separator. */
  lemma TripleAvoids(x: int, y: int, z: int, sep: char, c: char)
    requires !IsDigit(c) && c != '-' && c != sep
    ensures c !in Triple(x, y, z, sep)
  {
    IntToStringAvoids(x, c);
    IntToStringAvoids(y, c);
    IntToStringAvoids(z, c);
  }
}
