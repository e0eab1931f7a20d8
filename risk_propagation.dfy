/**
 * The network risk table of app.py: every tunnel starts Safe, the checked
 * tunnel takes its status, and each tunnel that was Unsafe before the pass
 * marks its direct neighbours Warning.
 */
module RiskPropagation {
  import opened SafetyArbiter

  /** The three tunnels of the mine. */
  datatype Tunnel = A | B | C

  /** A risk label for every tunnel. */
  type Table = map<Tunnel, Risk>

  /** `connections`, in the dict's order: each tunnel with its neighbour list. */
  const Connections: seq<(Tunnel, seq<Tunnel>)> := [(A, [B]), (B, [A, C]), (C, [B])]

  /** The tunnel graph as its undirected edges A-B and B-C. */
  predicate Edge(u: Tunnel, v: Tunnel) {
    (u == A && v == B) || (u == B && v == A) || (u == B && v == C) || (u == C && v == B)
  }

  /** v is listed among u's neighbours in `connections`. */
  predicate Adjacent(u: Tunnel, v: Tunnel) {
    exists k :: 0 <= k < |Connections| && Connections[k].0 == u && v in Connections[k].1
  }

  /** The neighbour lists encode exactly the edges A-B and B-C: symmetric and without self-loops. */
  lemma ConnectionsAreTheEdges(u: Tunnel, v: Tunnel)
    ensures Adjacent(u, v) <==> Edge(u, v)
  {
    if Edge(u, v) {
      var k := if u == A then 0 else if u == B then 1 else 2;
      assert Connections[k].0 == u && v in Connections[k].1;
    }
  }

  /** The table has an entry for every tunnel. */
  predicate Total(t: Table) {
    forall u: Tunnel :: u in t
  }

  /** Some entry among the first n of conns is a tunnel Unsafe in base that lists v as neighbour. */
  predicate WarnedBy(base: Table, conns: seq<(Tunnel, seq<Tunnel>)>, n: nat, v: Tunnel)
    requires Total(base) && n <= |conns|
  {
    exists k :: 0 <= k < n && base[conns[k].0] == Unsafe && v in conns[k].1
  }

  /** The table after one pass: Warning where some base-Unsafe tunnel lists the tunnel, base otherwise. */
  function Spread(base: Table, conns: seq<(Tunnel, seq<Tunnel>)>): (t: Table)
    requires Total(base)
    ensures Total(t)
    ensures forall v :: t[v] == Warning || t[v] == base[v]
  {
    map v | v in base :: if WarnedBy(base, conns, |conns|, v) then Warning else base[v]
  }

  /** `base_risk`: every tunnel Safe except the checked one, which has its status. */
  function BaseRisk(tunnel: Tunnel, status: Risk): (t: Table)
    ensures Total(t)
    ensures t[tunnel] == status
    ensures forall u :: u != tunnel ==> t[u] == Safe
  {
    var t := map[A := Safe, B := Safe, C := Safe][tunnel := status];
    assert forall u: Tunnel :: u in t by {
      forall u: Tunnel ensures u in t {
        assert u.A? || u.B? || u.C?;
      }
    }
    t
  }

  /** The `gnn_risk` table for one checked tunnel. */
  function NetworkRisk(tunnel: Tunnel, status: Risk): (t: Table)
    ensures Total(t)
    ensures forall u :: u != tunnel ==> t[u] == Safe || t[u] == Warning
  {
    Spread(BaseRisk(tunnel, status), Connections)
  }

  /**
   * `gnn_risk = base_risk.copy()` and the nested loop over `connections`:
   * the test reads the copy `base`, the writes go to `gnn`.
   */
  method Propagate(base: Table, conns: seq<(Tunnel, seq<Tunnel>)>) returns (gnn: Table)
    requires Total(base)
    ensures gnn == Spread(base, conns)
  {
    gnn := base;
    var i := 0;
    while i < |conns|
      invariant 0 <= i <= |conns|
      invariant gnn.Keys == base.Keys
      invariant forall v :: v in base ==> gnn[v] == if WarnedBy(base, conns, i, v) then Warning else base[v]
    {
      var (tunnel, neighbours) := conns[i];
      if base[tunnel] == Unsafe {
        var j := 0;
        while j < |neighbours|
          invariant 0 <= j <= |neighbours|
          invariant gnn.Keys == base.Keys
          invariant forall v :: v in base ==>
            gnn[v] == if WarnedBy(base, conns, i, v) || v in neighbours[..j] then Warning else base[v]
        {
          gnn := gnn[neighbours[j] := Warning];
          assert neighbours[..j + 1] == neighbours[..j] + [neighbours[j]];
          j := j + 1;
        }
        assert neighbours[..j] == neighbours;
      }
      forall v | v in base
        ensures WarnedBy(base, conns, i + 1, v) <==> WarnedBy(base, conns, i, v) || (base[tunnel] == Unsafe && v in neighbours)
      {
        if WarnedBy(base, conns, i + 1, v) && !WarnedBy(base, conns, i, v) {
          var k :| 0 <= k < i + 1 && base[conns[k].0] == Unsafe && v in conns[k].1;
          assert k == i;
        }
      }
      i := i + 1;
    }
  }

  /** The table shown for one checked tunnel (app.py builds `base_risk`, then propagates). */
  method RiskTable(tunnel: Tunnel, status: Risk) returns (gnn: Table)
    ensures gnn == NetworkRisk(tunnel, status)
    ensures Total(gnn)
  {
    var base := map[A := Safe, B := Safe, C := Safe];
    base := base[tunnel := status];
    assert base == BaseRisk(tunnel, status);
    gnn := Propagate(base, Connections);
  }

  /** Only the checked tunnel can warn: it is the one tunnel that can be Unsafe in the base table. */
  lemma WarnedIffNeighbour(tunnel: Tunnel, status: Risk, v: Tunnel)
    ensures WarnedBy(BaseRisk(tunnel, status), Connections, |Connections|, v) <==> status == Unsafe && Adjacent(tunnel, v)
  {
  }

  /** The checked tunnel keeps its own status in the table. */
  lemma CheckedTunnelKeepsStatus(tunnel: Tunnel, status: Risk)
    ensures NetworkRisk(tunnel, status)[tunnel] == status
  {
  }

  /** A Safe (or Warning) checked tunnel spreads nothing: the table is its base table. */
  lemma NoUnsafeNoWarning(tunnel: Tunnel, status: Risk)
    requires status != Unsafe
    ensures NetworkRisk(tunnel, status) == BaseRisk(tunnel, status)
    ensures status == Safe ==> forall v :: NetworkRisk(tunnel, status)[v] == Safe
  {
  }

  /**
   * An Unsafe checked tunnel turns exactly its neighbours to Warning; every
   * other tunnel stays Safe.
   */
  lemma UnsafeWarnsExactlyNeighbours(tunnel: Tunnel, v: Tunnel)
    requires v != tunnel
    ensures NetworkRisk(tunnel, Unsafe)[v] == if Edge(tunnel, v) then Warning else Safe
  {
    WarnedIffNeighbour(tunnel, Unsafe, v);
    ConnectionsAreTheEdges(tunnel, v);
  }

  /** Propagation is one hop: from A, B is warned but C, two hops away, stays Safe. */
  lemma UnsafeAOneHop()
    ensures NetworkRisk(A, Unsafe) == map[A := Unsafe, B := Warning, C := Safe]
  {
    CheckedTunnelKeepsStatus(A, Unsafe);
    UnsafeWarnsExactlyNeighbours(A, B);
    UnsafeWarnsExactlyNeighbours(A, C);
  }

  /** From B, both neighbours are warned. */
  lemma UnsafeBWarnsBoth()
    ensures NetworkRisk(B, Unsafe) == map[A := Warning, B := Unsafe, C := Warning]
  {
    CheckedTunnelKeepsStatus(B, Unsafe);
    UnsafeWarnsExactlyNeighbours(B, A);
    UnsafeWarnsExactlyNeighbours(B, C);
  }

  /**
   * The pass tests the base table, so a Warning never spreads further, while
   * an Unsafe entry listed by another Unsafe tunnel is overwritten: with A and
   * B both Unsafe in a base table (which app.py never builds), all three end
   * up Warning.
   */
  lemma TwoUnsafeOverwrite()
    ensures Spread(BaseRisk(A, Unsafe)[B := Unsafe], Connections) == map[A := Warning, B := Warning, C := Warning]
  {
    var base := BaseRisk(A, Unsafe)[B := Unsafe];
    assert base[Connections[1].0] == Unsafe && A in Connections[1].1;
    assert base[Connections[0].0] == Unsafe && B in Connections[0].1;
    assert base[Connections[1].0] == Unsafe && C in Connections[1].1;
  }
}
