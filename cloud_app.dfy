/** The handlers of cloud/app.py as methods of one object that owns the
    three dictionaries and updates them in place. Each method is proved to
    perform the transition CloudModel defines for it. */
module CloudApp {
  import opened Common
  import opened CloudModel

  class ControlPlane {
    var sites: map<string, Config>
    var enrollmentTokens: map<string, string>
    var edges: map<string, EdgeRecord>
    /** The keys of `edges` in insertion order. */
    var edgeOrder: seq<string>

    /** The dictionaries as one value. */
    function Snapshot(): Store
      reads this
    {
      Store(sites, enrollmentTokens, edges, edgeOrder)
    }

    ghost predicate Valid()
      reads this
    {
      Consistent(Snapshot())
    }

    /** Process start-up: all three dictionaries are empty. */
    constructor ()
      ensures Valid() && Snapshot() == Initial
    {
      sites := map[];
      enrollmentTokens := map[];
      edges := map[];
      edgeOrder := [];
    }

    /** `set_desired_config`: answers `{"status": "saved"}`. */
    method SetDesiredConfig(siteId: string, config: Config) returns (status: string)
      requires Valid()
      modifies this
      ensures Valid()
      ensures Snapshot() == CloudModel.SetDesiredConfig(old(Snapshot()), siteId, config)
      ensures status == "saved"
    {
      sites := sites[siteId := config];
      status := "saved";
    }

    /** `get_desired_config`. */
    method GetDesiredConfig(siteId: string) returns (r: Result<Config>)
      ensures r == CloudModel.GetDesiredConfig(Snapshot(), siteId)
      ensures r.Ok? <==> siteId in sites
      ensures r.Err? ==> r.error == SiteNotFound
    {
      if siteId !in sites {
        return Err(SiteNotFound);
      }
      return Ok(sites[siteId]);
    }

    /** `generate_token`, with the random `uuid4().hex` as the parameter `token`. */
    method GenerateToken(siteId: string, token: string) returns (r: Result<string>)
      requires Valid()
      modifies this
      ensures Valid()
      ensures (Snapshot(), r) == CloudModel.GenerateToken(old(Snapshot()), siteId, token)
    {
      if siteId !in sites {
        return Err(SiteNotFound);
      }
      enrollmentTokens := enrollmentTokens[token := siteId];
      return Ok(token);
    }

    /** `register_edge`: pops the token and records the edge under its site. */
    method RegisterEdge(edgeId: string, token: string) returns (r: Result<string>)
      requires Valid()
      modifies this
      ensures Valid()
      ensures (Snapshot(), r) == CloudModel.RegisterEdge(old(Snapshot()), edgeId, token)
    {
      if token !in enrollmentTokens {
        return Err(InvalidToken);
      }
      ghost var before := Snapshot();
      var siteId := enrollmentTokens[token];
      enrollmentTokens := enrollmentTokens - {token};
      if edgeId !in edges {
        edgeOrder := edgeOrder + [edgeId];
      }
      edges := edges[edgeId := EdgeRecord(siteId, edgeId)];
      r := Ok(siteId);
      assert (Snapshot(), r) == CloudModel.RegisterEdge(before, edgeId, token);
    }

    /** `get_edge_config`, including its "site not found" branch, which a
        consistent state never takes. */
    method GetEdgeConfig(edgeId: string) returns (r: Result<Config>)
      ensures r == CloudModel.GetEdgeConfig(Snapshot(), edgeId)
      ensures Valid() ==> (r.Ok? <==> edgeId in edges)
      ensures Valid() && r.Err? ==> r.error == EdgeNotRegistered
    {
      if edgeId !in edges {
        return Err(EdgeNotRegistered);
      }
      var siteId := edges[edgeId].siteId;
      if siteId !in sites {
        return Err(SiteNotFound);
      }
      return Ok(sites[siteId]);
    }

    /** `list_edges`: the values of `edges`, collected in insertion order. */
    method ListEdges() returns (r: seq<EdgeRecord>)
      requires Valid()
      ensures r == CloudModel.ListEdges(Snapshot())
      ensures |r| == |edges|
      ensures forall x :: x in r <==> x in edges.Values
      ensures forall i :: 0 <= i < |r| ==> r[i].edgeId in edges && edges[r[i].edgeId] == r[i]
    {
      r := [];
      var i := 0;
      while i < |edgeOrder|
        invariant 0 <= i <= |edgeOrder|
        invariant r == CloudModel.ListEdges(Snapshot())[..i]
      {
        r := r + [edges[edgeOrder[i]]];
        i := i + 1;
      }
      ListEdgesIsExact(Snapshot());
    }
  }
}
