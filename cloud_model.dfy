/** The control plane of cloud/app.py as values: its three in-memory
    dictionaries, one transition per HTTP handler, and the properties that
    hold over any sequence of requests. The class in CloudApp runs these
    transitions in place. */
module CloudModel {
  import opened Common

  /** An `HTTPException`: the status code and the detail text. */
  datatype HttpError = HttpError(status: nat, detail: string)

  const SiteNotFound: HttpError := HttpError(404, "site not found")
  const EdgeNotRegistered: HttpError := HttpError(404, "edge not registered")
  const InvalidToken: HttpError := HttpError(400, "invalid or expired token")

  /** A handler either answers with a value or raises an `HTTPException`. */
  datatype Result<T> = Ok(value: T) | Err(error: HttpError)

  /** The value stored for a registered edge: `{"site_id": ..., "edge_id": ...}`. */
  datatype EdgeRecord = EdgeRecord(siteId: string, edgeId: string)

  /** The module-level dictionaries `sites`, `enrollment_tokens` and `edges`.
      `order` lists the keys of `edges` in insertion order, the order in which
      a Python dict yields its values. */
  datatype Store = Store(
    sites: map<string, Config>,
    tokens: map<string, string>,
    edges: map<string, EdgeRecord>,
    order: seq<string>)

  /** The state when the process starts: every dictionary empty. */
  const Initial: Store := Store(map[], map[], map[], [])

  ghost predicate Distinct(s: seq<string>) {
    forall i, j :: 0 <= i < j < |s| ==> s[i] != s[j]
  }

  /** The cross-dictionary invariant: every token and every edge points at an
      existing site, every edge record carries its own key, and `order` lists
      each key of `edges` exactly once. */
  ghost predicate Consistent(st: Store) {
    && (forall t :: t in st.tokens ==> st.tokens[t] in st.sites)
    && (forall e :: e in st.edges ==> st.edges[e].siteId in st.sites && st.edges[e].edgeId == e)
    && Distinct(st.order)
    && (forall e :: e in st.edges <==> e in st.order)
  }

  /** `POST /api/sites/{site_id}/desired-config`: store the configuration,
      overwriting any earlier one. */
  function SetDesiredConfig(st: Store, siteId: string, config: Config): (r: Store)
    ensures GetDesiredConfig(r, siteId) == Ok(config)
    ensures forall s :: s != siteId ==> GetDesiredConfig(r, s) == GetDesiredConfig(st, s)
    ensures r.sites.Keys == st.sites.Keys + {siteId}
    ensures r.tokens == st.tokens && r.edges == st.edges && r.order == st.order
    ensures Consistent(st) ==> Consistent(r)
  {
    st.(sites := st.sites[siteId := config])
  }

  /** `GET /api/sites/{site_id}/desired-config`. */
  function GetDesiredConfig(st: Store, siteId: string): Result<Config> {
    if siteId !in st.sites then Err(SiteNotFound) else Ok(st.sites[siteId])
  }

  /** `POST /api/sites/{site_id}/enrollment-token`, with the random token as
      a parameter. A token that is already present is overwritten, as the
      dictionary assignment in the source does. */
  function GenerateToken(st: Store, siteId: string, token: string): (r: (Store, Result<string>))
    ensures r.1.Err? <==> siteId !in st.sites
    ensures r.1.Err? ==> r.0 == st && r.1.error == SiteNotFound
    ensures r.1.Ok? ==> && r.1.value == token
                        && token in r.0.tokens && r.0.tokens[token] == siteId
                        && (forall t :: t != token && t in st.tokens ==> t in r.0.tokens && r.0.tokens[t] == st.tokens[t])
                        && r.0.sites == st.sites && r.0.edges == st.edges && r.0.order == st.order
    ensures r.1.Ok? ==> r.0.tokens.Keys == st.tokens.Keys + {token}
    ensures r.1.Ok? && token !in st.tokens ==> |r.0.tokens| == |st.tokens| + 1
    ensures Consistent(st) ==> Consistent(r.0)
  {
    if siteId !in st.sites then (st, Err(SiteNotFound))
    else
      var tokens := st.tokens[token := siteId];
      assert tokens.Keys == st.tokens.Keys + {token};
      MintKeepsConsistent(st, siteId, token);
      (st.(tokens := tokens), Ok(token))
  }

  /** Proof helper for `GenerateToken`: a token minted for an existing site
      keeps the invariant. */
  lemma MintKeepsConsistent(st: Store, siteId: string, token: string)
    requires siteId in st.sites
    ensures Consistent(st) ==> Consistent(st.(tokens := st.tokens[token := siteId]))
  {
  }

  /** `POST /api/edge/register`: redeem a token, record the edge under the
      token's site and answer with that site. A key already in `edges` keeps
      its place in the iteration order. */
  function RegisterEdge(st: Store, edgeId: string, token: string): (r: (Store, Result<string>))
    ensures r.1.Err? <==> token !in st.tokens
    ensures r.1.Err? ==> r.0 == st && r.1.error == InvalidToken
    ensures r.1.Ok? ==> && r.1.value == st.tokens[token]
                        && r.0.tokens == st.tokens - {token}
                        && edgeId in r.0.edges && r.0.edges[edgeId] == EdgeRecord(r.1.value, edgeId)
                        && (forall e :: e != edgeId && e in st.edges ==> e in r.0.edges && r.0.edges[e] == st.edges[e])
                        && r.0.edges.Keys == st.edges.Keys + {edgeId}
                        && r.0.sites == st.sites
    ensures r.1.Ok? ==> r.0.order == if edgeId in st.edges then st.order else st.order + [edgeId]
    ensures Consistent(st) ==> Consistent(r.0)
  {
    if token !in st.tokens then (st, Err(InvalidToken))
    else
      var siteId := st.tokens[token];
      var order := if edgeId in st.edges then st.order else st.order + [edgeId];
      (st.(tokens := st.tokens - {token},
           edges := st.edges[edgeId := EdgeRecord(siteId, edgeId)],
           order := order),
       Ok(siteId))
  }

  /** `GET /api/edges/{edge_id}/desired-config`. */
  function GetEdgeConfig(st: Store, edgeId: string): Result<Config> {
    if edgeId !in st.edges then Err(EdgeNotRegistered)
    else
      var siteId := st.edges[edgeId].siteId;
      if siteId !in st.sites then Err(SiteNotFound) else Ok(st.sites[siteId])
  }

  /** `GET /api/edges`: `list(edges.values())`, in insertion order. */
  function ListEdges(st: Store): seq<EdgeRecord>
    requires forall e :: e in st.order ==> e in st.edges
  {
    seq(|st.order|, i requires 0 <= i < |st.order| => st.edges[st.order[i]])
  }

  /** The requests that change the dictionaries; the other handlers only read. */
  datatype Command =
    | SetConfig(siteId: string, config: Config)
    | MintToken(siteId: string, token: string)
    | Redeem(edgeId: string, token: string)

  function Apply(st: Store, c: Command): Store {
    match c
    case SetConfig(siteId, config) => SetDesiredConfig(st, siteId, config)
    case MintToken(siteId, token) => GenerateToken(st, siteId, token).0
    case Redeem(edgeId, token) => RegisterEdge(st, edgeId, token).0
  }

  /** The dictionaries after serving `cs` in order. */
  function Run(st: Store, cs: seq<Command>): Store
    decreases |cs|
  {
    if cs == [] then st else Run(Apply(st, cs[0]), cs[1..])
  }

  /** Every handler keeps the dictionaries consistent. */
  lemma {:induction false} RunPreservesConsistent(st: Store, cs: seq<Command>)
    requires Consistent(st)
    ensures Consistent(Run(st, cs))
    decreases |cs|
  {
    if cs != [] {
      assert Consistent(Apply(st, cs[0]));
      RunPreservesConsistent(Apply(st, cs[0]), cs[1..]);
    }
  }

  /** Every state the server can reach from start-up is consistent. */
  lemma ReachableIsConsistent(cs: seq<Command>)
    ensures Consistent(Run(Initial, cs))
  {
    RunPreservesConsistent(Initial, cs);
  }

  /** No handler deletes a site or an edge, and a site's configuration can
      only be replaced, never removed. */
  lemma {:induction false} NothingIsDeleted(st: Store, cs: seq<Command>)
    ensures st.sites.Keys <= Run(st, cs).sites.Keys
    ensures st.edges.Keys <= Run(st, cs).edges.Keys
    decreases |cs|
  {
    if cs != [] {
      NothingIsDeleted(Apply(st, cs[0]), cs[1..]);
    }
  }

  /** A token absent from `enrollment_tokens` stays absent as long as no
      later request mints that same token. */
  lemma {:induction false} TokenStaysRedeemed(st: Store, cs: seq<Command>, token: string)
    requires token !in st.tokens
    requires forall i :: 0 <= i < |cs| ==> !(cs[i].MintToken? && cs[i].token == token)
    ensures token !in Run(st, cs).tokens
    decreases |cs|
  {
    if cs != [] {
      assert !(cs[0].MintToken? && cs[0].token == token);
      var next := Apply(st, cs[0]);
      assert token !in next.tokens;
      forall i | 0 <= i < |cs[1..]|
        ensures !(cs[1..][i].MintToken? && cs[1..][i].token == token)
      {
        assert cs[1..][i] == cs[i + 1];
      }
      TokenStaysRedeemed(next, cs[1..], token);
    }
  }

  /** Tokens are single use: once an edge has registered with a token, any
      later registration with it fails with 400, whatever happened in
      between, unless the same token was minted again. */
  lemma TokenIsSingleUse(st: Store, edgeId: string, token: string, cs: seq<Command>, laterEdgeId: string)
    requires RegisterEdge(st, edgeId, token).1.Ok?
    requires forall i :: 0 <= i < |cs| ==> !(cs[i].MintToken? && cs[i].token == token)
    ensures var later := Run(RegisterEdge(st, edgeId, token).0, cs);
            RegisterEdge(later, laterEdgeId, token) == (later, Err(InvalidToken))
  {
    TokenStaysRedeemed(RegisterEdge(st, edgeId, token).0, cs, token);
  }

  /** In a consistent state an edge's configuration is its site's: the
      "site not found" answer of `get_edge_config` cannot occur. */
  lemma EdgeConfigIsSiteConfig(st: Store, edgeId: string)
    requires Consistent(st)
    ensures edgeId !in st.edges ==> GetEdgeConfig(st, edgeId) == Err(EdgeNotRegistered)
    ensures edgeId in st.edges ==>
              GetEdgeConfig(st, edgeId) == GetDesiredConfig(st, st.edges[edgeId].siteId) &&
              GetEdgeConfig(st, edgeId).Ok?
  {
  }

  /** From start-up, no sequence of requests lets `get_edge_config` answer
      "site not found". */
  lemma EdgeConfigNeverMissesSite(cs: seq<Command>, edgeId: string)
    ensures GetEdgeConfig(Run(Initial, cs), edgeId) != Err(SiteNotFound)
  {
    ReachableIsConsistent(cs);
    EdgeConfigIsSiteConfig(Run(Initial, cs), edgeId);
  }

  /** A freshly registered edge is served the configuration of the site its
      token was minted for. */
  lemma RegisteredEdgeGetsSiteConfig(st: Store, edgeId: string, token: string)
    requires Consistent(st)
    requires token in st.tokens
    ensures var (next, answer) := RegisterEdge(st, edgeId, token);
            answer == Ok(st.tokens[token]) &&
            GetEdgeConfig(next, edgeId) == GetDesiredConfig(st, st.tokens[token]) &&
            GetEdgeConfig(next, edgeId).Ok?
  {
  }

  /** A newly registered edge is listed last, after every edge listed
      before. */
  lemma ListEdgesAfterNewRegistration(st: Store, edgeId: string, token: string)
    requires Consistent(st)
    requires token in st.tokens && edgeId !in st.edges
    ensures ListEdges(RegisterEdge(st, edgeId, token).0) ==
            ListEdges(st) + [EdgeRecord(st.tokens[token], edgeId)]
  {
    var after := RegisterEdge(st, edgeId, token).0;
    assert |ListEdges(after)| == |ListEdges(st)| + 1;
    forall i | 0 <= i < |ListEdges(after)|
      ensures ListEdges(after)[i] == (ListEdges(st) + [EdgeRecord(st.tokens[token], edgeId)])[i]
    {
      if i < |st.order| {
        assert after.order[i] == st.order[i] && st.order[i] != edgeId;
      }
    }
  }

  /** Registering an edge id that is already present keeps its place in the
      listing: only the entry at that place changes, to the new site. */
  lemma ListEdgesAfterReRegistration(st: Store, edgeId: string, token: string)
    requires Consistent(st)
    requires token in st.tokens && edgeId in st.edges
    ensures var before := ListEdges(st);
            var after := ListEdges(RegisterEdge(st, edgeId, token).0);
            && |after| == |before|
            && forall i :: 0 <= i < |after| ==>
                 after[i] == if before[i].edgeId == edgeId then EdgeRecord(st.tokens[token], edgeId) else before[i]
  {
  }

  /** A sequence without repeated elements has as many distinct elements as
      it is long. */
  lemma {:induction false} DistinctCardinality(s: seq<string>)
    requires Distinct(s)
    ensures |set x | x in s| == |s|
  {
    if s != [] {
      var rest := s[1..];
      assert Distinct(rest) by {
        forall i, j | 0 <= i < j < |rest| ensures rest[i] != rest[j] {
          assert rest[i] == s[i + 1] && rest[j] == s[j + 1];
        }
      }
      DistinctCardinality(rest);
      assert (set x | x in s) == (set x | x in rest) + {s[0]};
      assert s[0] !in (set x | x in rest) by {
        forall j | 0 <= j < |rest| ensures rest[j] != s[0] {
          assert rest[j] == s[j + 1];
        }
      }
    }
  }

  /** `list_edges` answers with exactly the values of `edges`: one entry per
      registered edge, no duplicates, each carrying its own key. */
  lemma ListEdgesIsExact(st: Store)
    requires Consistent(st)
    ensures |ListEdges(st)| == |st.edges|
    ensures forall x :: x in ListEdges(st) <==> x in st.edges.Values
    ensures forall i :: 0 <= i < |ListEdges(st)| ==>
              ListEdges(st)[i].edgeId in st.edges && st.edges[ListEdges(st)[i].edgeId] == ListEdges(st)[i]
    ensures forall i, j :: 0 <= i < j < |ListEdges(st)| ==> ListEdges(st)[i] != ListEdges(st)[j]
  {
    var r := ListEdges(st);
    DistinctCardinality(st.order);
    assert st.edges.Keys == set x | x in st.order;
    forall x | x in st.edges.Values ensures x in r {
      var e :| e in st.edges && st.edges[e] == x;
      var i :| 0 <= i < |st.order| && st.order[i] == e;
      assert r[i] == x;
    }
  }
}
