/** The edge controller talking to the cloud control plane: the edge's two
    requests are served by `register_edge` and `get_edge_config`, and their
    answers are read the way `register_with_cloud` and `refresh_config` read
    them. */
module Enrollment {
  import opened Common
  import opened CloudModel
  import opened EdgeModel

  /** A 2xx answer to `POST /api/edge/register` is read with
      `data.get("site_id")`; an error status makes `raise_for_status` raise. */
  function RegisterReplyOf(answer: CloudModel.Result<string>): RegisterReply {
    if answer.Ok? then RegisterOk(Some(answer.value)) else RegisterFailed
  }

  /** A 2xx answer to `GET /api/edges/{edge_id}/desired-config` becomes the
      new configuration; an error status makes `raise_for_status` raise. */
  function ConfigReplyOf(answer: CloudModel.Result<Config>): ConfigReply {
    if answer.Ok? then Fetched(answer.value) else FetchFailed
  }

  /** Enrollment end to end: an operator mints a token for a site, an
      unregistered edge holding that token registers and then refreshes.
      The edge ends registered to that site, without its token, holding the
      site's desired configuration, and the cloud rejects the token from
      then on. */
  lemma EnrollmentEndToEnd(st: Store, siteId: string, token: string, e: Edge)
    requires Consistent(st)
    requires siteId in st.sites && siteId != ""
    requires !e.registered && e.token == Some(token) && token != ""
    ensures var minted := GenerateToken(st, siteId, token);
            var registered := RegisterEdge(minted.0, e.edgeId, token);
            var edge := RegisterWithCloud(e, RegisterReplyOf(registered.1)).0;
            var refreshed := RefreshConfig(edge, ConfigReplyOf(GetEdgeConfig(registered.0, e.edgeId))).0;
            && minted.1 == Ok(token)
            && registered.1 == Ok(siteId)
            && edge.registered && edge.token == None && edge.siteId == Some(siteId)
            && refreshed.config == Some(st.sites[siteId])
            && RegisterEdge(registered.0, e.edgeId, token).1 == Err(InvalidToken)
  {
  }

  /** An edge whose token the cloud does not know keeps it and stays
      unregistered, and the cloud's dictionaries are unchanged. */
  lemma UnknownTokenIsKept(st: Store, e: Edge)
    requires !e.registered && Truthy(e.token) && e.token.value !in st.tokens
    ensures var registered := RegisterEdge(st, e.edgeId, e.token.value);
            registered.0 == st &&
            RegisterWithCloud(e, RegisterReplyOf(registered.1)).0 == e
  {
  }
}
