/** The registration and configuration state machine of the edge controller
    (`EdgeState` in microgrid-vps-prototype-v4/edge/app.py) as values. The
    cloud's HTTP answers are inputs; each transition also returns the request
    it would send, so that "a request was made" can be stated. The class in
    EdgeApp runs these transitions in place. */
module EdgeModel {
  import opened Common

  /** The HTTP requests the edge sends to the cloud. */
  datatype Request =
    | PostRegister(url: string, edgeId: string, token: string)
    | GetConfig(url: string)

  /** The outcome of `POST /api/edge/register`: a transport or status error
      (`httpx.HTTPError`), or a JSON answer whose `site_id` may be missing. */
  datatype RegisterReply = RegisterFailed | RegisterOk(siteId: Option<string>)

  /** The outcome of `GET /api/edges/{edge_id}/desired-config`. */
  datatype ConfigReply = FetchFailed | Fetched(config: Config)

  /** What the cloud answers in one round of the polling loop. */
  datatype Round = Round(register: RegisterReply, config: ConfigReply)

  /** The fields of an `EdgeState`. */
  datatype Edge = Edge(
    edgeId: string,
    cloudUrl: string,
    token: Option<string>,
    siteId: Option<string>,
    registered: bool,
    config: Option<Config>)

  /** The body of `GET /status`. */
  datatype StatusReport = StatusReport(
    edgeId: string,
    registered: bool,
    siteId: Option<string>,
    config: Option<Config>)

  /** Python truthiness of an optional string: `None` and `""` are false. */
  predicate Truthy(s: Option<string>) {
    s.Some? && s.value != ""
  }

  /** A registered edge holds no token. */
  ghost predicate Valid(e: Edge) {
    e.registered ==> e.token == None
  }

  /** `str.rstrip("/")`: drop every trailing slash. */
  function TrimTrailingSlashes(s: string): (r: string)
    ensures |r| <= |s| && r == s[..|r|]
    ensures r == [] || r[|r| - 1] != '/'
    ensures forall i :: |r| <= i < |s| ==> s[i] == '/'
    decreases |s|
  {
    if s != [] && s[|s| - 1] == '/' then TrimTrailingSlashes(s[..|s| - 1]) else s
  }

  /** `EdgeState.__init__`. */
  function Init(edgeId: string, cloudUrl: string, token: Option<string>): (e: Edge)
    ensures !e.registered && e.siteId == None && e.config == None
    ensures e.edgeId == edgeId && e.token == token
    ensures e.cloudUrl == [] || e.cloudUrl[|e.cloudUrl| - 1] != '/'
    ensures |e.cloudUrl| <= |cloudUrl| && e.cloudUrl == cloudUrl[..|e.cloudUrl|]
    ensures forall i :: |e.cloudUrl| <= i < |cloudUrl| ==> cloudUrl[i] == '/'
    ensures Valid(e)
  {
    Edge(edgeId, TrimTrailingSlashes(cloudUrl), token, None, false, None)
  }

  function RegisterUrl(e: Edge): string {
    e.cloudUrl + "/api/edge/register"
  }

  function ConfigUrl(e: Edge): string {
    e.cloudUrl + "/api/edges/" + e.edgeId + "/desired-config"
  }

  /** `register_with_cloud`: without a token nothing happens; a failed
      request changes nothing, so the token is kept for a retry; a
      successful one takes the site from the answer, drops the token and
      marks the edge registered. */
  function RegisterWithCloud(e: Edge, reply: RegisterReply): (r: (Edge, Option<Request>))
    ensures !Truthy(e.token) ==> r == (e, None)
    ensures Truthy(e.token) ==> r.1 == Some(PostRegister(RegisterUrl(e), e.edgeId, e.token.value))
    ensures reply.RegisterFailed? ==> r.0 == e
    ensures Truthy(e.token) && reply.RegisterOk? ==>
              r.0 == e.(siteId := reply.siteId, token := None, registered := true)
    ensures Valid(e) ==> Valid(r.0)
    ensures e.registered ==> r.0.registered
  {
    if !Truthy(e.token) then (e, None)
    else
      var request := PostRegister(RegisterUrl(e), e.edgeId, e.token.value);
      match reply
      case RegisterFailed => (e, Some(request))
      case RegisterOk(siteId) => (e.(siteId := siteId, token := None, registered := true), Some(request))
  }

  /** `refresh_config`: only a registered edge with a site fetches; a failed
      fetch keeps the old configuration; a successful one replaces it and
      nothing else. */
  function RefreshConfig(e: Edge, reply: ConfigReply): (r: (Edge, Option<Request>))
    ensures !(e.registered && Truthy(e.siteId)) ==> r == (e, None)
    ensures e.registered && Truthy(e.siteId) ==> r.1 == Some(GetConfig(ConfigUrl(e)))
    ensures reply.FetchFailed? ==> r.0 == e
    ensures e.registered && Truthy(e.siteId) && reply.Fetched? ==> r.0 == e.(config := Some(reply.config))
  {
    if !e.registered || !Truthy(e.siteId) then (e, None)
    else
      var request := GetConfig(ConfigUrl(e));
      match reply
      case FetchFailed => (e, Some(request))
      case Fetched(config) => (e.(config := Some(config)), Some(request))
  }

  function Sent(q: Option<Request>): seq<Request> {
    if q.Some? then [q.value] else []
  }

  /** One iteration of the `while True` loop of `run_background_tasks`:
      retry registration if unregistered and holding a token, then refresh
      the configuration. */
  function Step(e: Edge, round: Round): (r: (Edge, seq<Request>))
    ensures Valid(e) ==> Valid(r.0)
    ensures (exists q :: q in r.1 && q.PostRegister?) <==> !e.registered && Truthy(e.token)
    ensures e.registered ==> r.0 == e.(config := r.0.config)
    ensures !e.registered && !r.0.registered ==> r == (e, Sent(RegisterWithCloud(e, round.register).1))
    ensures !e.registered ==> (r.0.registered <==> Truthy(e.token) && round.register.RegisterOk?)
    ensures !e.registered && Truthy(e.token) && round.register.RegisterOk? ==>
              && r.0.registered && r.0.token == None && r.0.siteId == round.register.siteId
              && r.0.edgeId == e.edgeId && r.0.cloudUrl == e.cloudUrl
              && r.0.config == (if Truthy(round.register.siteId) && round.config.Fetched?
                                then Some(round.config.config) else e.config)
              && r.1 == [PostRegister(RegisterUrl(e), e.edgeId, e.token.value)] +
                        (if Truthy(round.register.siteId) then [GetConfig(ConfigUrl(e))] else [])
    ensures e.registered && Truthy(e.siteId) ==>
              && r.1 == [GetConfig(ConfigUrl(e))]
              && r.0.config == (if round.config.Fetched? then Some(round.config.config) else e.config)
    ensures e.registered && !Truthy(e.siteId) ==> r == (e, [])
  {
    var register := if !e.registered && Truthy(e.token) then RegisterWithCloud(e, round.register) else (e, None);
    var refresh := RefreshConfig(register.0, round.config);
    var sent := Sent(register.1) + Sent(refresh.1);
    assert register.1.Some? ==> sent[0] == register.1.value;
    assert refresh.1 == None ==> sent == Sent(register.1);
    (refresh.0, sent)
  }

  /** The loop run for `|rounds|` iterations, with every request it sent. */
  function Loop(e: Edge, rounds: seq<Round>): (r: (Edge, seq<Request>))
    decreases |rounds|
  {
    if rounds == [] then (e, [])
    else
      var before := Loop(e, rounds[..|rounds| - 1]);
      var after := Step(before.0, rounds[|rounds| - 1]);
      (after.0, before.1 + after.1)
  }

  /** The loop over one more round is the loop followed by one step. */
  lemma LoopOneMore(e: Edge, rounds: seq<Round>, i: nat)
    requires i < |rounds|
    ensures var before := Loop(e, rounds[..i]);
            var after := Step(before.0, rounds[i]);
            Loop(e, rounds[..i + 1]) == (after.0, before.1 + after.1)
  {
    assert rounds[..i + 1][..i] == rounds[..i];
  }

  /** `run_background_tasks` cut off after `|rounds|` iterations: one
      registration attempt at start-up if a token is held, then the loop. */
  function RunBackgroundTasks(e: Edge, startup: RegisterReply, rounds: seq<Round>): (Edge, seq<Request>) {
    var started := if Truthy(e.token) then RegisterWithCloud(e, startup) else (e, None);
    var looped := Loop(started.0, rounds);
    (looped.0, Sent(started.1) + looped.1)
  }

  /** An unregistered edge holding a token sends its registration first:
      the first iteration of the loop posts it. */
  lemma {:induction false} LoopBeginsWithRegistration(e: Edge, rounds: seq<Round>)
    requires !e.registered && Truthy(e.token)
    requires rounds != []
    ensures var sent := Loop(e, rounds).1;
            |sent| >= 1 && sent[0] == PostRegister(RegisterUrl(e), e.edgeId, e.token.value)
    decreases |rounds|
  {
    var init, last := rounds[..|rounds| - 1], rounds[|rounds| - 1];
    var before := Loop(e, init);
    var after := Step(before.0, last);
    assert Loop(e, rounds).1 == before.1 + after.1;
    if init == [] {
      assert before == (e, []);
      assert after.1[0] == PostRegister(RegisterUrl(e), e.edgeId, e.token.value);
    } else {
      LoopBeginsWithRegistration(e, init);
      assert (before.1 + after.1)[0] == before.1[0];
    }
  }

  /** A registration that fails at start-up is retried at once, in the
      first iteration of the loop: the edge sends the same registration
      twice in a row. */
  lemma StartupFailureIsRetriedAtOnce(e: Edge, rounds: seq<Round>)
    requires !e.registered && Truthy(e.token)
    requires rounds != []
    ensures var sent := RunBackgroundTasks(e, RegisterFailed, rounds).1;
            var post := PostRegister(RegisterUrl(e), e.edgeId, e.token.value);
            |sent| >= 2 && sent[0] == post && sent[1] == post
  {
    LoopBeginsWithRegistration(e, rounds);
  }

  /** An edge that registers at start-up stays registered to the site of
      the answer through the whole loop and never posts a registration
      again. */
  lemma StartupRegistrationIsKept(e: Edge, siteId: Option<string>, rounds: seq<Round>)
    requires Truthy(e.token)
    ensures var run := RunBackgroundTasks(e, RegisterOk(siteId), rounds);
            && run.0.registered && run.0.token == None && run.0.siteId == siteId
            && |run.1| >= 1 && run.1[0] == PostRegister(RegisterUrl(e), e.edgeId, e.token.value)
            && forall i :: 1 <= i < |run.1| ==> !run.1[i].PostRegister?
  {
    var started := RegisterWithCloud(e, RegisterOk(siteId));
    var post := PostRegister(RegisterUrl(e), e.edgeId, e.token.value);
    assert started.1 == Some(post);
    assert started.0.registered && started.0.token == None && started.0.siteId == siteId;
    RegistrationIsPermanent(started.0, rounds);
    var looped := Loop(started.0, rounds);
    NoRegistrationAfterFirst(post, looped.1);
  }

  /** Proof helper for `StartupRegistrationIsKept`: a request followed by
      requests none of which is a registration. */
  lemma NoRegistrationAfterFirst(first: Request, rest: seq<Request>)
    requires forall q :: q in rest ==> !q.PostRegister?
    ensures forall i :: 1 <= i < |[first] + rest| ==> !([first] + rest)[i].PostRegister?
  {
    forall i | 1 <= i < |[first] + rest| ensures !([first] + rest)[i].PostRegister? {
      assert ([first] + rest)[i] == rest[i - 1];
    }
  }

  /** The `/status` projection. */
  function Status(e: Edge): StatusReport {
    StatusReport(e.edgeId, e.registered, e.siteId, e.config)
  }

  /** The loop keeps "registered implies no token". */
  lemma {:induction false} LoopKeepsValid(e: Edge, rounds: seq<Round>)
    requires Valid(e)
    ensures Valid(Loop(e, rounds).0)
    decreases |rounds|
  {
    if rounds != [] {
      LoopKeepsValid(e, rounds[..|rounds| - 1]);
    }
  }

  /** Registration is permanent: a registered edge stays registered, keeps
      its site, never posts a registration again, and the loop changes only
      its configuration. */
  lemma {:induction false} RegistrationIsPermanent(e: Edge, rounds: seq<Round>)
    requires e.registered
    ensures Loop(e, rounds).0 == e.(config := Loop(e, rounds).0.config)
    ensures forall q :: q in Loop(e, rounds).1 ==> !q.PostRegister?
    decreases |rounds|
  {
    if rounds != [] {
      RegistrationIsPermanent(e, rounds[..|rounds| - 1]);
    }
  }

  /** An unregistered edge that has not registered by the end of the loop
      is exactly as it started. */
  lemma {:induction false} UnregisteredIsUnchanged(e: Edge, rounds: seq<Round>)
    requires !e.registered
    requires !Loop(e, rounds).0.registered
    ensures Loop(e, rounds).0 == e
    decreases |rounds|
  {
    if rounds != [] {
      UnregisteredIsUnchanged(e, rounds[..|rounds| - 1]);
    }
  }

  /** An edge without a token never registers and never sends anything. */
  lemma {:induction false} IdleWithoutToken(e: Edge, rounds: seq<Round>)
    requires !e.registered && !Truthy(e.token)
    ensures Loop(e, rounds) == (e, [])
    decreases |rounds|
  {
    if rounds != [] {
      IdleWithoutToken(e, rounds[..|rounds| - 1]);
    }
  }

  /** An unregistered edge holding a token is registered once the cloud
      accepts any one of its attempts. */
  lemma {:induction false} RegistersOnceAccepted(e: Edge, rounds: seq<Round>)
    requires !e.registered && Truthy(e.token)
    requires exists k :: 0 <= k < |rounds| && rounds[k].register.RegisterOk?
    ensures Loop(e, rounds).0.registered
    decreases |rounds|
  {
    var init, last := rounds[..|rounds| - 1], rounds[|rounds| - 1];
    var before := Loop(e, init).0;
    assert Loop(e, rounds).0 == Step(before, last).0;
    if exists k :: 0 <= k < |init| && init[k].register.RegisterOk? {
      RegistersOnceAccepted(e, init);
    } else {
      var k :| 0 <= k < |rounds| && rounds[k].register.RegisterOk?;
      assert forall j :: 0 <= j < |init| ==> init[j] == rounds[j];
      assert last.register.RegisterOk?;
      if !before.registered {
        UnregisteredIsUnchanged(e, init);
      }
    }
  }

  /** The converse of `RegistersOnceAccepted`: an edge that starts
      unregistered is registered at the end of the loop only if it holds a
      token and the cloud accepted one of its attempts; a failed attempt
      leaves it unregistered, to retry later. */
  lemma {:induction false} RegisteredOnlyIfAccepted(e: Edge, rounds: seq<Round>)
    requires !e.registered && Loop(e, rounds).0.registered
    ensures Truthy(e.token)
    ensures exists k :: 0 <= k < |rounds| && rounds[k].register.RegisterOk?
    decreases |rounds|
  {
    var init, last := rounds[..|rounds| - 1], rounds[|rounds| - 1];
    var before := Loop(e, init).0;
    if before.registered {
      RegisteredOnlyIfAccepted(e, init);
      var k :| 0 <= k < |init| && init[k].register.RegisterOk?;
      assert rounds[k] == init[k];
    } else {
      UnregisteredIsUnchanged(e, init);
      assert rounds[|rounds| - 1].register.RegisterOk?;
    }
  }

  /** The configuration the loop ends with: the one in the last successful
      fetch, or `current` if no fetch succeeded. */
  function LastFetched(rounds: seq<Round>, current: Option<Config>): Option<Config>
    decreases |rounds|
  {
    if rounds == [] then current
    else if rounds[|rounds| - 1].config.Fetched? then Some(rounds[|rounds| - 1].config.config)
    else LastFetched(rounds[..|rounds| - 1], current)
  }

  /** A registered edge with a site holds the configuration of the last
      successful fetch, and fetches its own edge's configuration URL once per
      round. */
  lemma {:induction false} ConfigFollowsLastFetch(e: Edge, rounds: seq<Round>)
    requires e.registered && Truthy(e.siteId)
    ensures Loop(e, rounds).0 == e.(config := LastFetched(rounds, e.config))
    ensures |Loop(e, rounds).1| == |rounds|
    ensures forall i :: 0 <= i < |rounds| ==> Loop(e, rounds).1[i] == GetConfig(ConfigUrl(e))
    decreases |rounds|
  {
    if rounds != [] {
      var init, last := rounds[..|rounds| - 1], rounds[|rounds| - 1];
      ConfigFollowsLastFetch(e, init);
      var before := Loop(e, init);
      var after := Step(before.0, last);
      assert ConfigUrl(before.0) == ConfigUrl(e);
      assert after.1 == [GetConfig(ConfigUrl(e))];
      assert Loop(e, rounds).1 == before.1 + after.1;
    }
  }

  /** `status` reports the edge's own identity, registration, site and
      configuration, and nothing of its token or cloud URL. */
  lemma StatusReportsFields(e: Edge)
    ensures Status(e).edgeId == e.edgeId && Status(e).registered == e.registered
    ensures Status(e).siteId == e.siteId && Status(e).config == e.config
    ensures forall t: Option<string>, u: string :: Status(e.(token := t, cloudUrl := u)) == Status(e)
  {
  }
}
