/** `EdgeState` of microgrid-vps-prototype-v4/edge/app.py as a class whose
    methods update its fields in place. Each method is proved to perform the
    transition EdgeModel defines for it; the cloud's answers are parameters
    and the requests the edge would send are results. */
module EdgeApp {
  import opened Common
  import opened EdgeModel

  class EdgeState {
    var edgeId: string
    var cloudUrl: string
    var token: Option<string>
    var siteId: Option<string>
    var registered: bool
    var config: Option<Config>

    /** The fields as one value. */
    function Snapshot(): Edge
      reads this
    {
      Edge(edgeId, cloudUrl, token, siteId, registered, config)
    }

    ghost predicate Valid()
      reads this
    {
      EdgeModel.Valid(Snapshot())
    }

    /** `__init__`: unregistered, no site, no configuration, and the cloud
        URL without trailing slashes. */
    constructor (edgeId: string, cloudUrl: string, token: Option<string>)
      ensures Valid()
      ensures Snapshot() == Init(edgeId, cloudUrl, token)
    {
      this.edgeId := edgeId;
      this.cloudUrl := TrimTrailingSlashes(cloudUrl);
      this.token := token;
      this.siteId := None;
      this.registered := false;
      this.config := None;
    }

    /** `register_with_cloud`, given what the cloud would answer. */
    method RegisterWithCloud(reply: RegisterReply) returns (sent: Option<Request>)
      requires Valid()
      modifies this
      ensures Valid()
      ensures (Snapshot(), sent) == EdgeModel.RegisterWithCloud(old(Snapshot()), reply)
    {
      if !Truthy(token) {
        return None;
      }
      sent := Some(PostRegister(RegisterUrl(Snapshot()), edgeId, token.value));
      if reply.RegisterFailed? {
        return;
      }
      siteId := reply.siteId;
      token := None;
      registered := true;
    }

    /** `refresh_config`, given what the cloud would answer. */
    method RefreshConfig(reply: ConfigReply) returns (sent: Option<Request>)
      requires Valid()
      modifies this
      ensures Valid()
      ensures (Snapshot(), sent) == EdgeModel.RefreshConfig(old(Snapshot()), reply)
    {
      if !registered || !Truthy(siteId) {
        return None;
      }
      sent := Some(GetConfig(ConfigUrl(Snapshot())));
      if reply.FetchFailed? {
        return;
      }
      config := Some(reply.config);
    }

    /** One iteration of the polling loop of `run_background_tasks`. */
    method Step(round: Round) returns (sent: seq<Request>)
      requires Valid()
      modifies this
      ensures Valid()
      ensures (Snapshot(), sent) == EdgeModel.Step(old(Snapshot()), round)
    {
      var registerRequest := None;
      if !registered && Truthy(token) {
        registerRequest := RegisterWithCloud(round.register);
      }
      var refreshRequest := RefreshConfig(round.config);
      sent := Sent(registerRequest) + Sent(refreshRequest);
    }

    /** The `while True` loop of `run_background_tasks`, run for `|rounds|`
        iterations. */
    method PollingLoop(rounds: seq<Round>) returns (sent: seq<Request>)
      requires Valid()
      modifies this
      ensures Valid()
      ensures (Snapshot(), sent) == Loop(old(Snapshot()), rounds)
    {
      ghost var started := Snapshot();
      sent := [];
      var i := 0;
      while i < |rounds|
        invariant 0 <= i <= |rounds|
        invariant Valid()
        invariant (Snapshot(), sent) == Loop(started, rounds[..i])
      {
        LoopOneMore(started, rounds, i);
        var more := Step(rounds[i]);
        sent := sent + more;
        i := i + 1;
      }
      assert rounds[..i] == rounds;
    }

    /** `run_background_tasks` for `|rounds|` iterations of its loop: one
        registration attempt at start-up if a token is held, then the loop. */
    method RunBackgroundTasks(startup: RegisterReply, rounds: seq<Round>) returns (sent: seq<Request>)
      requires Valid()
      modifies this
      ensures Valid()
      ensures (Snapshot(), sent) == EdgeModel.RunBackgroundTasks(old(Snapshot()), startup, rounds)
    {
      var startupRequest := None;
      if Truthy(token) {
        startupRequest := RegisterWithCloud(startup);
      }
      var more := PollingLoop(rounds);
      sent := Sent(startupRequest) + more;
    }

    /** The `/status` handler. */
    function Status(): (r: StatusReport)
      reads this
      ensures r == EdgeModel.Status(Snapshot())
      ensures r.edgeId == edgeId && r.registered == registered
      ensures r.siteId == siteId && r.config == config
    {
      EdgeModel.Status(Snapshot())
    }
  }
}
