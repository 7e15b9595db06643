/** What the migration of old settings changes, path by path, and that it changes nothing else. */
module ConfigMigration {
  import opened Wrappers
  import opened PyStrings
  import opened ConfigLayers

  /** The value at a path of the whole configuration. */
  function Read(cfg: Config, path: seq<Name>): Option<Value> {
    At(Dict(cfg), path)
  }

  const LOOP := [Tools, LoopDetection]
  const LEGACY_TOKEN := [Gateway, Token]
  const AUTH_TOKEN := [Gateway, Auth, Token]
  const AUTH_MODE := [Gateway, Auth, Mode]
  const INTERVAL := [Gateway, Heartbeat, IntervalS]
  const INTERVAL_CAMEL := [Gateway, Heartbeat, IntervalSCamel]
  const DEFAULT_MODEL := [Agents, Defaults, Model]

  /** Neither path leads through the other. */
  predicate Apart(p: seq<Name>, q: seq<Name>) {
    !(p <= q) && !(q <= p)
  }

  lemma DifferAt(p: seq<Name>, q: seq<Name>, i: nat)
    requires i < |p| && i < |q| && p[i] != q[i]
    ensures Apart(p, q)
  {
  }

  /** The settings of the gateway section and the others do not overlap, nor do the token and the interval. */
  lemma SettingsAreApart()
    ensures forall p, q :: p in [LEGACY_TOKEN, AUTH_TOKEN, AUTH_MODE, INTERVAL, INTERVAL_CAMEL] && q in [LOOP, DEFAULT_MODEL] ==> Apart(p, q) && Apart(q, p)
    ensures forall p, q :: p in [LEGACY_TOKEN, AUTH_TOKEN, AUTH_MODE] && q in [INTERVAL, INTERVAL_CAMEL] ==> Apart(p, q) && Apart(q, p)
    ensures Apart(LOOP, DEFAULT_MODEL) && Apart(DEFAULT_MODEL, LOOP)
  {
    forall p, q | p in [LEGACY_TOKEN, AUTH_TOKEN, AUTH_MODE, INTERVAL, INTERVAL_CAMEL] && q in [LOOP, DEFAULT_MODEL]
      ensures Apart(p, q) && Apart(q, p)
    {
      DifferAt(p, q, 0);
      DifferAt(q, p, 0);
    }
    forall p, q | p in [LEGACY_TOKEN, AUTH_TOKEN, AUTH_MODE] && q in [INTERVAL, INTERVAL_CAMEL] ensures Apart(p, q) && Apart(q, p) {
      DifferAt(p, q, 1);
      DifferAt(q, p, 1);
    }
    DifferAt(LOOP, DEFAULT_MODEL, 0);
    DifferAt(DEFAULT_MODEL, LOOP, 0);
  }

  // ---------- Reading changed mappings ----------

  lemma ReadSet(d: map<Name, Value>, name: Name, v: Value, path: seq<Name>)
    requires path != []
    ensures At(Dict(d[name := v]), path) == if path[0] == name then At(v, path[1..]) else At(Dict(d), path)
  {
  }

  lemma ReadWithout(d: map<Name, Value>, name: Name, path: seq<Name>)
    requires path != [] && path[0] != name
    ensures At(Dict(d - {name}), path) == At(Dict(d), path)
  {
  }

  /** A section that is missing or false reads like an empty one. */
  lemma ReadSection(d: map<Name, Value>, name: Name, path: seq<Name>)
    requires Section(d, name).Success? && path != []
    ensures At(Dict(Section(d, name).value), path) == At(Dict(d), [name] + path)
  {
    assert ([name] + path)[1..] == path;
    if name in d && !d[name].Dict? {
      assert At(d[name], path) == None;
    }
  }

  lemma TailOfPath(path: seq<Name>)
    requires path != []
    ensures path == [path[0]] + path[1..]
  {
  }

  lemma TwoOfPath(path: seq<Name>)
    requires |path| >= 2
    ensures path[1..][0] == path[1] && path[1..][1..] == path[2..] && path == [path[0], path[1]] + path[2..]
  {
  }

  // ---------- One stage after the other ----------

  lemma ToolsTouchOnly(cfg: Config, path: seq<Name>)
    requires path != [] && Apart(path, LOOP)
    ensures Read(MigrateTools(cfg), path) == Read(cfg, path)
  {
    if path[0] == Tools {
      assert |path| == 1 ==> path <= LOOP;
      assert |path| >= 2 && path[1] == LoopDetection ==> LOOP <= path;
      TwoOfPath(path);
      if MigrateTools(cfg) != cfg {
        var after := MigrateTools(cfg)[Tools];
        ReadSet(cfg, Tools, after, path);
        ReadSet(cfg[Tools].entries, LoopDetection, after.entries[LoopDetection], path[1..]);
      }
    }
  }

  lemma ToolsMove(cfg: Config)
    ensures Read(MigrateTools(cfg), LOOP) ==
            if Read(cfg, LOOP).None? && Read(cfg, [Tools, LoopDetectionCamel]).Some?
            then Some(if Read(cfg, [Tools, LoopDetectionCamel]).value.Dict? then Read(cfg, [Tools, LoopDetectionCamel]).value else Dict(map[]))
            else Read(cfg, LOOP)
  {
    ReadTwo(cfg, Tools, LoopDetection);
    ReadTwo(cfg, Tools, LoopDetectionCamel);
    ReadTwo(MigrateTools(cfg), Tools, LoopDetection);
  }

  lemma ReadTwo(cfg: Config, a: Name, b: Name)
    ensures Read(cfg, [a, b]) ==
            if a in cfg && cfg[a].Dict? && b in cfg[a].entries then Some(cfg[a].entries[b]) else None
  {
    assert [a, b][1..] == [b] && [b][1..] == [];
    if a in cfg { assert At(cfg[a], [b]) == if cfg[a].Dict? && b in cfg[a].entries then At(cfg[a].entries[b], []) else None; }
  }

  /** What the token stage leaves of an auth section. */
  lemma WithTokenTouchesOnly(auth: map<Name, Value>, token: string, show: map<Name, Value> -> string, path: seq<Name>)
    requires path != [] && path[0] != Token && path[0] != Mode
    ensures At(Dict(WithToken(auth, token, show)), path) == At(Dict(auth), path)
  {
  }

  lemma GatewayTouchesOnly(cfg: Config, show: map<Name, Value> -> string, path: seq<Name>)
    requires path != [] && MigrateGateway(cfg, show).Success?
    requires Apart(path, LEGACY_TOKEN) && Apart(path, AUTH_TOKEN) && Apart(path, AUTH_MODE)
    ensures Read(MigrateGateway(cfg, show).value, path) == Read(cfg, path)
  {
    var gateway := Get(cfg, Gateway);
    if path[0] == Gateway && gateway.Dict? {
      var after := MigrateGateway(cfg, show).value;
      GatewayPaths(path);
      TailOfPath(path);
      ReadSet(cfg, Gateway, Get(after, Gateway), path);
      GatewayEntriesTouchOnly(gateway.entries, Get(after, Gateway), cfg, show, path[1..]);
    }
  }

  lemma GatewayPaths(path: seq<Name>)
    requires path != [] && path[0] == Gateway && Apart(path, LEGACY_TOKEN) && Apart(path, AUTH_TOKEN) && Apart(path, AUTH_MODE)
    ensures |path| >= 2 && path[1] != Token
    ensures path[1] == Auth ==> |path| >= 3 && path[2] != Token && path[2] != Mode
  {
    assert |path| == 1 ==> path <= LEGACY_TOKEN;
    assert |path| >= 2 && path[1] == Token ==> LEGACY_TOKEN <= path;
    assert |path| == 2 && path[1] == Auth ==> path <= AUTH_TOKEN;
    assert |path| >= 3 && path[1] == Auth && path[2] == Token ==> AUTH_TOKEN <= path;
    assert |path| >= 3 && path[1] == Auth && path[2] == Mode ==> AUTH_MODE <= path;
  }

  lemma GatewayEntriesTouchOnly(before: map<Name, Value>, after: Value, cfg: Config, show: map<Name, Value> -> string, path: seq<Name>)
    requires Get(cfg, Gateway) == Dict(before) && MigrateGateway(cfg, show).Success? && after == Get(MigrateGateway(cfg, show).value, Gateway)
    requires path != [] && path[0] != Token && (path[0] == Auth ==> |path| >= 2 && path[1] != Token && path[1] != Mode)
    ensures At(after, path) == At(Dict(before), path)
  {
    var rest := before - {Token};
    ReadWithout(before, Token, path);
    if StrOf(before, Token, show) != "" {
      var auth := Section(rest, Auth).value;
      var auth' := WithToken(auth, StrOf(before, Token, show), show);
      ReadSet(rest, Auth, Dict(auth'), path);
      if path[0] == Auth {
        TailOfPath(path);
        WithTokenTouchesOnly(auth, StrOf(before, Token, show), show, path[1..]);
        ReadSection(rest, Auth, path[1..]);
      }
    }
  }

  lemma SchedulerTouchesOnly(cfg: Config, path: seq<Name>)
    requires path != [] && MigrateScheduler(cfg).Success? && Apart(path, INTERVAL)
    ensures Read(MigrateScheduler(cfg).value, path) == Read(cfg, path)
  {
    var after := MigrateScheduler(cfg).value;
    if path[0] == Gateway && after != cfg {
      assert |path| == 1 ==> path <= INTERVAL;
      assert |path| == 2 && path[1] == Heartbeat ==> path <= INTERVAL;
      assert |path| >= 3 && path[1] == Heartbeat && path[2] == IntervalS ==> INTERVAL <= path;
      TwoOfPath(path);
      TailOfPath(path);
      var gateway := Section(cfg, Gateway).value;
      var heartbeat := Section(gateway, Heartbeat).value;
      var interval := Get(Get(cfg, Scheduler).entries, HeartbeatIntervalSeconds);
      ReadSet(cfg, Gateway, Dict(gateway[Heartbeat := Dict(heartbeat[IntervalS := interval])]), path);
      ReadSet(gateway, Heartbeat, Dict(heartbeat[IntervalS := interval]), path[1..]);
      ReadSection(cfg, Gateway, path[1..]);
      if path[1] == Heartbeat {
        TailOfPath(path[1..]);
        ReadSet(heartbeat, IntervalS, interval, path[2..]);
        ReadSection(gateway, Heartbeat, path[2..]);
      }
    }
  }

  lemma AgentsTouchOnly(cfg: Config, show: map<Name, Value> -> string, path: seq<Name>)
    requires path != [] && MigrateAgents(cfg, show).Success? && Apart(path, DEFAULT_MODEL)
    ensures Read(MigrateAgents(cfg, show).value, path) == Read(cfg, path)
  {
    var after := MigrateAgents(cfg, show).value;
    if path[0] == Agents && after != cfg {
      assert |path| == 1 ==> path <= DEFAULT_MODEL;
      assert |path| == 2 && path[1] == Defaults ==> path <= DEFAULT_MODEL;
      assert |path| >= 3 && path[1] == Defaults && path[2] == Model ==> DEFAULT_MODEL <= path;
      TwoOfPath(path);
      TailOfPath(path);
      var agents := Section(cfg, Agents).value;
      var defaults := Section(agents, Defaults).value;
      var more := Get(after, Agents).entries[Defaults];
      ReadSet(cfg, Agents, Dict(agents[Defaults := more]), path);
      ReadSet(agents, Defaults, more, path[1..]);
      ReadSection(cfg, Agents, path[1..]);
      if path[1] == Defaults {
        TailOfPath(path[1..]);
        ReadSection(agents, Defaults, path[2..]);
      }
    }
  }

  lemma ReadStep(v: Value, a: Name, rest: seq<Name>)
    ensures At(v, [a] + rest) == if v.Dict? && a in v.entries then At(v.entries[a], rest) else None
  {
    assert ([a] + rest)[1..] == rest;
  }

  lemma ReadThree(cfg: Config, a: Name, b: Name, c: Name)
    ensures Read(cfg, [a, b, c]) ==
            if Get(cfg, a).Dict? && Get(Get(cfg, a).entries, b).Dict? && c in Get(Get(cfg, a).entries, b).entries
            then Some(Get(Get(cfg, a).entries, b).entries[c]) else None
  {
    assert [a, b, c] == [a] + [b, c] && [b, c] == [b] + [c] && [c] == [c] + [];
    ReadStep(Dict(cfg), a, [b, c]);
    if a in cfg {
      ReadStep(cfg[a], b, [c]);
      if cfg[a].Dict? && b in cfg[a].entries { ReadStep(cfg[a].entries[b], c, []); }
    }
  }

  /** The interval that the scheduler section still holds, if it is a mapping and holds one. */
  function OldInterval(cfg: Config): Value {
    var scheduler := Get(cfg, Scheduler);
    if scheduler.Dict? then Get(scheduler.entries, HeartbeatIntervalSeconds) else Null
  }

  lemma SchedulerMoves(cfg: Config)
    requires MigrateScheduler(cfg).Success?
    ensures Read(MigrateScheduler(cfg).value, INTERVAL) ==
            if OldInterval(cfg) != Null && Read(cfg, INTERVAL).None? && Read(cfg, INTERVAL_CAMEL).None?
            then Some(OldInterval(cfg)) else Read(cfg, INTERVAL)
  {
    ReadThree(cfg, Gateway, Heartbeat, IntervalS);
    ReadThree(cfg, Gateway, Heartbeat, IntervalSCamel);
    ReadThree(MigrateScheduler(cfg).value, Gateway, Heartbeat, IntervalS);
  }

  /** The model named in the provider section, or nothing. */
  function ProviderModel(cfg: Config, show: map<Name, Value> -> string): string {
    var provider := Get(cfg, Provider);
    if provider.Dict? then StrOf(provider.entries, Model, show) else ""
  }

  lemma AgentsMove(cfg: Config, show: map<Name, Value> -> string)
    requires MigrateAgents(cfg, show).Success?
    ensures Read(MigrateAgents(cfg, show).value, DEFAULT_MODEL) ==
            if ProviderModel(cfg, show) != "" && Read(cfg, DEFAULT_MODEL).None? then Some(Text(ProviderModel(cfg, show))) else Read(cfg, DEFAULT_MODEL)
  {
    var after := MigrateAgents(cfg, show).value;
    var agents := Section(cfg, Agents).value;
    var defaults := Section(agents, Defaults).value;
    var model := ProviderModel(cfg, show);
    var more := if model != "" && Model !in defaults then defaults[Model := Text(model)] else defaults;
    ReadThree(cfg, Agents, Defaults, Model);
    ReadThree(after, Agents, Defaults, Model);
    assert Model in defaults <==> Read(cfg, DEFAULT_MODEL).Some?;
    if more != map[] {
      assert after == cfg[Agents := Dict(agents[Defaults := Dict(more)])];
    } else {
      assert Model !in more;
    }
  }

  /** The text of a value, stripped, or nothing if the value is missing or false. */
  function TextOf(v: Option<Value>, show: map<Name, Value> -> string): string {
    if v.Some? && Truthy(v.value) then Strip(Str(v.value, show)) else ""
  }

  predicate IsMode(s: string) {
    Lower(s) == "required" || Lower(s) == "optional"
  }

  /** The auth section after the token stage. */
  lemma GatewayAuthIs(cfg: Config, show: map<Name, Value> -> string) returns (auth: map<Name, Value>)
    requires Get(cfg, Gateway).Dict? && MigrateGateway(cfg, show).Success? && TextOf(Read(cfg, LEGACY_TOKEN), show) != ""
    ensures var token, after := TextOf(Read(cfg, LEGACY_TOKEN), show), Get(MigrateGateway(cfg, show).value, Gateway);
            after.Dict? && Get(after.entries, Auth) == Dict(WithToken(auth, token, show))
    ensures forall c :: Read(cfg, [Gateway, Auth, c]) == if c in auth then Some(auth[c]) else None
  {
    ReadTwo(cfg, Gateway, Token);
    auth := Section(Get(cfg, Gateway).entries - {Token}, Auth).value;
    forall c ensures Read(cfg, [Gateway, Auth, c]) == if c in auth then Some(auth[c]) else None { ReadThree(cfg, Gateway, Auth, c); }
  }

  lemma GatewayMovesMost(cfg: Config, show: map<Name, Value> -> string)
    requires MigrateGateway(cfg, show).Success?
    ensures Read(MigrateGateway(cfg, show).value, LEGACY_TOKEN) == None
    ensures TextOf(Read(cfg, LEGACY_TOKEN), show) == "" ==>
              forall c :: Read(MigrateGateway(cfg, show).value, [Gateway, Auth, c]) == Read(cfg, [Gateway, Auth, c])
  {
    var after := MigrateGateway(cfg, show).value;
    ReadTwo(cfg, Gateway, Token);
    ReadTwo(after, Gateway, Token);
    forall c | TextOf(Read(cfg, LEGACY_TOKEN), show) == "" ensures Read(after, [Gateway, Auth, c]) == Read(cfg, [Gateway, Auth, c]) {
      ReadThree(cfg, Gateway, Auth, c);
      ReadThree(after, Gateway, Auth, c);
    }
  }

  lemma WithTokenIs(auth: map<Name, Value>, token: string, show: map<Name, Value> -> string)
    requires token != ""
    ensures var a := WithToken(auth, token, show);
            && Token in a && a[Token] == (if StrOf(auth, Token, show) == "" then Text(token) else auth[Token])
            && Mode in a && a[Mode] == if IsMode(StrOf(auth, Mode, show)) then auth[Mode] else Text("required")
  {
    assert StrOf(auth, Mode, show) == "" ==> !IsMode(StrOf(auth, Mode, show));
  }

  lemma GatewayMoves(cfg: Config, show: map<Name, Value> -> string)
    requires MigrateGateway(cfg, show).Success?
    ensures var after, token := MigrateGateway(cfg, show).value, TextOf(Read(cfg, LEGACY_TOKEN), show);
            && Read(after, LEGACY_TOKEN) == None
            && Read(after, AUTH_TOKEN) ==
               (if token != "" && TextOf(Read(cfg, AUTH_TOKEN), show) == "" then Some(Text(token)) else Read(cfg, AUTH_TOKEN))
            && Read(after, AUTH_MODE) ==
               (if token != "" && !IsMode(TextOf(Read(cfg, AUTH_MODE), show)) then Some(Text("required")) else Read(cfg, AUTH_MODE))
  {
    GatewayMovesMost(cfg, show);
    if TextOf(Read(cfg, LEGACY_TOKEN), show) != "" {
      var after, token := MigrateGateway(cfg, show).value, TextOf(Read(cfg, LEGACY_TOKEN), show);
      ReadTwo(cfg, Gateway, Token);
      var auth := GatewayAuthIs(cfg, show);
      WithTokenIs(auth, token, show);
      ReadThree(after, Gateway, Auth, Token);
      ReadThree(after, Gateway, Auth, Mode);
    }
  }

  // ---------- The whole migration ----------

  /** The path neither leads to nor through a setting that the migration may write. */
  predicate Untouched(path: seq<Name>) {
    && path != []
    && Apart(path, LOOP) && Apart(path, LEGACY_TOKEN) && Apart(path, AUTH_TOKEN) && Apart(path, AUTH_MODE)
    && Apart(path, INTERVAL) && Apart(path, DEFAULT_MODEL)
  }

  lemma Stages(cfg: Config, show: map<Name, Value> -> string) returns (c0: Config, c1: Config, c2: Config)
    requires Migrate(cfg, show).Success?
    ensures c0 == MigrateTools(cfg) && MigrateGateway(c0, show) == Success(c1) && MigrateScheduler(c1) == Success(c2)
    ensures MigrateAgents(c2, show) == Migrate(cfg, show)
  {
    c0 := MigrateTools(cfg);
    c1 := MigrateGateway(c0, show).value;
    c2 := MigrateScheduler(c1).value;
  }

  /** Whatever is not one of the six settings that move, or above or below one, is read as before, at any depth. */
  lemma MigrateTouchesOnly(cfg: Config, show: map<Name, Value> -> string, path: seq<Name>)
    requires Migrate(cfg, show).Success? && Untouched(path)
    ensures Read(Migrate(cfg, show).value, path) == Read(cfg, path)
  {
    var c0, c1, c2 := Stages(cfg, show);
    ToolsTouchOnly(cfg, path);
    GatewayTouchesOnly(c0, show, path);
    SchedulerTouchesOnly(c1, path);
    AgentsTouchOnly(c2, show, path);
  }

  /** The legacy loop detection is copied where there is no new one; one that is no mapping becomes an empty one. */
  lemma LoopDetectionMoves(cfg: Config, show: map<Name, Value> -> string)
    requires Migrate(cfg, show).Success?
    ensures var legacy := Read(cfg, [Tools, LoopDetectionCamel]);
            Read(Migrate(cfg, show).value, LOOP) ==
            if Read(cfg, LOOP).None? && legacy.Some? then Some(if legacy.value.Dict? then legacy.value else Dict(map[])) else Read(cfg, LOOP)
  {
    SettingsAreApart();
    var c0, c1, c2 := Stages(cfg, show);
    ToolsMove(cfg);
    GatewayTouchesOnly(c0, show, LOOP);
    SchedulerTouchesOnly(c1, LOOP);
    AgentsTouchOnly(c2, show, LOOP);
  }

  /** The legacy token leaves the gateway section; a non-blank one becomes the auth token unless there is one, and the mode is a known one then. */
  lemma TokenMoves(cfg: Config, show: map<Name, Value> -> string)
    requires Migrate(cfg, show).Success?
    ensures var after, token := Migrate(cfg, show).value, TextOf(Read(cfg, LEGACY_TOKEN), show);
            && Read(after, LEGACY_TOKEN) == None
            && Read(after, AUTH_TOKEN) ==
               (if token != "" && TextOf(Read(cfg, AUTH_TOKEN), show) == "" then Some(Text(token)) else Read(cfg, AUTH_TOKEN))
            && Read(after, AUTH_MODE) ==
               (if token != "" && !IsMode(TextOf(Read(cfg, AUTH_MODE), show)) then Some(Text("required")) else Read(cfg, AUTH_MODE))
  {
    SettingsAreApart();
    var c0, c1, c2 := Stages(cfg, show);
    GatewayMoves(c0, show);
    forall path | path in [LEGACY_TOKEN, AUTH_TOKEN, AUTH_MODE]
      ensures Read(c0, path) == Read(cfg, path) && Read(Migrate(cfg, show).value, path) == Read(c1, path)
    {
      ToolsTouchOnly(cfg, path);
      SchedulerTouchesOnly(c1, path);
      AgentsTouchOnly(c2, show, path);
    }
  }

  /** The scheduler's interval becomes the heartbeat's where that has none under either name. */
  lemma IntervalMoves(cfg: Config, show: map<Name, Value> -> string)
    requires Migrate(cfg, show).Success?
    ensures Read(Migrate(cfg, show).value, INTERVAL) ==
            if OldInterval(cfg) != Null && Read(cfg, INTERVAL).None? && Read(cfg, INTERVAL_CAMEL).None?
            then Some(OldInterval(cfg)) else Read(cfg, INTERVAL)
  {
    SettingsAreApart();
    var c0, c1, c2 := Stages(cfg, show);
    forall path | path in [INTERVAL, INTERVAL_CAMEL] ensures Read(c1, path) == Read(cfg, path) {
      ToolsTouchOnly(cfg, path);
      GatewayTouchesOnly(c0, show, path);
    }
    ToolsSettle(cfg);
    GatewaySettles(c0, show);
    SchedulerMoves(c1);
    AgentsTouchOnly(c2, show, INTERVAL);
  }

  /** The provider's model becomes the default one where there is none. */
  lemma ModelMoves(cfg: Config, show: map<Name, Value> -> string)
    requires Migrate(cfg, show).Success?
    ensures Read(Migrate(cfg, show).value, DEFAULT_MODEL) ==
            if ProviderModel(cfg, show) != "" && Read(cfg, DEFAULT_MODEL).None? then Some(Text(ProviderModel(cfg, show))) else Read(cfg, DEFAULT_MODEL)
  {
    SettingsAreApart();
    var c0, c1, c2 := Stages(cfg, show);
    assert Read(c2, DEFAULT_MODEL) == Read(cfg, DEFAULT_MODEL) by {
      ToolsTouchOnly(cfg, DEFAULT_MODEL);
      GatewayTouchesOnly(c0, show, DEFAULT_MODEL);
      SchedulerTouchesOnly(c1, DEFAULT_MODEL);
    }
    assert Get(c2, Provider) == Get(cfg, Provider) by {
      ToolsSettle(cfg);
      GatewaySettles(c0, show);
      SchedulerSettles(c1);
    }
    AgentsMove(c2, show);
  }
}
