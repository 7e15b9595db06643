/** Layered configuration: the deep merge of two layers, and the migration of old settings. */
module ConfigLayers {
  import opened Wrappers
  import opened PyStrings

  /** The names the migration looks at, and any other. */
  datatype Name =
    | Tools | LoopDetectionCamel | LoopDetection
    | Gateway | Token | Auth | Mode | Heartbeat | IntervalS | IntervalSCamel
    | Scheduler | HeartbeatIntervalSeconds
    | Provider | Model | Agents | Defaults
    | Other(text: string)

  datatype Value = Null | Flag(on: bool) | Number(n: int) | Text(text: string) | Dict(entries: map<Name, Value>)

  // ---------- The deep merge ----------

  /** What comes of a value in the lower layer and one in the upper layer. */
  function Merge(a: Value, b: Value): Value
    decreases b
  {
    if a.Dict? && b.Dict? then
      Dict(map k | k in a.entries.Keys + b.entries.Keys ::
             if k !in b.entries then a.entries[k] else if k !in a.entries then b.entries[k] else Merge(a.entries[k], b.entries[k]))
    else b
  }

  lemma MergeKeys(a: Value, b: Value)
    requires a.Dict? && b.Dict?
    ensures Merge(a, b).Dict? && Merge(a, b).entries.Keys == a.entries.Keys + b.entries.Keys
  {
  }

  lemma MergeAt(a: Value, b: Value, k: Name)
    requires a.Dict? && b.Dict? && (k in a.entries || k in b.entries)
    ensures Merge(a, b).Dict? && k in Merge(a, b).entries
    ensures Merge(a, b).entries[k]
            == if k !in b.entries then a.entries[k] else if k !in a.entries then b.entries[k] else Merge(a.entries[k], b.entries[k])
  {
  }

  lemma SameDict(a: Value, b: Value)
    requires a.Dict? && b.Dict? && a.entries.Keys == b.entries.Keys && forall k :: k in a.entries ==> a.entries[k] == b.entries[k]
    ensures a == b
  {
    assert a.entries == b.entries;
  }

  /** `_deep_merge`: the overlay's entries one after the other. */
  method DeepMerge(base: map<Name, Value>, extra: map<Name, Value>) returns (out: map<Name, Value>)
    ensures Dict(out) == Merge(Dict(base), Dict(extra))
    decreases Dict(extra)
  {
    out := base;
    var rest := extra.Keys;
    while rest != {}
      invariant rest <= extra.Keys && out.Keys == base.Keys + (extra.Keys - rest)
      invariant forall k :: k in out ==>
                  out[k] == if k !in extra || k in rest then base[k] else if k !in base then extra[k] else Merge(base[k], extra[k])
      decreases rest
    {
      var key :| key in rest;
      var value := extra[key];
      if value.Dict? && key in out && out[key].Dict? {
        var merged := DeepMerge(out[key].entries, value.entries);
        out := out[key := Dict(merged)];
      } else {
        out := out[key := value];
      }
      rest := rest - {key};
    }
    ghost var whole := Merge(Dict(base), Dict(extra));
    SameDict(Dict(out), whole);
  }

  /** Merging the same overlay again changes nothing. */
  lemma {:induction false} OverlayTwice(a: Value, b: Value)
    ensures Merge(Merge(a, b), b) == Merge(a, b)
    decreases b
  {
    if a.Dict? && b.Dict? {
      var m := Merge(a, b);
      MergeKeys(a, b);
      MergeKeys(m, b);
      forall k | k in m.entries ensures Merge(m, b).entries[k] == m.entries[k] {
        MergeAt(a, b, k);
        MergeAt(m, b, k);
        if k in b.entries {
          if k in a.entries { OverlayTwice(a.entries[k], b.entries[k]); } else { MergeItself(b.entries[k]); }
        }
      }
      SameDict(Merge(m, b), m);
    } else {
      MergeItself(b);
    }
  }

  lemma {:induction false} MergeItself(b: Value)
    ensures Merge(b, b) == b
    decreases b
  {
    if b.Dict? {
      MergeKeys(b, b);
      forall k | k in b.entries ensures Merge(b, b).entries[k] == b.entries[k] {
        MergeAt(b, b, k);
        MergeItself(b.entries[k]);
      }
      SameDict(Merge(b, b), b);
    }
  }

  // ---------- Paths ----------

  function At(v: Value, path: seq<Name>): Option<Value> {
    if path == [] then Some(v)
    else if v.Dict? && path[0] in v.entries then At(v.entries[path[0]], path[1..])
    else None
  }

  /** Every value of the overlay that is not a mapping is found at its path in the result. */
  lemma {:induction false} LeafWins(a: Value, b: Value, path: seq<Name>)
    requires At(b, path).Some? && !At(b, path).value.Dict?
    ensures At(Merge(a, b), path) == At(b, path)
  {
    if path != [] && a.Dict? {
      MergeAt(a, b, path[0]);
      if path[0] in a.entries { LeafWins(a.entries[path[0]], b.entries[path[0]], path[1..]); }
    }
  }

  /** The overlay's mappings lead along the path and then lack its next name. */
  predicate Lacks(b: Value, path: seq<Name>) {
    path != [] && b.Dict? && (path[0] !in b.entries || Lacks(b.entries[path[0]], path[1..]))
  }

  /** Where the overlay says nothing, the lower layer is found as it was. */
  lemma {:induction false} UntouchedSurvives(a: Value, b: Value, path: seq<Name>)
    requires Lacks(b, path)
    ensures At(Merge(a, b), path) == At(a, path)
  {
    if a.Dict? {
      if path[0] in a.entries || path[0] in b.entries { MergeAt(a, b, path[0]); }
      if path[0] in b.entries {
        if path[0] in a.entries { UntouchedSurvives(a.entries[path[0]], b.entries[path[0]], path[1..]); }
        else { LackingIsAbsent(b.entries[path[0]], path[1..]); }
      }
    } else {
      LackingIsAbsent(b, path);
    }
  }

  lemma {:induction false} LackingIsAbsent(b: Value, path: seq<Name>)
    requires Lacks(b, path)
    ensures At(b, path) == None
  {
    if path[0] in b.entries { LackingIsAbsent(b.entries[path[0]], path[1..]); }
  }

  // ---------- Three layers ----------

  /** The upper value says something of everything in the lower one. */
  predicate Covers(c: Value, a: Value)
    decreases a
  {
    !(a.Dict? && c.Dict?) || forall k :: k in a.entries ==> k in c.entries && Covers(c.entries[k], a.entries[k])
  }

  lemma {:induction false} CoversIff(c: Value, a: Value)
    ensures Covers(c, a) <==> Merge(a, c) == c
    decreases a
  {
    if a.Dict? && c.Dict? {
      MergeKeys(a, c);
      forall k | k in a.entries && k in c.entries ensures Covers(c.entries[k], a.entries[k]) <==> Merge(a, c).entries[k] == c.entries[k] {
        MergeAt(a, c, k);
        CoversIff(c.entries[k], a.entries[k]);
      }
      forall k | k in c.entries && k !in a.entries ensures Merge(a, c).entries[k] == c.entries[k] { MergeAt(a, c, k); }
      if Covers(c, a) { SameDict(Merge(a, c), c); }
      if Merge(a, c) == c {
        assert forall k :: k in a.entries ==> k in c.entries;
      }
    }
  }

  /** Wherever the middle layer replaces a mapping by a value and the upper layer has a mapping again, that one covers the first. */
  predicate Associates(a: Value, b: Value, c: Value)
    decreases a
  {
    if a.Dict? && c.Dict? then
      if b.Dict? then
        forall k :: k in a.entries && k in b.entries && k in c.entries ==> Associates(a.entries[k], b.entries[k], c.entries[k])
      else Covers(c, a)
    else true
  }

  /** Three layers can be merged in either grouping exactly under that condition. */
  lemma {:induction false} AssociativeIff(a: Value, b: Value, c: Value)
    ensures Merge(Merge(a, b), c) == Merge(a, Merge(b, c)) <==> Associates(a, b, c)
    decreases a
  {
    if a.Dict? && c.Dict? {
      if b.Dict? {
        DictsAssociateIff(a, b, c);
      } else {
        CoversIff(c, a);
      }
    }
  }

  lemma {:induction false} DictsAssociateIff(a: Value, b: Value, c: Value)
    requires a.Dict? && b.Dict? && c.Dict?
    ensures Merge(Merge(a, b), c) == Merge(a, Merge(b, c)) <==> Associates(a, b, c)
    decreases a, 0
  {
    var left, right := Merge(Merge(a, b), c), Merge(a, Merge(b, c));
    MergeKeys(a, b);
    MergeKeys(b, c);
    MergeKeys(Merge(a, b), c);
    MergeKeys(a, Merge(b, c));
    forall k | k in left.entries
      ensures left.entries[k] == right.entries[k]
              <==> !(k in a.entries && k in b.entries && k in c.entries) || Associates(a.entries[k], b.entries[k], c.entries[k])
    {
      MergeAt(Merge(a, b), c, k);
      MergeAt(a, Merge(b, c), k);
      if k in a.entries || k in b.entries { MergeAt(a, b, k); }
      if k in b.entries || k in c.entries { MergeAt(b, c, k); }
      if k in a.entries && k in b.entries && k in c.entries { AssociativeIff(a.entries[k], b.entries[k], c.entries[k]); }
    }
    if Associates(a, b, c) { SameDict(left, right); }
    if left == right {
      forall k | k in a.entries && k in b.entries && k in c.entries ensures Associates(a.entries[k], b.entries[k], c.entries[k]) {
        assert k in left.entries;
      }
    }
  }

  // ---------- Migration ----------

  /** The printed form of a value; `show` prints mappings that are not empty. */
  function Str(v: Value, show: map<Name, Value> -> string): string {
    match v
    case Null => "None"
    case Flag(on) => if on then "True" else "False"
    case Number(n) => if n < 0 then "-" + Decimal(-n) else Decimal(n)
    case Text(s) => s
    case Dict(entries) => if entries == map[] then "{}" else show(entries)
  }

  predicate Truthy(v: Value) {
    match v
    case Null => false
    case Flag(on) => on
    case Number(n) => n != 0
    case Text(s) => s != ""
    case Dict(entries) => entries != map[]
  }

  /** `get(name)`: a missing entry reads as null. */
  function Get(d: map<Name, Value>, name: Name): Value {
    if name in d then d[name] else Null
  }

  /** `str(get(name, "") or "").strip()`. */
  function StrOf(d: map<Name, Value>, name: Name, show: map<Name, Value> -> string): string {
    if Truthy(Get(d, name)) then Strip(Str(Get(d, name), show)) else ""
  }

  /** `dict(get(name) or {})`: a value that is neither a mapping nor false raises. */
  function Section(d: map<Name, Value>, name: Name): Result<map<Name, Value>> {
    AsSection(Get(d, name))
  }

  function AsSection(v: Value): Result<map<Name, Value>> {
    if v.Dict? then Success(v.entries) else if Truthy(v) then Failure("not a mapping") else Success(map[])
  }

  type Config = map<Name, Value>

  function MigrateTools(cfg: Config): Config {
    var tools := Get(cfg, Tools);
    if tools.Dict? && LoopDetectionCamel in tools.entries && LoopDetection !in tools.entries then
      var legacy := tools.entries[LoopDetectionCamel];
      cfg[Tools := Dict(tools.entries[LoopDetection := if legacy.Dict? then legacy else Dict(map[])])]
    else cfg
  }

  function WithToken(auth: map<Name, Value>, token: string, show: map<Name, Value> -> string): map<Name, Value> {
    var a := if StrOf(auth, Token, show) == "" then auth[Token := Text(token)] else auth;
    if Lower(StrOf(a, Mode, show)) == "required" || Lower(StrOf(a, Mode, show)) == "optional" then a else a[Mode := Text("required")]
  }

  function MigrateGateway(cfg: Config, show: map<Name, Value> -> string): Result<Config> {
    var gateway := Get(cfg, Gateway);
    if !gateway.Dict? then Success(cfg)
    else
      var token := StrOf(gateway.entries, Token, show);
      var rest := gateway.entries - {Token};
      if token == "" then Success(cfg[Gateway := Dict(rest)])
      else
        match Section(rest, Auth)
        case Failure(e) => Failure(e)
        case Success(auth) => Success(cfg[Gateway := Dict(rest[Auth := Dict(WithToken(auth, token, show))])])
  }

  function MigrateScheduler(cfg: Config): Result<Config> {
    var scheduler := Get(cfg, Scheduler);
    if !scheduler.Dict? then Success(cfg)
    else
      match Section(cfg, Gateway)
      case Failure(e) => Failure(e)
      case Success(gateway) =>
        match Section(gateway, Heartbeat)
        case Failure(e) => Failure(e)
        case Success(heartbeat) =>
          var interval := Get(scheduler.entries, HeartbeatIntervalSeconds);
          if interval != Null && IntervalS !in heartbeat && IntervalSCamel !in heartbeat
          then Success(cfg[Gateway := Dict(gateway[Heartbeat := Dict(heartbeat[IntervalS := interval])])])
          else Success(cfg)
  }

  function MigrateAgents(cfg: Config, show: map<Name, Value> -> string): Result<Config> {
    match Section(cfg, Agents)
    case Failure(e) => Failure(e)
    case Success(agents) =>
      match Section(agents, Defaults)
      case Failure(e) => Failure(e)
      case Success(defaults) =>
        var provider := Get(cfg, Provider);
        var model := if provider.Dict? then StrOf(provider.entries, Model, show) else "";
        var more := if model != "" && Model !in defaults then defaults[Model := Text(model)] else defaults;
        if more == map[] then Success(cfg) else Success(cfg[Agents := Dict(agents[Defaults := Dict(more)])])
  }

  function Migrate(cfg: Config, show: map<Name, Value> -> string): Result<Config> {
    match MigrateGateway(MigrateTools(cfg), show)
    case Failure(e) => Failure(e)
    case Success(c1) =>
      match MigrateScheduler(c1)
      case Failure(e) => Failure(e)
      case Success(c2) => MigrateAgents(c2, show)
  }

  lemma SetSame(d: map<Name, Value>, name: Name, v: Value)
    requires name in d && d[name] == v
    ensures d[name := v] == d
  {
  }

  predicate ToolsDone(tools: Value) {
    tools.Dict? && LoopDetectionCamel in tools.entries ==> LoopDetection in tools.entries
  }

  lemma ToolsSettle(cfg: Config)
    ensures ToolsDone(Get(MigrateTools(cfg), Tools))
    ensures forall k :: k != Tools ==> Get(MigrateTools(cfg), k) == Get(cfg, k)
    ensures ToolsDone(Get(cfg, Tools)) ==> MigrateTools(cfg) == cfg
  {
  }

  ghost predicate NoLegacyToken(cfg: Config) {
    Get(cfg, Gateway).Dict? ==> Token !in Get(cfg, Gateway).entries
  }

  lemma GatewaySettles(cfg: Config, show: map<Name, Value> -> string)
    ensures var r := MigrateGateway(cfg, show);
            r.Success? ==> NoLegacyToken(r.value) && forall k :: k != Gateway ==> Get(r.value, k) == Get(cfg, k)
    ensures NoLegacyToken(cfg) ==> MigrateGateway(cfg, show) == Success(cfg)
  {
    var gateway := Get(cfg, Gateway);
    if gateway.Dict? && Token !in gateway.entries {
      assert gateway.entries - {Token} == gateway.entries;
      SetSame(cfg, Gateway, gateway);
    }
  }

  /** There is no interval to move, or the heartbeat has one. */
  predicate SchedulerDone(scheduler: Value, gateway: Value) {
    scheduler.Dict? ==>
      var g := AsSection(gateway);
      g.Success? &&
      var h := Section(g.value, Heartbeat);
      h.Success? &&
      (Get(scheduler.entries, HeartbeatIntervalSeconds) == Null || IntervalS in h.value || IntervalSCamel in h.value)
  }

  lemma SchedulerSettles(cfg: Config)
    ensures var r := MigrateScheduler(cfg);
            r.Success? ==>
              && SchedulerDone(Get(r.value, Scheduler), Get(r.value, Gateway)) && (NoLegacyToken(cfg) ==> NoLegacyToken(r.value))
              && forall k :: k != Gateway ==> Get(r.value, k) == Get(cfg, k)
    ensures SchedulerDone(Get(cfg, Scheduler), Get(cfg, Gateway)) ==> MigrateScheduler(cfg) == Success(cfg)
  {
  }

  lemma AgentsSettle(cfg: Config, show: map<Name, Value> -> string)
    ensures var r := MigrateAgents(cfg, show);
            r.Success? ==> MigrateAgents(r.value, show) == r && forall k :: k != Agents ==> Get(r.value, k) == Get(cfg, k)
  {
    var r := MigrateAgents(cfg, show);
    if r.Success? && r.value != cfg {
      var agents := Get(r.value, Agents);
      SetSame(agents.entries, Defaults, agents.entries[Defaults]);
      SetSame(r.value, Agents, agents);
    }
  }

  /** A migrated configuration is left as it is. */
  lemma MigrateTwice(cfg: Config, show: map<Name, Value> -> string)
    ensures var r := Migrate(cfg, show); r.Success? ==> Migrate(r.value, show) == r
  {
    var r := Migrate(cfg, show);
    if r.Success? {
      var c0 := MigrateTools(cfg);
      var c1 := MigrateGateway(c0, show).value;
      var c2 := MigrateScheduler(c1).value;
      ToolsSettle(cfg);
      GatewaySettles(c0, show);
      SchedulerSettles(c1);
      AgentsSettle(c2, show);
      ToolsSettle(r.value);
      GatewaySettles(r.value, show);
      SchedulerSettles(r.value);
    }
  }

  /** Only the sections for tools, gateway and agents change. */
  lemma MigrateKeepsOthers(cfg: Config, k: Name, show: map<Name, Value> -> string)
    requires k != Tools && k != Gateway && k != Agents
    ensures var r := Migrate(cfg, show); r.Success? ==> Get(r.value, k) == Get(cfg, k)
  {
    var r := Migrate(cfg, show);
    if r.Success? {
      var c0 := MigrateTools(cfg);
      var c1 := MigrateGateway(c0, show).value;
      ToolsSettle(cfg);
      GatewaySettles(c0, show);
      SchedulerSettles(c1);
      AgentsSettle(MigrateScheduler(c1).value, show);
    }
  }

  /** A legacy token moves to the auth section, where an explicit token wins, and the mode is a known one. */
  lemma LegacyTokenMoves(cfg: Config, show: map<Name, Value> -> string)
    requires Get(cfg, Gateway).Dict? && StrOf(Get(cfg, Gateway).entries, Token, show) != ""
    requires MigrateGateway(cfg, show).Success?
    ensures var before, after := Get(cfg, Gateway).entries, Get(MigrateGateway(cfg, show).value, Gateway);
            && after.Dict? && Token !in after.entries && Auth in after.entries && after.entries[Auth].Dict?
            && var was, auth := if Get(before, Auth).Dict? then Get(before, Auth).entries else map[], after.entries[Auth].entries;
               && StrOf(auth, Token, show) == (if StrOf(was, Token, show) != "" then StrOf(was, Token, show) else StrOf(before, Token, show))
               && Lower(StrOf(auth, Mode, show)) in ["required", "optional"]
  {
    var before := Get(cfg, Gateway).entries;
    var token := StrOf(before, Token, show);
    var rest := before - {Token};
    assert Get(rest, Auth) == Get(before, Auth);
    TokenIsKept(Section(rest, Auth).value, token, show);
  }

  lemma TokenIsKept(auth: map<Name, Value>, token: string, show: map<Name, Value> -> string)
    requires token != "" && Stripped(token)
    ensures var a := WithToken(auth, token, show);
            && StrOf(a, Token, show) == (if StrOf(auth, Token, show) != "" then StrOf(auth, Token, show) else token)
            && Lower(StrOf(a, Mode, show)) in ["required", "optional"]
  {
    assert Stripped("required") && Lower("required") == "required";
  }

  lemma HeartbeatIsKept(cfg: Config, show: map<Name, Value> -> string)
    ensures var r := MigrateGateway(cfg, show);
            r.Success? ==>
              && (Section(r.value, Gateway).Success? <==> Section(cfg, Gateway).Success?)
              && (Section(cfg, Gateway).Success? ==>
                    Get(Section(r.value, Gateway).value, Heartbeat) == Get(Section(cfg, Gateway).value, Heartbeat))
  {
  }

  /** A legacy token has to move, and the auth section is neither a mapping nor false. */
  predicate TokenSticks(gateway: Value, show: map<Name, Value> -> string) {
    gateway.Dict? && StrOf(gateway.entries, Token, show) != "" && Section(gateway.entries, Auth).Failure?
  }

  /** With a scheduler section, the gateway or its heartbeat is neither a mapping nor false. */
  predicate IntervalSticks(scheduler: Value, gateway: Value) {
    scheduler.Dict? && (AsSection(gateway).Failure? || Section(AsSection(gateway).value, Heartbeat).Failure?)
  }

  predicate DefaultsStick(agents: Value) {
    AsSection(agents).Failure? || Section(AsSection(agents).value, Defaults).Failure?
  }

  lemma StagesRaiseIff(cfg: Config, show: map<Name, Value> -> string)
    ensures MigrateGateway(cfg, show).Failure? <==> TokenSticks(Get(cfg, Gateway), show)
    ensures MigrateScheduler(cfg).Failure? <==> IntervalSticks(Get(cfg, Scheduler), Get(cfg, Gateway))
    ensures MigrateAgents(cfg, show).Failure? <==> DefaultsStick(Get(cfg, Agents))
  {
  }

  lemma IntervalSticksAlike(scheduler: Value, before: Config, after: Config)
    requires Section(after, Gateway).Success? <==> Section(before, Gateway).Success?
    requires Section(before, Gateway).Success? ==>
               Get(Section(after, Gateway).value, Heartbeat) == Get(Section(before, Gateway).value, Heartbeat)
    ensures IntervalSticks(scheduler, Get(after, Gateway)) <==> IntervalSticks(scheduler, Get(before, Gateway))
  {
  }

  lemma LaterStagesRaiseIff(cfg: Config, show: map<Name, Value> -> string)
    ensures var r := MigrateScheduler(cfg);
            (r.Failure? || MigrateAgents(r.value, show).Failure?)
            <==> IntervalSticks(Get(cfg, Scheduler), Get(cfg, Gateway)) || DefaultsStick(Get(cfg, Agents))
  {
    StagesRaiseIff(cfg, show);
    if MigrateScheduler(cfg).Success? {
      SchedulerSettles(cfg);
      StagesRaiseIff(MigrateScheduler(cfg).value, show);
    }
  }

  lemma GatewayStageKeepsLater(cfg: Config, show: map<Name, Value> -> string)
    requires MigrateGateway(cfg, show).Success?
    ensures var after := MigrateGateway(cfg, show).value;
            && (IntervalSticks(Get(after, Scheduler), Get(after, Gateway)) <==> IntervalSticks(Get(cfg, Scheduler), Get(cfg, Gateway)))
            && (DefaultsStick(Get(after, Agents)) <==> DefaultsStick(Get(cfg, Agents)))
  {
    GatewaySettles(cfg, show);
    HeartbeatIsKept(cfg, show);
    IntervalSticksAlike(Get(cfg, Scheduler), cfg, MigrateGateway(cfg, show).value);
  }

  /** The migration raises exactly when a section it opens holds something that is neither a mapping nor false. */
  lemma MigrateRaisesIff(cfg: Config, show: map<Name, Value> -> string)
    ensures Migrate(cfg, show).Failure? <==>
              || TokenSticks(Get(cfg, Gateway), show)
              || IntervalSticks(Get(cfg, Scheduler), Get(cfg, Gateway))
              || DefaultsStick(Get(cfg, Agents))
  {
    var c0 := MigrateTools(cfg);
    ToolsSettle(cfg);
    StagesRaiseIff(c0, show);
    if MigrateGateway(c0, show).Success? {
      GatewayStageKeepsLater(c0, show);
      LaterStagesRaiseIff(MigrateGateway(c0, show).value, show);
    }
  }

  /** The code: each section is copied, changed and put back. */
  method MigrateConfig(raw: Config, show: map<Name, Value> -> string) returns (r: Result<Config>)
    ensures r == Migrate(raw, show)
  {
    var cfg := MigrateTools(raw);

    var gateway := Get(cfg, Gateway);
    if gateway.Dict? {
      var entries := gateway.entries - {Token};
      var token := StrOf(gateway.entries, Token, show);
      if token != "" {
        var auth := Section(entries, Auth);
        if auth.Failure? { return Failure(auth.error); }
        var a := auth.value;
        if StrOf(a, Token, show) == "" { a := a[Token := Text(token)]; }
        var mode := Lower(StrOf(a, Mode, show));
        if mode != "required" && mode != "optional" { a := a[Mode := Text("required")]; }
        entries := entries[Auth := Dict(a)];
      }
      cfg := cfg[Gateway := Dict(entries)];
    }

    var scheduler := Get(cfg, Scheduler);
    if scheduler.Dict? {
      var interval := Get(scheduler.entries, HeartbeatIntervalSeconds);
      var section := Section(cfg, Gateway);
      if section.Failure? { return Failure(section.error); }
      var heartbeat := Section(section.value, Heartbeat);
      if heartbeat.Failure? { return Failure(heartbeat.error); }
      if interval != Null && IntervalS !in heartbeat.value && IntervalSCamel !in heartbeat.value {
        cfg := cfg[Gateway := Dict(section.value[Heartbeat := Dict(heartbeat.value[IntervalS := interval])])];
      }
    }

    r := MigrateAgents(cfg, show);
  }
}
