/** `AgentRegistry` of `src/agents/registry.ts`: an in-memory map and a database table that every
    operation updates side by side, and the table alone survives a restart. */
module Registry {
  import opened Text

  // --- Entries and rows ---

  datatype Role = Orchestrator | Lead | Coder | Reviewer | Expert | Worker | Heartbeat

  /** The configuration part of an entry. */
  datatype Profile = Profile(
    name: string, provider: string, model: string, minModel: Option<string>, maxModel: Option<string>,
    companionMode: bool, agenticMode: Option<string>, systemPrompt: Option<string>, workingDirectory: string,
    capabilities: Option<seq<string>>, alwaysCli: bool, cliFallback: Option<string>, effort: Option<string>,
    anthropicRuntime: Option<string>, sandbox: Option<string>, allowedDirectories: Option<seq<string>>,
    allowedTools: Option<seq<string>>, disallowedTools: Option<seq<string>>, mcpTools: Option<seq<string>>,
    timeoutMs: Option<int>, contextStrategy: Option<seq<string>>)

  /** The same part as table columns: flags are integers, lists are JSON text, absent values NULL. */
  datatype Columns = Columns(
    name: string, provider: string, model: string, minModel: Option<string>, maxModel: Option<string>,
    companionMode: int, agenticMode: Option<string>, systemPrompt: Option<string>, workingDirectory: string,
    capabilities: Option<string>, alwaysCli: int, cliFallback: Option<string>, effort: Option<string>,
    anthropicRuntime: Option<string>, sandbox: Option<string>, allowedDirectories: Option<string>,
    allowedTools: Option<string>, disallowedTools: Option<string>, mcpTools: Option<string>,
    timeoutMs: Option<int>, contextStrategy: Option<string>)

  datatype Stats = Stats(totalInvocations: int, totalTokensIn: int, totalTokensOut: int, totalFailures: int,
                         lastInvokedAt: Option<int>, estimatedCostCents: real,
                         delegationExpected: int, delegationActual: int)

  const NO_STATS := Stats(0, 0, 0, 0, None, 0.0, 0, 0)

  datatype Entry = Entry(profile: Profile, role: Role, enabled: bool, createdBy: string,
                         createdAt: int, updatedAt: int, stats: Stats)

  datatype Row = Row(columns: Columns, role: Role, enabled: int, createdBy: string,
                     createdAt: int, updatedAt: int, stats: Stats)

  /** `JSON.stringify` and `JSON.parse` on the values of the list columns. */
  datatype Codec = Codec(encode: seq<string> -> string, decode: string -> Option<seq<string>>)

  ghost predicate Lossless(c: Codec) {
    forall x :: c.encode(x) != "" && c.decode(c.encode(x)) == Some(x)
  }

  function Flag(b: bool): int {
    if b then 1 else 0
  }

  function EncodeList(c: Codec, x: Option<seq<string>>): Option<string> {
    if x.Some? then Some(c.encode(x.value)) else None
  }

  /** `safeJsonParse` with fallback `undefined` */
  function DecodeList(c: Codec, text: Option<string>): Option<seq<string>> {
    if text.None? || text.value == "" then None else c.decode(text.value)
  }

  function Encode(c: Codec, p: Profile): Columns {
    Columns(p.name, p.provider, p.model, p.minModel, p.maxModel, Flag(p.companionMode), p.agenticMode,
            p.systemPrompt, p.workingDirectory, EncodeList(c, p.capabilities), Flag(p.alwaysCli), p.cliFallback,
            p.effort, p.anthropicRuntime, p.sandbox, EncodeList(c, p.allowedDirectories),
            EncodeList(c, p.allowedTools), EncodeList(c, p.disallowedTools), EncodeList(c, p.mcpTools),
            p.timeoutMs, EncodeList(c, p.contextStrategy))
  }

  function Decode(c: Codec, r: Columns): Profile {
    Profile(r.name, r.provider, r.model, r.minModel, r.maxModel, r.companionMode == 1, r.agenticMode,
            r.systemPrompt, r.workingDirectory, DecodeList(c, r.capabilities), r.alwaysCli == 1, r.cliFallback,
            r.effort, r.anthropicRuntime, r.sandbox, DecodeList(c, r.allowedDirectories),
            DecodeList(c, r.allowedTools), DecodeList(c, r.disallowedTools), DecodeList(c, r.mcpTools),
            r.timeoutMs, DecodeList(c, r.contextStrategy))
  }

  function RowToEntry(c: Codec, r: Row): Entry {
    Entry(Decode(c, r.columns), r.role, r.enabled == 1, r.createdBy, r.createdAt, r.updatedAt, r.stats)
  }

  // --- Operations ---

  /** The optional fields of `create` and `update`. */
  datatype Partial = Partial(
    name: Option<string>, provider: Option<string>, model: Option<string>, minModel: Option<string>,
    maxModel: Option<string>, companionMode: Option<bool>, agenticMode: Option<string>,
    systemPrompt: Option<string>, workingDirectory: Option<string>, capabilities: Option<seq<string>>,
    alwaysCli: Option<bool>, cliFallback: Option<string>, effort: Option<string>,
    anthropicRuntime: Option<string>, sandbox: Option<string>, allowedDirectories: Option<seq<string>>,
    role: Option<Role>, timeoutMs: Option<int>)

  const NOTHING := Partial(None, None, None, None, None, None, None, None, None, None, None, None, None, None, None,
                           None, None, None)

  datatype Op =
    | Create(key: string, name: string, config: Partial, createdBy: string, soulDirs: seq<string>)
    | Update(key: string, partial: Partial)
    | Disable(key: string)
    | Enable(key: string)
    | RecordInvocation(key: string, tokensIn: int, tokensOut: int, success: bool, costCents: real)
    | RecordDelegationExpected(key: string)
    | RecordDelegationActual(key: string)

  datatype Outcome = Success | NotFound | InvalidKey | AlreadyExists | TooManyActive | Protected | BelowTier

  /** What the registry is built with: the JSON codec, `globalDirs`, `baseDir` and `getModelTier`. */
  datatype Env = Env(codec: Codec, globalDirs: seq<string>, baseDir: string, tier: string -> int)

  datatype State = State(agents: map<string, Entry>, rows: map<string, Row>)

  const MAX_ACTIVE_AGENTS := 20
  const DEFAULT_WORKER_MODEL := "deepseek/deepseek-v3.2"
  const DEFAULT_WORKER_PROVIDER := "openrouter"

  function OrElse<T>(x: Option<T>, fallback: T): T {
    if x.Some? then x.value else fallback
  }

  function OrKeep<T>(x: Option<T>, current: Option<T>): Option<T> {
    if x.Some? then x else current
  }

  predicate IsLower(c: char) { 'a' <= c <= 'z' }

  /** `/^[a-z][a-z0-9_]*$/` */
  predicate ValidKey(key: string) {
    key != "" && IsLower(key[0]) &&
    forall i | 0 <= i < |key| :: IsLower(key[i]) || '0' <= key[i] <= '9' || key[i] == '_'
  }

  function MinTier(r: Role): Option<int> {
    if r.Orchestrator? || r.Coder? then Some(3) else None
  }

  function MergeDirs(a: seq<string>, b: Option<seq<string>>, c: seq<string>): Option<seq<string>> {
    var merged := Unique(a + OrElse(b, []) + c);
    if |merged| > 0 then Some(merged) else None
  }

  function Enabled(agents: map<string, Entry>): set<string> {
    set k | k in agents && agents[k].enabled
  }

  function NewProfile(env: Env, key: string, name: string, config: Partial, soulDirs: seq<string>): Profile {
    Profile(name, OrElse(config.provider, DEFAULT_WORKER_PROVIDER), OrElse(config.model, DEFAULT_WORKER_MODEL),
            config.minModel, config.maxModel, OrElse(config.companionMode, false), config.agenticMode,
            config.systemPrompt, OrElse(config.workingDirectory, env.baseDir + "/workspace/" + key),
            Some(OrElse(config.capabilities, [])), OrElse(config.alwaysCli, false), config.cliFallback,
            config.effort, config.anthropicRuntime, config.sandbox,
            MergeDirs(env.globalDirs, config.allowedDirectories, soulDirs),
            None, None, None, config.timeoutMs, None)
  }

  function ChangeProfile(p: Profile, d: Partial): Profile {
    p.(name := OrElse(d.name, p.name), provider := OrElse(d.provider, p.provider), model := OrElse(d.model, p.model),
       minModel := OrKeep(d.minModel, p.minModel), maxModel := OrKeep(d.maxModel, p.maxModel),
       companionMode := OrElse(d.companionMode, p.companionMode), agenticMode := OrKeep(d.agenticMode, p.agenticMode),
       systemPrompt := OrKeep(d.systemPrompt, p.systemPrompt),
       workingDirectory := OrElse(d.workingDirectory, p.workingDirectory),
       capabilities := OrKeep(d.capabilities, p.capabilities), alwaysCli := OrElse(d.alwaysCli, p.alwaysCli),
       cliFallback := OrKeep(d.cliFallback, p.cliFallback), effort := OrKeep(d.effort, p.effort),
       anthropicRuntime := OrKeep(d.anthropicRuntime, p.anthropicRuntime), sandbox := OrKeep(d.sandbox, p.sandbox),
       allowedDirectories := OrKeep(d.allowedDirectories, p.allowedDirectories),
       timeoutMs := OrKeep(d.timeoutMs, p.timeoutMs))
  }

  function ChangeColumns(c: Codec, r: Columns, d: Partial): Columns {
    r.(name := OrElse(d.name, r.name), provider := OrElse(d.provider, r.provider), model := OrElse(d.model, r.model),
       minModel := OrKeep(d.minModel, r.minModel), maxModel := OrKeep(d.maxModel, r.maxModel),
       companionMode := if d.companionMode.Some? then Flag(d.companionMode.value) else r.companionMode,
       agenticMode := OrKeep(d.agenticMode, r.agenticMode),
       systemPrompt := OrKeep(d.systemPrompt, r.systemPrompt),
       workingDirectory := OrElse(d.workingDirectory, r.workingDirectory),
       capabilities := OrKeep(EncodeList(c, d.capabilities), r.capabilities),
       alwaysCli := if d.alwaysCli.Some? then Flag(d.alwaysCli.value) else r.alwaysCli,
       cliFallback := OrKeep(d.cliFallback, r.cliFallback), effort := OrKeep(d.effort, r.effort),
       anthropicRuntime := OrKeep(d.anthropicRuntime, r.anthropicRuntime), sandbox := OrKeep(d.sandbox, r.sandbox),
       allowedDirectories := OrKeep(EncodeList(c, d.allowedDirectories), r.allowedDirectories),
       timeoutMs := OrKeep(d.timeoutMs, r.timeoutMs))
  }

  function Invoked(s: Stats, now: int, tokensIn: int, tokensOut: int, success: bool, costCents: real): Stats {
    s.(totalInvocations := s.totalInvocations + 1, totalTokensIn := s.totalTokensIn + tokensIn,
       totalTokensOut := s.totalTokensOut + tokensOut,
       totalFailures := s.totalFailures + (if success then 0 else 1),
       lastInvokedAt := Some(now), estimatedCostCents := s.estimatedCostCents + costCents)
  }

  /** Why `update` refuses: a non-empty model below the floor of the effective role, or a role change
      whose floor the effective model does not reach. */
  predicate Refused(env: Env, e: Entry, d: Partial) {
    var role := OrElse(d.role, e.role);
    || (d.model.Some? && d.model.value != "" && MinTier(role).Some? && env.tier(d.model.value) < MinTier(role).value)
    || (d.role.Some? && d.role.value != e.role && MinTier(d.role.value).Some?
        && env.tier(OrElse(d.model, e.profile.model)) < MinTier(d.role.value).value)
  }

  function Check(env: Env, s: State, op: Op): Outcome {
    match op
    case Create(key, _, _, _, _) =>
      if !ValidKey(key) then InvalidKey
      else if key in s.agents then AlreadyExists
      else if |Enabled(s.agents)| >= MAX_ACTIVE_AGENTS then TooManyActive
      else Success
    case Update(key, d) =>
      if key !in s.agents then NotFound else if Refused(env, s.agents[key], d) then BelowTier else Success
    case Disable(key) =>
      if key !in s.agents then NotFound else if s.agents[key].createdBy == "config" then Protected else Success
    case Enable(key) =>
      if key !in s.agents then NotFound
      else if |Enabled(s.agents)| >= MAX_ACTIVE_AGENTS then TooManyActive else Success
    case _ => if op.key !in s.agents then NotFound else Success
  }

  function NewEntry(env: Env, op: Op, now: int): Entry
    requires op.Create?
  {
    Entry(NewProfile(env, op.key, op.name, op.config, op.soulDirs), Worker, true, op.createdBy, now, now, NO_STATS)
  }

  /** The entry an accepted operation leaves in the map. */
  function ChangeEntry(e: Entry, op: Op, now: int): Entry {
    match op
    case Create(_, _, _, _, _) => e
    case Update(_, d) =>
      if d == NOTHING then e
      else e.(profile := ChangeProfile(e.profile, d), role := OrElse(d.role, e.role), updatedAt := now)
    case Disable(_) => e.(enabled := false, updatedAt := now)
    case Enable(_) => e.(enabled := true, updatedAt := now)
    case RecordInvocation(_, tin, tout, ok, cost) => e.(stats := Invoked(e.stats, now, tin, tout, ok, cost))
    case RecordDelegationExpected(_) => e.(stats := e.stats.(delegationExpected := e.stats.delegationExpected + 1))
    case RecordDelegationActual(_) => e.(stats := e.stats.(delegationActual := e.stats.delegationActual + 1))
  }

  /** The row it leaves in the table. Only here does an invocation touch `updated_at`. */
  function ChangeRow(c: Codec, r: Row, op: Op, now: int): Row {
    match op
    case Create(_, _, _, _, _) => r
    case Update(_, d) =>
      if d == NOTHING then r
      else r.(columns := ChangeColumns(c, r.columns, d), role := OrElse(d.role, r.role), updatedAt := now)
    case Disable(_) => r.(enabled := 0, updatedAt := now)
    case Enable(_) => r.(enabled := 1, updatedAt := now)
    case RecordInvocation(_, tin, tout, ok, cost) =>
      r.(stats := Invoked(r.stats, now, tin, tout, ok, cost), updatedAt := now)
    case RecordDelegationExpected(_) => r.(stats := r.stats.(delegationExpected := r.stats.delegationExpected + 1))
    case RecordDelegationActual(_) => r.(stats := r.stats.(delegationActual := r.stats.delegationActual + 1))
  }

  function NewRow(c: Codec, e: Entry): Row {
    Row(Encode(c, e.profile), e.role, Flag(e.enabled), e.createdBy, e.createdAt, e.updatedAt, e.stats)
  }

  function Apply(env: Env, s: State, op: Op, now: int): State {
    if !Check(env, s, op).Success? then s
    else if op.Create? then
      var e := NewEntry(env, op, now);
      State(s.agents[op.key := e], s.rows[op.key := NewRow(env.codec, e)])
    else
      State(if op.key in s.agents then s.agents[op.key := ChangeEntry(s.agents[op.key], op, now)] else s.agents,
            if op.key in s.rows then s.rows[op.key := ChangeRow(env.codec, s.rows[op.key], op, now)] else s.rows)
  }

  function LoadAll(c: Codec, rows: map<string, Row>): map<string, Entry> {
    map k | k in rows :: RowToEntry(c, rows[k])
  }

  // --- Write-through ---

  /** Reloading the table gives the map, apart from `updated_at`. */
  ghost predicate InSync(c: Codec, s: State) {
    && s.agents.Keys == s.rows.Keys
    && forall k | k in s.agents :: Agree(c, s.agents[k], s.rows[k])
  }

  ghost predicate Agree(c: Codec, e: Entry, r: Row) {
    RowToEntry(c, r).(updatedAt := e.updatedAt) == e
  }

  lemma {:induction false} EncodeDecode(c: Codec, p: Profile)
    requires Lossless(c)
    ensures Decode(c, Encode(c, p)) == p
  {
  }

  lemma {:induction false} ChangesAgree(c: Codec, r: Columns, d: Partial)
    requires Lossless(c)
    ensures Decode(c, ChangeColumns(c, r, d)) == ChangeProfile(Decode(c, r), d)
  {
  }

  lemma {:induction false} OpKeepsAgreement(c: Codec, e: Entry, r: Row, op: Op, now: int)
    requires Lossless(c) && Agree(c, e, r)
    ensures Agree(c, ChangeEntry(e, op, now), ChangeRow(c, r, op, now))
  {
  }

  lemma {:induction false} PutKeepsSync(c: Codec, s: State, key: string, e: Entry, r: Row)
    requires InSync(c, s) && Agree(c, e, r)
    ensures InSync(c, State(s.agents[key := e], s.rows[key := r]))
  {
  }

  lemma {:induction false} ApplyKeepsSync(env: Env, s: State, op: Op, now: int)
    requires Lossless(env.codec) && InSync(env.codec, s)
    ensures InSync(env.codec, Apply(env, s, op, now))
  {
    if Check(env, s, op).Success? {
      if op.Create? {
        var e := NewEntry(env, op, now);
        EncodeDecode(env.codec, e.profile);
        PutKeepsSync(env.codec, s, op.key, e, NewRow(env.codec, e));
      } else {
        var e, r := s.agents[op.key], s.rows[op.key];
        OpKeepsAgreement(env.codec, e, r, op, now);
        PutKeepsSync(env.codec, s, op.key, ChangeEntry(e, op, now), ChangeRow(env.codec, r, op, now));
      }
    }
  }

  // --- Boot ---

  /** An agent of the configuration file; `role` is its explicit role. */
  datatype ConfigAgent = ConfigAgent(profile: Profile, role: Option<Role>)

  /** What the agent's compiled soul contributes; the bounds are concrete model names. */
  datatype Soul = Soul(dirs: seq<string>, minModel: Option<string>, maxModel: Option<string>)

  datatype Config = Config(agents: map<string, ConfigAgent>, roles: map<string, Role>, souls: map<string, Soul>)

  /** `toLowerCase` and `includes`; no letter outside ASCII has a lower case made of the letters looked for. */
  predicate Contains(s: string, part: string) {
    part <= s || (s != "" && Contains(s[1..], part))
  }

  function RoleOf(c: Config, key: string): Role
    requires key in c.agents
  {
    var agent := c.agents[key];
    if key in c.roles then c.roles[key]
    else if agent.role.Some? then agent.role.value
    else if Contains(LowerCase(agent.profile.name), "orchestrat") then Orchestrator
    else if key == "heartbeat" || Contains(LowerCase(agent.profile.name), "heartbeat") then Heartbeat
    else Worker
  }

  predicate SoulBoundsApply(p: Profile) {
    p.provider == "anthropic" && p.cliFallback != Some("codex")
  }

  function SoulOf(c: Config, key: string): Soul {
    if key in c.souls then c.souls[key] else Soul([], None, None)
  }

  /** The configured profile with the bounds of the soul, which replace those of Anthropic agents. */
  function Bounded(c: Config, key: string): Profile
    requires key in c.agents
  {
    var p, soul := c.agents[key].profile, SoulOf(c, key);
    if SoulBoundsApply(p) then
      p.(minModel := OrKeep(soul.minModel, p.minModel), maxModel := OrKeep(soul.maxModel, p.maxModel))
    else p
  }

  /** The profile written to the table; the directories of all three sources are merged. */
  function Resolved(env: Env, c: Config, key: string): Profile
    requires key in c.agents
  {
    var p := Bounded(c, key);
    p.(allowedDirectories := MergeDirs(env.globalDirs, p.allowedDirectories, SoulOf(c, key).dirs))
  }

  function SeedRow(env: Env, c: Config, key: string, r: Option<Row>, now: int): Row
    requires key in c.agents || r.Some?
  {
    if key !in c.agents then
      var row := r.value;
      if row.createdBy != "system" && row.enabled == 1 then row.(enabled := 0, updatedAt := now) else row
    else
      var columns, role := Encode(env.codec, Resolved(env, c, key)), RoleOf(c, key);
      if r.None? then Row(columns, role, 1, "config", now, now, NO_STATS)
      else if r.value.createdBy == "config" then
        r.value.(columns := columns, role := role, enabled := 1, updatedAt := now)
      else r.value
  }

  function Lookup(rows: map<string, Row>, key: string): Option<Row> {
    if key in rows then Some(rows[key]) else None
  }

  /** The table after `seedFromConfig`. */
  function Seed(env: Env, c: Config, rows: map<string, Row>, now: int): map<string, Row> {
    map k | k in rows.Keys + c.agents.Keys :: SeedRow(env, c, k, Lookup(rows, k), now)
  }

  /** After boot a row is enabled exactly when it is in the configuration and new, created by it, or
      enabled already, or when it is an enabled row of the system itself. */
  lemma {:induction false} EnabledAfterBoot(env: Env, c: Config, rows: map<string, Row>, now: int, key: string)
    requires key in rows || key in c.agents
    ensures var r := Lookup(rows, key);
            Seed(env, c, rows, now)[key].enabled == 1 <==>
            if key in c.agents then r.None? || r.value.createdBy == "config" || r.value.enabled == 1
            else r.value.createdBy == "system" && r.value.enabled == 1
  {
  }

  /** Boot never removes a row and never touches statistics, creator or creation time. */
  lemma {:induction false} BootKeepsHistory(env: Env, c: Config, rows: map<string, Row>, now: int, key: string)
    requires key in rows
    ensures var seeded := Seed(env, c, rows, now);
            key in seeded && seeded[key].stats == rows[key].stats
            && seeded[key].createdBy == rows[key].createdBy && seeded[key].createdAt == rows[key].createdAt
  {
  }

  lemma {:induction false} SeedRowTwice(env: Env, c: Config, key: string, r: Option<Row>, first: int, second: int)
    requires key in c.agents || r.Some?
    ensures var once := SeedRow(env, c, key, r, first);
            SeedRow(env, c, key, Some(once), second).(updatedAt := once.updatedAt) == once
  {
  }

  /** Booting again with the same configuration changes nothing but `updated_at`. */
  lemma {:induction false} BootTwice(env: Env, c: Config, rows: map<string, Row>, first: int, second: int, key: string)
    requires key in rows || key in c.agents
    ensures var once := Seed(env, c, rows, first);
            var twice := Seed(env, c, once, second);
            && twice.Keys == once.Keys
            && twice[key].(updatedAt := once[key].updatedAt) == once[key]
  {
    SeedRowTwice(env, c, key, Lookup(rows, key), first, second);
  }

  /** The configuration after boot, which writes the soul bounds into the agents it was given. */
  function Rebound(c: Config): Config {
    c.(agents := map key | key in c.agents :: c.agents[key].(profile := Bounded(c, key)))
  }

  lemma {:induction false} ReboundKeys(c: Config, d: Config)
    requires d == Rebound(c)
    ensures d.agents.Keys == c.agents.Keys && d.souls == c.souls
  {
  }

  lemma {:induction false} ReboundKeeps(c: Config, d: Config, key: string)
    requires d == Rebound(c) && key in c.agents && key in d.agents
    ensures Bounded(d, key) == Bounded(c, key) && RoleOf(d, key) == RoleOf(c, key)
  {
  }

  lemma {:induction false} AlikeRow(env: Env, c: Config, d: Config, key: string, r: Option<Row>, now: int)
    requires d.souls == c.souls && d.agents.Keys == c.agents.Keys && (key in c.agents || r.Some?)
    requires key in c.agents ==> Bounded(d, key) == Bounded(c, key) && RoleOf(d, key) == RoleOf(c, key)
    ensures SeedRow(env, d, key, r, now) == SeedRow(env, c, key, r, now)
  {
  }

  lemma {:induction false} ReboundSeedsRow(env: Env, c: Config, d: Config, key: string, r: Option<Row>, now: int)
    requires d == Rebound(c) && d.agents.Keys == c.agents.Keys && (key in c.agents || r.Some?)
    ensures SeedRow(env, d, key, r, now) == SeedRow(env, c, key, r, now)
  {
    if key in c.agents {
      ReboundKeeps(c, d, key);
    }
    AlikeRow(env, c, d, key, r, now);
  }

  lemma {:induction false} SameMaps<K, V>(m: map<K, V>, n: map<K, V>)
    requires m.Keys == n.Keys && forall k | k in m :: m[k] == n[k]
    ensures m == n
  {
  }

  lemma {:induction false} SeedKeys(env: Env, c: Config, rows: map<string, Row>, now: int, seeded: map<string, Row>)
    requires seeded == Seed(env, c, rows, now)
    ensures seeded.Keys == rows.Keys + c.agents.Keys
  {
  }

  /** Booting with the configuration that an earlier boot has changed is booting with the original. */
  lemma {:induction false} ReboundSeedsAlike(env: Env, c: Config, d: Config, rows: map<string, Row>, now: int,
      seeded: map<string, Row>, again: map<string, Row>)
    requires seeded == Seed(env, c, rows, now)
    requires d == Rebound(c) && again == Seed(env, d, rows, now)
    ensures again == seeded
  {
    SeedKeys(env, c, rows, now, seeded);
    SeedKeys(env, d, rows, now, again);
    ReboundKeys(c, d);
    forall key | key in seeded ensures again[key] == seeded[key] {
      ReboundSeedsRow(env, c, d, key, Lookup(rows, key), now);
    }
    SameMaps(again, seeded);
  }

  // --- Runs ---

  datatype Call = Call(op: Op, now: int)

  /** The registry after boot. */
  function Booted(env: Env, c: Config, rows: map<string, Row>, now: int): State {
    var seeded := Seed(env, c, rows, now);
    State(LoadAll(env.codec, seeded), seeded)
  }

  /** A registry after some more calls. */
  function After(env: Env, s: State, calls: seq<Call>): State {
    if calls == [] then s
    else
      var last := calls[|calls| - 1];
      Apply(env, After(env, s, calls[..|calls| - 1]), last.op, last.now)
  }

  lemma {:induction false} CallsKeepSync(env: Env, s: State, calls: seq<Call>)
    requires Lossless(env.codec) && InSync(env.codec, s)
    ensures InSync(env.codec, After(env, s, calls))
  {
    if calls != [] {
      var earlier, last := calls[..|calls| - 1], calls[|calls| - 1];
      CallsKeepSync(env, s, earlier);
      ApplyKeepsSync(env, After(env, s, earlier), last.op, last.now);
    }
  }

  lemma {:induction false} ReloadAgrees(c: Codec, s: State)
    requires InSync(c, s)
    ensures LoadAll(c, s.rows).Keys == s.agents.Keys
    ensures forall k | k in s.agents :: LoadAll(c, s.rows)[k].(updatedAt := s.agents[k].updatedAt) == s.agents[k]
  {
  }

  lemma {:induction false} BootInSync(env: Env, c: Config, rows: map<string, Row>, now: int)
    ensures InSync(env.codec, Booted(env, c, rows, now))
  {
  }

  /** After boot and any calls, loading the table again, as a restart does, gives the agents that are in
      memory, on every field but `updated_at`. */
  lemma {:induction false} RestartRebuildsMap(
      env: Env, c: Config, rows: map<string, Row>, bootedAt: int, calls: seq<Call>)
    requires Lossless(env.codec)
    ensures var s := After(env, Booted(env, c, rows, bootedAt), calls);
            var reloaded := LoadAll(env.codec, s.rows);
            && reloaded.Keys == s.agents.Keys
            && forall k | k in s.agents :: reloaded[k].(updatedAt := s.agents[k].updatedAt) == s.agents[k]
  {
    var boot := Booted(env, c, rows, bootedAt);
    BootInSync(env, c, rows, bootedAt);
    CallsKeepSync(env, boot, calls);
    ReloadAgrees(env.codec, After(env, boot, calls));
  }

  /** `updated_at` is left out for a reason: an invocation writes it to the table only. */
  lemma {:induction false} InvocationDiverges(env: Env, s: State, key: string, now: int)
    requires Lossless(env.codec) && InSync(env.codec, s) && key in s.agents && s.agents[key].updatedAt != now
    ensures var t := Apply(env, s, RecordInvocation(key, 0, 0, true, 0.0), now);
            LoadAll(env.codec, t.rows)[key] != t.agents[key]
  {
  }

  /** `now` is a later state of the entry `before`. */
  predicate Survives(before: Entry, now: Entry) {
    && now.createdBy == before.createdBy
    && now.createdAt == before.createdAt
    && (before.createdBy == "config" && before.enabled ==> now.enabled)
  }

  lemma {:induction false} ApplyKeepsAgents(env: Env, s: State, op: Op, now: int, key: string)
    requires key in s.agents
    ensures key in Apply(env, s, op, now).agents && Survives(s.agents[key], Apply(env, s, op, now).agents[key])
  {
  }

  /** No calls remove an agent or change its creator, and an enabled agent of the configuration stays
      enabled. */
  lemma {:induction false} ConfigAgentsStayEnabled(env: Env, s: State, calls: seq<Call>, key: string)
    requires key in s.agents
    ensures key in After(env, s, calls).agents
    ensures Survives(s.agents[key], After(env, s, calls).agents[key])
  {
    if calls != [] {
      var earlier, last := calls[..|calls| - 1], calls[|calls| - 1];
      ConfigAgentsStayEnabled(env, s, earlier, key);
      ApplyKeepsAgents(env, After(env, s, earlier), last.op, last.now, key);
    }
  }

  lemma {:induction false} EnabledAfterPut(agents: map<string, Entry>, key: string, e: Entry)
    ensures Enabled(agents[key := e]) == if e.enabled then Enabled(agents) + {key} else Enabled(agents) - {key}
  {
  }

  lemma {:induction false} EntrySameEnabled(agents: map<string, Entry>, key: string, e: Entry)
    requires key in agents && e.enabled == agents[key].enabled
    ensures Enabled(agents[key := e]) == Enabled(agents)
  {
  }

  lemma {:induction false} ApplyBoundsActive(env: Env, s: State, op: Op, now: int)
    ensures |Enabled(Apply(env, s, op, now).agents)| <= |Enabled(s.agents)|
            || |Enabled(Apply(env, s, op, now).agents)| <= MAX_ACTIVE_AGENTS
  {
    if Check(env, s, op).Success? {
      if op.Create? {
        EnabledAfterPut(s.agents, op.key, NewEntry(env, op, now));
      } else {
        var e := ChangeEntry(s.agents[op.key], op, now);
        if op.Enable? || op.Disable? {
          EnabledAfterPut(s.agents, op.key, e);
        } else {
          EntrySameEnabled(s.agents, op.key, e);
        }
      }
    }
  }

  /** The number of enabled agents never exceeds 20 or the number at the beginning, whichever is more. */
  lemma {:induction false} ActiveCountBounded(env: Env, s: State, calls: seq<Call>)
    ensures var before, now := |Enabled(s.agents)|, |Enabled(After(env, s, calls).agents)|;
            now <= if before > MAX_ACTIVE_AGENTS then before else MAX_ACTIVE_AGENTS
  {
    if calls != [] {
      var earlier, last := calls[..|calls| - 1], calls[|calls| - 1];
      ActiveCountBounded(env, s, earlier);
      ApplyBoundsActive(env, After(env, s, earlier), last.op, last.now);
    }
  }

  // --- Statistics ---

  /** The sum of a quantity over the calls that name an agent. */
  function Sum(calls: seq<Call>, key: string, amount: Op -> int): int {
    if calls == [] then 0
    else
      var op := calls[|calls| - 1].op;
      Sum(calls[..|calls| - 1], key, amount) + if op.key == key then amount(op) else 0
  }

  function InvocationsIn(op: Op): int { if op.RecordInvocation? then 1 else 0 }

  function TokensInIn(op: Op): int { if op.RecordInvocation? then op.tokensIn else 0 }

  function TokensOutIn(op: Op): int { if op.RecordInvocation? then op.tokensOut else 0 }

  function FailuresIn(op: Op): int { if op.RecordInvocation? && !op.success then 1 else 0 }

  function ExpectedIn(op: Op): int { if op.RecordDelegationExpected? then 1 else 0 }

  function ActualIn(op: Op): int { if op.RecordDelegationActual? then 1 else 0 }

  /** `now` counts what `before` counted and these calls. */
  ghost predicate AddsUp(before: Stats, now: Stats, calls: seq<Call>, key: string) {
    && now.totalInvocations == before.totalInvocations + Sum(calls, key, InvocationsIn)
    && now.totalTokensIn == before.totalTokensIn + Sum(calls, key, TokensInIn)
    && now.totalTokensOut == before.totalTokensOut + Sum(calls, key, TokensOutIn)
    && now.totalFailures == before.totalFailures + Sum(calls, key, FailuresIn)
    && now.delegationExpected == before.delegationExpected + Sum(calls, key, ExpectedIn)
    && now.delegationActual == before.delegationActual + Sum(calls, key, ActualIn)
  }

  /** `now` counts what `before` counted and this call. */
  predicate Counts(before: Stats, now: Stats, op: Op) {
    && now.totalInvocations == before.totalInvocations + InvocationsIn(op)
    && now.totalTokensIn == before.totalTokensIn + TokensInIn(op)
    && now.totalTokensOut == before.totalTokensOut + TokensOutIn(op)
    && now.totalFailures == before.totalFailures + FailuresIn(op)
    && now.delegationExpected == before.delegationExpected + ExpectedIn(op)
    && now.delegationActual == before.delegationActual + ActualIn(op)
  }

  lemma {:induction false} OneCallCounted(env: Env, s: State, op: Op, now: int, key: string)
    requires key in s.agents
    ensures key in Apply(env, s, op, now).agents
    ensures op.key == key ==> Counts(s.agents[key].stats, Apply(env, s, op, now).agents[key].stats, op)
    ensures op.key != key ==> Apply(env, s, op, now).agents[key] == s.agents[key]
  {
  }

  lemma {:induction false} OneMoreAddsUp(base: Stats, before: Stats, now: Stats, earlier: seq<Call>, last: Call,
      key: string)
    requires AddsUp(base, before, earlier, key)
    requires if last.op.key == key then Counts(before, now, last.op) else now == before
    ensures AddsUp(base, now, earlier + [last], key)
  {
  }

  /** The statistics of an agent that is in the map. */
  function StatsOf(s: State, key: string): Stats {
    if key in s.agents then s.agents[key].stats else NO_STATS
  }

  lemma {:induction false} CallAddsUp(env: Env, s: State, base: Stats, earlier: seq<Call>, last: Call, key: string)
    requires key in s.agents && AddsUp(base, StatsOf(s, key), earlier, key)
    ensures key in Apply(env, s, last.op, last.now).agents
    ensures AddsUp(base, StatsOf(Apply(env, s, last.op, last.now), key), earlier + [last], key)
  {
    OneCallCounted(env, s, last.op, last.now, key);
    OneMoreAddsUp(base, StatsOf(s, key), StatsOf(Apply(env, s, last.op, last.now), key), earlier, last, key);
  }

  /** Over any calls, every statistic of an agent grows by exactly what the calls for it recorded. */
  lemma {:induction false} StatisticsAddUp(env: Env, s: State, calls: seq<Call>, key: string)
    requires key in s.agents
    ensures key in After(env, s, calls).agents
    ensures AddsUp(StatsOf(s, key), StatsOf(After(env, s, calls), key), calls, key)
  {
    if calls != [] {
      var earlier, last := calls[..|calls| - 1], calls[|calls| - 1];
      StatisticsAddUp(env, s, earlier, key);
      CallAddsUp(env, After(env, s, earlier), StatsOf(s, key), earlier, last, key);
      assert calls == earlier + [last];
    }
  }

  /** The directories of all sources are allowed, each listed once, and no others. */
  lemma {:induction false} DirectoriesMerged(a: seq<string>, b: Option<seq<string>>, c: seq<string>)
    ensures var merged := OrElse(MergeDirs(a, b, c), []);
            && (forall x :: x in merged <==> x in a || x in OrElse(b, []) || x in c)
            && (forall i, j | 0 <= i < j < |merged| :: merged[i] != merged[j])
  {
    UniqueFacts(a + OrElse(b, []) + c);
  }

  // --- The tier floor ---

  predicate AboveFloor(env: Env, e: Entry) {
    MinTier(e.role).None? || env.tier(e.profile.model) >= MinTier(e.role).value
  }

  /** An accepted update keeps an agent on its floor exactly when it does not blank the model of a role
      that has one: an empty model skips the check. */
  lemma {:induction false} UpdateKeepsFloorIff(env: Env, e: Entry, d: Partial, now: int)
    requires AboveFloor(env, e) && !Refused(env, e, d) && env.tier("") == 2
    ensures var f := ChangeEntry(e, Update("", d), now);
            AboveFloor(env, f) <==> !(d.model == Some("") && MinTier(OrElse(d.role, e.role)).Some?)
  {
  }

  /** An accepted update that blanks the model of a coder leaves it below its floor. */
  lemma {:induction false} FloorEscaped(env: Env, e: Entry, now: int)
    requires e.role == Coder && AboveFloor(env, e) && env.tier("") == 2
    ensures var d := NOTHING.(model := Some(""));
            !Refused(env, e, d) && !AboveFloor(env, ChangeEntry(e, Update("", d), now))
  {
  }

  predicate BlanksModel(op: Op, key: string) {
    op.Update? && op.key == key && op.partial.model == Some("")
  }

  /** The agent is not there or is on its floor. */
  predicate OnFloor(env: Env, s: State, key: string) {
    key in s.agents ==> AboveFloor(env, s.agents[key])
  }

  lemma {:induction false} ApplyKeepsFloor(env: Env, s: State, op: Op, now: int, key: string)
    requires OnFloor(env, s, key) && !BlanksModel(op, key)
    ensures OnFloor(env, Apply(env, s, op, now), key)
  {
  }

  /** While no call blanks its model, an agent that is on its floor, or not there yet, stays on it,
      whatever happens to the others. */
  lemma {:induction false} FloorHolds(env: Env, s: State, calls: seq<Call>, key: string)
    requires OnFloor(env, s, key)
    requires forall i | 0 <= i < |calls| :: !BlanksModel(calls[i].op, key)
    ensures OnFloor(env, After(env, s, calls), key)
  {
    if calls != [] {
      var earlier, last := calls[..|calls| - 1], calls[|calls| - 1];
      FloorHolds(env, s, earlier, key);
      ApplyKeepsFloor(env, After(env, s, earlier), last.op, last.now, key);
    }
  }

  // --- The registry object ---

  lemma {:induction false} CountOneMore(agents: map<string, Entry>, done: set<string>, key: string)
    requires key in agents && key !in done
    ensures |Enabled(agents) * (done + {key})| == |Enabled(agents) * done| + if agents[key].enabled then 1 else 0
  {
    var before := Enabled(agents) * done;
    if agents[key].enabled {
      assert Enabled(agents) * (done + {key}) == before + {key};
    } else {
      assert Enabled(agents) * (done + {key}) == before;
    }
  }

  /** The table when the agents in `done` have been upserted. */
  ghost predicate Upserted(env: Env, c: Config, before: map<string, Row>, rows: map<string, Row>, done: set<string>,
      now: int)
    requires done <= c.agents.Keys
  {
    && rows.Keys == before.Keys + done
    && forall k | k in rows ::
         rows[k] == if k in done then SeedRow(env, c, k, Lookup(before, k), now) else before[k]
  }

  lemma {:induction false} UpsertedOneMore(env: Env, c: Config, before: map<string, Row>, rows: map<string, Row>,
      done: set<string>, key: string, now: int)
    requires done <= c.agents.Keys && Upserted(env, c, before, rows, done, now) && key in c.agents && key !in done
    ensures Upserted(env, c, before, rows[key := SeedRow(env, c, key, Lookup(rows, key), now)], done + {key}, now)
  {
    assert Lookup(rows, key) == Lookup(before, key);
  }

  /** The configured agents when those in `done` have been given their bounds. */
  ghost predicate BoundsWritten(c: Config, configured: map<string, ConfigAgent>, done: set<string>) {
    && configured.Keys == c.agents.Keys
    && forall k | k in configured ::
         configured[k] == if k in done then c.agents[k].(profile := Bounded(c, k)) else c.agents[k]
  }

  lemma {:induction false} BoundsOneMore(c: Config, configured: map<string, ConfigAgent>, done: set<string>,
      key: string)
    requires BoundsWritten(c, configured, done) && key in c.agents && key !in done
    ensures BoundsWritten(c, configured[key := configured[key].(profile := Bounded(c, key))], done + {key})
  {
  }

  lemma {:induction false} AllBounds(c: Config, configured: map<string, ConfigAgent>)
    requires BoundsWritten(c, configured, c.agents.Keys)
    ensures c.(agents := configured) == Rebound(c)
  {
    assert configured == Rebound(c).agents;
  }

  class AgentRegistry {
    const env: Env
    var agents: map<string, Entry>
    /** the table `agent_registry` */
    var rows: map<string, Row>

    function Snapshot(): State
      reads this
    {
      State(agents, rows)
    }

    constructor (env: Env, config: Config, table: map<string, Row>, now: int)
      ensures this.env == env && Snapshot() == Booted(env, config, table, now)
    {
      this.env := env;
      agents := map[];
      rows := table;
      new;
      var changed := SeedFromConfig(config, now);
      ReloadAll();
    }

    /** Seeds the table; the configuration it was given comes out with the soul bounds in it. */
    method SeedFromConfig(config: Config, now: int) returns (changed: Config)
      modifies this
      ensures rows == Seed(env, config, old(rows), now) && agents == old(agents) && changed == Rebound(config)
    {
      ghost var before := rows;
      DisableRemoved(config, now);
      changed := UpsertConfigured(config, now);
      ghost var expected := Seed(env, config, before, now);
      assert rows.Keys == expected.Keys;
      forall k | k in rows ensures rows[k] == expected[k] {
      }
    }

    /** First loop of `seedFromConfig`: agents no longer configured. */
    method DisableRemoved(config: Config, now: int)
      modifies this
      ensures agents == old(agents) && rows.Keys == old(rows).Keys
      ensures forall k | k in rows ::
                rows[k] == if k in config.agents then old(rows)[k] else SeedRow(env, config, k, Some(old(rows)[k]), now)
    {
      var all := rows;
      var done: set<string> := {};
      while done != all.Keys
        invariant done <= all.Keys && rows.Keys == all.Keys && agents == old(agents)
        invariant forall k | k in rows ::
                    rows[k] == if k !in done || k in config.agents then all[k]
                               else SeedRow(env, config, k, Some(all[k]), now)
        decreases all.Keys - done
      {
        ghost var left := AnyElement(all.Keys - done);
        var key :| key in all && key !in done;
        var row := all[key];
        if key !in config.agents && row.createdBy != "system" && row.enabled == 1 {
          rows := rows[key := rows[key].(enabled := 0, updatedAt := now)];
        }
        done := done + {key};
      }
    }

    /** Second loop of `seedFromConfig`: insert new agents, refresh those the configuration created. */
    method UpsertConfigured(config: Config, now: int) returns (changed: Config)
      modifies this
      ensures agents == old(agents) && Upserted(env, config, old(rows), rows, config.agents.Keys, now)
      ensures changed == Rebound(config)
    {
      ghost var before := rows;
      var configured := config.agents;
      var done: set<string> := {};
      while done != config.agents.Keys
        invariant done <= config.agents.Keys && agents == old(agents)
        invariant Upserted(env, config, before, rows, done, now)
        invariant BoundsWritten(config, configured, done)
        decreases config.agents.Keys - done
      {
        ghost var left := AnyElement(config.agents.Keys - done);
        var key :| key in config.agents && key !in done;
        BoundsOneMore(config, configured, done, key);
        configured := configured[key := configured[key].(profile := Bounded(config, key))];
        UpsertedOneMore(env, config, before, rows, done, key, now);
        UpsertAgent(config, key, now);
        done := done + {key};
      }
      AllBounds(config, configured);
      changed := config.(agents := configured);
    }

    method UpsertAgent(config: Config, key: string, now: int)
      requires key in config.agents
      modifies this
      ensures agents == old(agents)
      ensures rows == old(rows)[key := SeedRow(env, config, key, Lookup(old(rows), key), now)]
    {
      var columns, role := Encode(env.codec, Resolved(env, config, key)), RoleOf(config, key);
      if key in rows {
        if rows[key].createdBy == "config" {
          rows := rows[key := rows[key].(columns := columns, role := role, enabled := 1, updatedAt := now)];
        }
      } else {
        rows := rows[key := Row(columns, role, 1, "config", now, now, NO_STATS)];
      }
    }

    method ReloadAll()
      modifies this
      ensures rows == old(rows) && agents == LoadAll(env.codec, rows)
    {
      agents := map[];
      var done: set<string> := {};
      while done != rows.Keys
        invariant rows == old(rows) && done <= rows.Keys && agents.Keys == done
        invariant forall k | k in agents :: agents[k] == RowToEntry(env.codec, rows[k])
        decreases rows.Keys - done
      {
        ghost var left := AnyElement(rows.Keys - done);
        var key :| key in rows && key !in done;
        agents := agents[key := RowToEntry(env.codec, rows[key])];
        done := done + {key};
      }
    }

    method GetActiveCount() returns (count: nat)
      ensures count == |Enabled(agents)|
    {
      count := 0;
      var done: set<string> := {};
      while done != agents.Keys
        invariant done <= agents.Keys
        invariant count == |Enabled(agents) * done|
        decreases agents.Keys - done
      {
        ghost var left := AnyElement(agents.Keys - done);
        var key :| key in agents && key !in done;
        CountOneMore(agents, done, key);
        if agents[key].enabled {
          count := count + 1;
        }
        done := done + {key};
      }
      assert Enabled(agents) * done == Enabled(agents);
    }

    method Create(key: string, name: string, config: Partial, createdBy: string, soulDirs: seq<string>, now: int)
      returns (outcome: Outcome)
      modifies this
      ensures var op := Op.Create(key, name, config, createdBy, soulDirs);
              outcome == Check(env, old(Snapshot()), op) && Snapshot() == Apply(env, old(Snapshot()), op, now)
    {
      if !ValidKey(key) {
        return InvalidKey;
      }
      if key in agents {
        return AlreadyExists;
      }
      var active := GetActiveCount();
      if active >= MAX_ACTIVE_AGENTS {
        return TooManyActive;
      }
      var profile := NewProfile(env, key, name, config, soulDirs);
      rows := rows[key := Row(Encode(env.codec, profile), Worker, 1, createdBy, now, now, NO_STATS)];
      agents := agents[key := Entry(profile, Worker, true, createdBy, now, now, NO_STATS)];
      return Success;
    }

    method Update(key: string, partial: Partial, now: int) returns (outcome: Outcome)
      modifies this
      ensures var op := Op.Update(key, partial);
              outcome == Check(env, old(Snapshot()), op) && Snapshot() == Apply(env, old(Snapshot()), op, now)
    {
      if key !in agents {
        return NotFound;
      }
      if Refused(env, agents[key], partial) {
        return BelowTier;
      }
      WriteThrough(Op.Update(key, partial), now);
      return Success;
    }

    method Disable(key: string, now: int) returns (outcome: Outcome)
      modifies this
      ensures var op := Op.Disable(key);
              outcome == Check(env, old(Snapshot()), op) && Snapshot() == Apply(env, old(Snapshot()), op, now)
    {
      if key !in agents {
        return NotFound;
      }
      if agents[key].createdBy == "config" {
        return Protected;
      }
      WriteThrough(Op.Disable(key), now);
      return Success;
    }

    method Enable(key: string, now: int) returns (outcome: Outcome)
      modifies this
      ensures var op := Op.Enable(key);
              outcome == Check(env, old(Snapshot()), op) && Snapshot() == Apply(env, old(Snapshot()), op, now)
    {
      if key !in agents {
        return NotFound;
      }
      var active := GetActiveCount();
      if active >= MAX_ACTIVE_AGENTS {
        return TooManyActive;
      }
      WriteThrough(Op.Enable(key), now);
      return Success;
    }

    /** `recordInvocation`, `recordDelegationExpected` and `recordDelegationActual` */
    method Record(op: Op, now: int)
      requires op.RecordInvocation? || op.RecordDelegationExpected? || op.RecordDelegationActual?
      modifies this
      ensures Snapshot() == Apply(env, old(Snapshot()), op, now)
    {
      if op.key !in agents {
        return;
      }
      WriteThrough(op, now);
    }

    /** The pair of writes: `UPDATE ... WHERE key = ?`, which a missing row ignores, and the entry's fields. */
    method WriteThrough(op: Op, now: int)
      requires op.key in agents && !op.Create?
      modifies this
      ensures agents == old(agents)[op.key := ChangeEntry(old(agents)[op.key], op, now)]
      ensures rows == if op.key in old(rows) then old(rows)[op.key := ChangeRow(env.codec, old(rows)[op.key], op, now)]
                      else old(rows)
    {
      if op.key in rows {
        rows := rows[op.key := ChangeRow(env.codec, rows[op.key], op, now)];
      }
      agents := agents[op.key := ChangeEntry(agents[op.key], op, now)];
    }
  }
}
