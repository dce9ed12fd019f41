/**
 * The agent role table (composables/useAgentConfig.ts): a configuration
 * holding an ordered list of roles, with updates by name, append, removal by
 * index, a field-wise merge, a reset and the list of active roles.
 */
module AgentConfig {
  import opened Wrappers
  import opened Subsequences

  datatype AgentRole = AgentRole(
    name: string,
    description: string,
    systemPrompt: string,
    temperature: real,
    active: bool)

  datatype AgentConfig = AgentConfig(
    roles: seq<AgentRole>,
    maxTokens: int,
    modelName: string,
    temperature: real)

  const DefaultAgentConfig: AgentConfig := AgentConfig(
    [ AgentRole("Planner", "Breaks down complex tasks into manageable steps",
        "You are a strategic planner. Break down complex tasks into clear, actionable steps.", 0.7, true),
      AgentRole("Researcher", "Gathers and analyzes information",
        "You are a thorough researcher. Find and analyze relevant information to support decision-making.", 0.5, true),
      AgentRole("Executor", "Implements solutions and provides results",
        "You are an efficient executor. Take the analyzed information and create concrete solutions.", 0.3, true) ],
    2000, "gpt-3.5-turbo", 0.7)

  /** `updateRole`'s new list: every role named like `role` becomes `role`; the others stay, in place. */
  function UpdatedRoles(roles: seq<AgentRole>, role: AgentRole): (r: seq<AgentRole>)
    ensures |r| == |roles|
    ensures forall i :: 0 <= i < |roles| ==> r[i] == if roles[i].name == role.name then role else roles[i]
  {
    if roles == [] then []
    else [if roles[0].name == role.name then role else roles[0]] + UpdatedRoles(roles[1..], role)
  }

  /** Updating a role whose name is not in the list changes nothing. */
  lemma UpdateAbsentRole(roles: seq<AgentRole>, role: AgentRole)
    requires forall i :: 0 <= i < |roles| ==> roles[i].name != role.name
    ensures UpdatedRoles(roles, role) == roles
  {
  }

  /**
   * `roles.splice(index, 1)`: a negative index counts from the end (and is
   * clamped at the start); an index at or past the end removes nothing.
   */
  function RemovedAt(roles: seq<AgentRole>, index: int): (r: seq<AgentRole>)
    ensures 0 <= index < |roles| ==> r == roles[..index] + roles[index + 1..]
    ensures index >= |roles| ==> r == roles
    ensures -|roles| <= index < 0 ==> r == roles[..|roles| + index] + roles[|roles| + index + 1..]
    ensures index < -|roles| ==> r == if roles == [] then [] else roles[1..]
    ensures |r| == if roles != [] && index < |roles| then |roles| - 1 else |roles|
  {
    var start := if index >= 0 then index else if |roles| + index >= 0 then |roles| + index else 0;
    if start < |roles| then roles[..start] + roles[start + 1..] else roles
  }

  /** `roles.filter(role => role.active)`: exactly the active roles, in their original order. */
  function ActiveRoles(roles: seq<AgentRole>): (r: seq<AgentRole>)
    ensures forall x :: x in r <==> x in roles && x.active
    ensures IsSubsequence(r, roles)
    ensures |r| <= |roles|
  {
    if roles == [] then []
    else
      var rest := ActiveRoles(roles[1..]);
      if roles[0].active then [roles[0]] + rest else rest
  }

  /** Filtering keeps each active role as often as it occurs, and no inactive one. */
  lemma {:induction false} ActiveRolesCounts(roles: seq<AgentRole>)
    ensures forall x :: multiset(ActiveRoles(roles))[x] == if x.active then multiset(roles)[x] else 0
  {
    if roles != [] {
      assert roles == [roles[0]] + roles[1..];
      ActiveRolesCounts(roles[1..]);
    }
  }

  /** Appending a role adds it to the active roles exactly when it is active. */
  lemma {:induction false} ActiveRolesAppend(roles: seq<AgentRole>, role: AgentRole)
    ensures ActiveRoles(roles + [role]) == ActiveRoles(roles) + if role.active then [role] else []
  {
    if roles != [] {
      assert (roles + [role])[1..] == roles[1..] + [role];
      ActiveRolesAppend(roles[1..], role);
    }
  }

  /** When every role is active, the active roles are all of them. */
  lemma {:induction false} AllActive(roles: seq<AgentRole>)
    requires forall i :: 0 <= i < |roles| ==> roles[i].active
    ensures ActiveRoles(roles) == roles
  {
    if roles != [] {
      AllActive(roles[1..]);
    }
  }

  /** The defaults: Planner, Researcher and Executor, all active, 2000 tokens of gpt-3.5-turbo at 0.7. */
  lemma DefaultRolesAllActive()
    ensures ActiveRoles(DefaultAgentConfig.roles) == DefaultAgentConfig.roles
    ensures |DefaultAgentConfig.roles| == 3
    ensures DefaultAgentConfig.roles[0].name == "Planner"
    ensures DefaultAgentConfig.roles[1].name == "Researcher"
    ensures DefaultAgentConfig.roles[2].name == "Executor"
    ensures DefaultAgentConfig.maxTokens == 2000 && DefaultAgentConfig.modelName == "gpt-3.5-turbo"
    ensures DefaultAgentConfig.temperature == 0.7
  {
    AllActive(DefaultAgentConfig.roles);
  }

  /** A `Partial<AgentConfig>`: a field that is `None` is absent. */
  datatype AgentConfigPatch = AgentConfigPatch(
    roles: Option<seq<AgentRole>>,
    maxTokens: Option<int>,
    modelName: Option<string>,
    temperature: Option<real>)

  /** `{ ...config, ...updates }`: patched fields take the patch's value, the others keep theirs. */
  function Merged(c: AgentConfig, p: AgentConfigPatch): (r: AgentConfig)
    ensures p.roles.Some? ==> r.roles == p.roles.value
    ensures p.roles.None? ==> r.roles == c.roles
    ensures p.maxTokens.Some? ==> r.maxTokens == p.maxTokens.value
    ensures p.maxTokens.None? ==> r.maxTokens == c.maxTokens
    ensures p.modelName.Some? ==> r.modelName == p.modelName.value
    ensures p.modelName.None? ==> r.modelName == c.modelName
    ensures p.temperature.Some? ==> r.temperature == p.temperature.value
    ensures p.temperature.None? ==> r.temperature == c.temperature
  {
    AgentConfig(p.roles.GetOr(c.roles), p.maxTokens.GetOr(c.maxTokens),
                p.modelName.GetOr(c.modelName), p.temperature.GetOr(c.temperature))
  }

  /** Merging an empty patch changes nothing; merging twice is merging once. */
  lemma MergeIdempotent(c: AgentConfig, p: AgentConfigPatch)
    ensures Merged(c, AgentConfigPatch(None, None, None, None)) == c
    ensures Merged(Merged(c, p), p) == Merged(c, p)
  {
  }

  class AgentConfigStore {
    var config: AgentConfig

    /** Starts from the default configuration (see the findings in the README for the source as written). */
    constructor()
      ensures config == DefaultAgentConfig
    {
      config := DefaultAgentConfig;
    }

    /** `updateRole`: replaces the roles named like `role`; nothing else changes. */
    method UpdateRole(role: AgentRole)
      modifies this
      ensures config == old(config).(roles := UpdatedRoles(old(config).roles, role))
    {
      config := config.(roles := UpdatedRoles(config.roles, role));
    }

    /** `addRole`: appends `role` at the end. */
    method AddRole(role: AgentRole)
      modifies this
      ensures config == old(config).(roles := old(config).roles + [role])
    {
      config := config.(roles := config.roles + [role]);
    }

    /** `removeRole`: removes the role at `index` as `splice(index, 1)` does. */
    method RemoveRole(index: int)
      modifies this
      ensures config == old(config).(roles := RemovedAt(old(config).roles, index))
    {
      config := config.(roles := RemovedAt(config.roles, index));
    }

    /** `updateConfig`: merges the patch. */
    method UpdateConfig(updates: AgentConfigPatch)
      modifies this
      ensures config == Merged(old(config), updates)
    {
      config := Merged(config, updates);
    }

    /** `resetConfig`: back to the defaults. */
    method ResetConfig()
      modifies this
      ensures config == DefaultAgentConfig
    {
      config := DefaultAgentConfig;
    }

    /** `getActiveRoles`: the active roles of the current configuration, in order. */
    function GetActiveRoles(): (r: seq<AgentRole>)
      reads this
      ensures forall x :: x in r <==> x in config.roles && x.active
      ensures IsSubsequence(r, config.roles)
      ensures forall x :: multiset(r)[x] == if x.active then multiset(config.roles)[x] else 0
    {
      ActiveRolesCounts(config.roles);
      ActiveRoles(config.roles)
    }
  }

  /**
   * The reactive reference as the source creates it. `ref` keeps only its
   * first argument, so the initial value is the string "agentConfig" and
   * the default-config factory passed second is never used.
   */
  datatype RefValue = TextValue(text: string) | ConfigValue(config: AgentConfig)

  const INITIAL_AS_WRITTEN: RefValue := TextValue("agentConfig")

  /**
   * `getActiveRoles` over the reference as written: a string has no
   * `roles`, so `undefined.filter` throws a TypeError.
   */
  function GetActiveRolesAsWritten(v: RefValue): (r: Result<seq<AgentRole>, string>)
    ensures r.Failure? <==> v.TextValue?
    ensures v.ConfigValue? ==> r == Success(ActiveRoles(v.config.roles))
  {
    match v
    case TextValue(_) => Failure("TypeError")
    case ConfigValue(c) => Success(ActiveRoles(c.roles))
  }

  /** As written, asking for the active roles right after creation throws instead of giving the three defaults. */
  lemma AsWrittenActiveRolesThrow()
    ensures GetActiveRolesAsWritten(INITIAL_AS_WRITTEN).Failure?
    ensures GetActiveRolesAsWritten(ConfigValue(DefaultAgentConfig)) == Success(DefaultAgentConfig.roles)
  {
    DefaultRolesAllActive();
  }
}
