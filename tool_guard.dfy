/** The tool registry and the tool guard (src/guards/tool_guard.py): tools
    are registered explicitly, and an invocation is checked for registration,
    for exact (action, resource) permissions and for unknown arguments. */
module Tools {

  import opened Values
  import opened Text

  datatype ToolPermission = ToolPermission(action: string, resource: string, description: string)

  datatype ToolRegistration = ToolRegistration(
    name: string,
    description: string,
    parametersSchema: map<string, Json>,
    requiredPermissions: seq<ToolPermission>,
    isActive: bool)

  /** Registered tools, by name. */
  type Registry = map<string, ToolRegistration>

  /** `register_tool`: insert, or overwrite the entry of the same name. */
  function Register(reg: Registry, tool: ToolRegistration): (r: Registry)
    ensures tool.name in r && r[tool.name] == tool
    ensures r.Keys == reg.Keys + {tool.name}
    ensures forall n :: n in reg && n != tool.name ==> r[n] == reg[n]
  {
    reg[tool.name := tool]
  }

  /** `get_tool`: the registration, active or not. */
  function GetTool(reg: Registry, name: string): (r: Option<ToolRegistration>)
    ensures r.Some? <==> name in reg
    ensures r.Some? ==> r.value == reg[name]
  {
    if name in reg then Some(reg[name]) else None
  }

  /** `is_registered`: present and active. */
  predicate IsRegistered(reg: Registry, name: string)
  {
    name in reg && reg[name].isActive
  }

  /** An agent permission satisfies a required one when action and resource
      are equal; the description plays no part. */
  predicate Grants(p: ToolPermission, required: ToolPermission)
  {
    p.action == required.action && p.resource == required.resource
  }

  predicate HasPermission(agentPermissions: seq<ToolPermission>, required: ToolPermission)
  {
    exists p :: p in agentPermissions && Grants(p, required)
  }

  predicate PermissionsCovered(required: seq<ToolPermission>, agentPermissions: seq<ToolPermission>)
  {
    forall r :: r in required ==> HasPermission(agentPermissions, r)
  }

  /** `parameters_schema.get("properties", {})` */
  function SchemaProperties(schema: map<string, Json>): Json
  {
    if "properties" in schema then schema["properties"] else JObject(map[])
  }

  /** Python's `arg_name in schema_props`: a key of an object, an element of a
      list, a substring of a string. Other JSON values make Python raise a
      TypeError; here they accept nothing. */
  predicate InProperties(props: Json, argName: string)
  {
    match props
    case JObject(fields) => argName in fields
    case JList(items) => JStr(argName) in items
    case JStr(s) => Contains(s, argName)
    case _ => false
  }

  predicate ArgumentsInSchema(arguments: map<string, Json>, schema: map<string, Json>)
  {
    forall a :: a in arguments ==> InProperties(SchemaProperties(schema), a)
  }

  /** What `validate_invocation` accepts. Registration is looked up with
      `get_tool`, so an inactive tool passes this first check. */
  predicate InvocationAllowed(reg: Registry, toolName: string, arguments: map<string, Json>, agentPermissions: seq<ToolPermission>)
  {
    && toolName in reg
    && PermissionsCovered(reg[toolName].requiredPermissions, agentPermissions)
    && ArgumentsInSchema(arguments, reg[toolName].parametersSchema)
  }

  /** A tool that is not registered is refused, whatever the permissions. */
  lemma UnregisteredNeverAllowed(reg: Registry, toolName: string, arguments: map<string, Json>, agentPermissions: seq<ToolPermission>)
    requires toolName !in reg
    ensures !InvocationAllowed(reg, toolName, arguments, agentPermissions)
  {
  }

  /** Descriptions of the agent's permissions do not matter. */
  lemma {:induction false} DescriptionsIgnored(reg: Registry, toolName: string, arguments: map<string, Json>,
                                               perms: seq<ToolPermission>, relabelled: seq<ToolPermission>)
    requires |perms| == |relabelled|
    requires forall i :: 0 <= i < |perms| ==>
               relabelled[i].action == perms[i].action && relabelled[i].resource == perms[i].resource
    ensures InvocationAllowed(reg, toolName, arguments, perms) <==> InvocationAllowed(reg, toolName, arguments, relabelled)
  {
    forall r ensures HasPermission(perms, r) <==> HasPermission(relabelled, r) {
      if HasPermission(perms, r) {
        var p :| p in perms && Grants(p, r);
        var i :| 0 <= i < |perms| && perms[i] == p;
        assert relabelled[i] in relabelled && Grants(relabelled[i], r);
      }
      if HasPermission(relabelled, r) {
        var p :| p in relabelled && Grants(p, r);
        var i :| 0 <= i < |relabelled| && relabelled[i] == p;
        assert perms[i] in perms && Grants(perms[i], r);
      }
    }
  }

  /** A schema without "properties" refuses every non-empty argument map. */
  lemma NoPropertiesRejectsArguments(reg: Registry, toolName: string, arguments: map<string, Json>, agentPermissions: seq<ToolPermission>)
    requires toolName in reg && "properties" !in reg[toolName].parametersSchema
    requires arguments != map[]
    ensures !InvocationAllowed(reg, toolName, arguments, agentPermissions)
  {
    var a :| a in arguments;
    assert !InProperties(SchemaProperties(reg[toolName].parametersSchema), a);
  }

  /** After `register_tool`, the new tool is registered exactly when it is
      active, and every other name keeps its status. */
  lemma RegisteredAfterRegister(reg: Registry, tool: ToolRegistration, name: string)
    ensures IsRegistered(Register(reg, tool), name) <==>
            if name == tool.name then tool.isActive else IsRegistered(reg, name)
  {
  }

  /** The active flag plays no part in `validate_invocation`. */
  lemma ActiveFlagIgnored(reg: Registry, tool: ToolRegistration, arguments: map<string, Json>, agentPermissions: seq<ToolPermission>)
    ensures InvocationAllowed(Register(reg, tool.(isActive := false)), tool.name, arguments, agentPermissions) <==>
            InvocationAllowed(Register(reg, tool.(isActive := true)), tool.name, arguments, agentPermissions)
  {
  }

  /** The two invocations of test_phase1.py. */
  lemma InvocationExamples()
    ensures var perm := ToolPermission("execute", "math_engine", "calc math");
            var tool := ToolRegistration("calculate_math", "Calculates basic math",
                          map["properties" := JObject(map["expression" := JObject(map["type" := JStr("string")])])],
                          [perm], true);
            var reg := Register(map[], tool);
            InvocationAllowed(reg, "calculate_math", map["expression" := JStr("2+2")], [perm]) &&
            !InvocationAllowed(reg, "delete_database", map[], [perm])
  {
    var perm := ToolPermission("execute", "math_engine", "calc math");
    assert Grants(perm, perm) && perm in [perm];
  }

  class ToolRegistry {
    var tools: Registry

    constructor ()
      ensures tools == map[]
    {
      tools := map[];
    }

    method RegisterTool(tool: ToolRegistration)
      modifies this
      ensures tools == Register(old(tools), tool)
    {
      tools := tools[tool.name := tool];
    }
  }

  class ToolGuard {
    const registry: ToolRegistry

    constructor (registry: ToolRegistry)
      ensures this.registry == registry
    {
      this.registry := registry;
    }

    /** `validate_invocation`; reads the registry and changes nothing. */
    method ValidateInvocation(toolName: string, arguments: map<string, Json>, agentPermissions: seq<ToolPermission>)
      returns (allowed: bool)
      ensures allowed <==> InvocationAllowed(registry.tools, toolName, arguments, agentPermissions)
    {
      var toolReg := GetTool(registry.tools, toolName);
      if toolReg.None? {
        return false;
      }
      var tool := toolReg.value;
      var i := 0;
      while i < |tool.requiredPermissions|
        invariant 0 <= i <= |tool.requiredPermissions|
        invariant forall k :: 0 <= k < i ==> HasPermission(agentPermissions, tool.requiredPermissions[k])
      {
        var required := tool.requiredPermissions[i];
        var hasPermission := false;
        var j := 0;
        while j < |agentPermissions| && !hasPermission
          invariant 0 <= j <= |agentPermissions|
          invariant hasPermission ==> HasPermission(agentPermissions, required)
          invariant !hasPermission ==> forall m :: 0 <= m < j ==> !Grants(agentPermissions[m], required)
        {
          var p := agentPermissions[j];
          hasPermission := p.action == required.action && p.resource == required.resource;
          assert hasPermission ==> p in agentPermissions && Grants(p, required);
          j := j + 1;
        }
        if !hasPermission {
          assert forall p :: p in agentPermissions ==> !Grants(p, required);
          assert required in tool.requiredPermissions;
          return false;
        }
        i := i + 1;
      }
      var schemaProps := SchemaProperties(tool.parametersSchema);
      var remaining := arguments.Keys;
      while remaining != {}
        invariant remaining <= arguments.Keys
        invariant forall a :: a in arguments && a !in remaining ==> InProperties(schemaProps, a)
        decreases remaining
      {
        var argName :| argName in remaining;
        if !InProperties(schemaProps, argName) {
          return false;
        }
        remaining := remaining - {argName};
      }
      return true;
    }
  }
}
