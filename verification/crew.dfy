/** The crew assembler (src/guga_agent/crew.py): it loads the three
    configuration documents, registers one factory per agent and per task,
    resolves names through those registries and assembles the crew. */
module Crew {
  import opened Values
  import Utils

  /** The objects the external engine's constructors build, recorded as the
      arguments they receive. */
  datatype Instance =
    | Agent(config: Config, verbose: bool)
    | Task(config: Config, agent: Instance, outputFile: Value)

  /** The assembled crew: ordered agents and tasks, a Process member name
      and the manifest's verbose value. */
  datatype CrewUnit = CrewUnit(agents: seq<Instance>, tasks: seq<Instance>, process: string, verbose: Value)

  /** The closure a creator returns: it captures one config entry. */
  datatype Factory = AgentMethod(config: Config) | TaskMethod(config: Config)

  /** The engine's `agent` and `task` decorators, whose effect is not visible
      here: a decorated factory is tagged and calls through when invoked. */
  datatype Decorator = AgentDecorator | TaskDecorator

  datatype Method = Decorated(decorator: Decorator, factory: Factory)

  function CreateAgentMethod(name: string, config: Config): Factory {
    AgentMethod(config)
  }

  function CreateTaskMethod(name: string, config: Config): Factory {
    TaskMethod(config)
  }

  function DecorateAgent(f: Factory): Method {
    Decorated(AgentDecorator, f)
  }

  function DecorateTask(f: Factory): Method {
    Decorated(TaskDecorator, f)
  }

  /** The agent registry that registering `agents` into an empty table yields. */
  ghost function AgentTable(agents: Document): map<string, Method> {
    Utils.Stored(map[], agents, CreateAgentMethod, DecorateAgent)
  }

  /** The task registry that registering `tasks` into an empty table yields. */
  ghost function TaskTable(tasks: Document): map<string, Method> {
    Utils.Stored(map[], tasks, CreateTaskMethod, DecorateTask)
  }

  /** The host class's member table after the agents and then the tasks are attached. */
  ghost function HostAfter(host: map<string, Method>, agents: Document, tasks: Document): map<string, Method> {
    Utils.Stored(Utils.Stored(host, agents, CreateAgentMethod, DecorateAgent), tasks, CreateTaskMethod, DecorateTask)
  }

  /** Every entry of an agent registry is a decorated agent factory. */
  lemma AgentTableKinds(agents: Document)
    ensures forall n :: n in AgentTable(agents) ==>
              AgentTable(agents)[n].decorator == AgentDecorator && AgentTable(agents)[n].factory.AgentMethod?
  {
    forall n | n in AgentTable(agents)
      ensures AgentTable(agents)[n].decorator == AgentDecorator && AgentTable(agents)[n].factory.AgentMethod?
    {
      Utils.StoredOrigin(map[], agents, CreateAgentMethod, DecorateAgent, n);
    }
  }

  /** Every entry of a task registry is a decorated task factory. */
  lemma TaskTableKinds(tasks: Document)
    ensures forall n :: n in TaskTable(tasks) ==>
              TaskTable(tasks)[n].decorator == TaskDecorator && TaskTable(tasks)[n].factory.TaskMethod?
  {
    forall n | n in TaskTable(tasks)
      ensures TaskTable(tasks)[n].decorator == TaskDecorator && TaskTable(tasks)[n].factory.TaskMethod?
    {
      Utils.StoredOrigin(map[], tasks, CreateTaskMethod, DecorateTask, n);
    }
  }

  /** What the shared host class holds after construction: a task name wins
      over an agent name it collides with, an agent-only name holds the agent
      factory, and every other member is untouched. */
  lemma HostMembers(host: map<string, Method>, agents: Document, tasks: Document, n: string)
    ensures n in Names(tasks) ==>
              n in HostAfter(host, agents, tasks) && n in TaskTable(tasks) &&
              HostAfter(host, agents, tasks)[n] == TaskTable(tasks)[n]
    ensures n in Names(agents) && n !in Names(tasks) ==>
              n in HostAfter(host, agents, tasks) && n in AgentTable(agents) &&
              HostAfter(host, agents, tasks)[n] == AgentTable(agents)[n]
    ensures n !in Names(agents) && n !in Names(tasks) ==>
              (n in HostAfter(host, agents, tasks) <==> n in host) &&
              (n in host ==> HostAfter(host, agents, tasks)[n] == host[n])
  {
    var mid := Utils.Stored(host, agents, CreateAgentMethod, DecorateAgent);
    if n in Names(tasks) {
      Utils.StoredOverrides(mid, map[], tasks, CreateTaskMethod, DecorateTask, n);
    } else {
      Utils.StoredFrame(mid, tasks, CreateTaskMethod, DecorateTask, n);
      if n in Names(agents) {
        Utils.StoredOverrides(host, map[], agents, CreateAgentMethod, DecorateAgent, n);
      } else {
        Utils.StoredFrame(host, agents, CreateAgentMethod, DecorateAgent, n);
      }
    }
  }

  /** An agent name shared with a task: the host member is the task factory,
      while each registry keeps its own entry. */
  lemma NameCollision(host: map<string, Method>, agents: Document, tasks: Document, n: string)
    requires n in Names(agents) && n in Names(tasks)
    ensures n in HostAfter(host, agents, tasks) && HostAfter(host, agents, tasks)[n].decorator == TaskDecorator
    ensures n in AgentTable(agents) && AgentTable(agents)[n].factory.AgentMethod?
    ensures n in TaskTable(tasks) && TaskTable(tasks)[n].factory.TaskMethod?
  {
    HostMembers(host, agents, tasks, n);
    AgentTableKinds(agents);
    TaskTableKinds(tasks);
    Utils.StoredKeys(map[], agents, CreateAgentMethod, DecorateAgent);
  }

  const AgentsFile := "agents.yaml"
  const TasksFile := "tasks.yaml"
  const CrewFile := "crew.yaml"

  /** `os.path.join(base_dir, 'config', file)` with a '/' separator. */
  function ConfigPath(baseDir: string, file: string): string {
    baseDir + "/config/" + file
  }

  /** Load the agents, tasks and crew documents in that order, stopping at
      the first missing file. */
  function LoadConfigs(files: Files, baseDir: string): (r: Result<(Document, Document, Manifest)>)
    ensures r.Success? <==>
              ConfigPath(baseDir, AgentsFile) in files.documents &&
              ConfigPath(baseDir, TasksFile) in files.documents &&
              ConfigPath(baseDir, CrewFile) in files.manifests
    ensures r.Success? ==>
              r.value == (files.documents[ConfigPath(baseDir, AgentsFile)],
                          files.documents[ConfigPath(baseDir, TasksFile)],
                          files.manifests[ConfigPath(baseDir, CrewFile)])
    ensures r.Failure? ==>
              r.error == FileNotFound(
                if ConfigPath(baseDir, AgentsFile) !in files.documents then ConfigPath(baseDir, AgentsFile)
                else if ConfigPath(baseDir, TasksFile) !in files.documents then ConfigPath(baseDir, TasksFile)
                else ConfigPath(baseDir, CrewFile))
  {
    var agents :- Utils.LoadYamlConfig(files.documents, ConfigPath(baseDir, AgentsFile));
    var tasks :- Utils.LoadYamlConfig(files.documents, ConfigPath(baseDir, TasksFile));
    var crew :- Utils.LoadYamlConfig(files.manifests, ConfigPath(baseDir, CrewFile));
    Success((agents, tasks, crew))
  }

  /** `for name in value`: a list yields its items, a string its characters,
      anything else is not iterable. */
  function Iterate(v: Value): Result<seq<Value>> {
    match v
    case List(items) => Success(items)
    case Str(s) => Success(seq(|s|, i requires 0 <= i < |s| => Str([s[i]])))
    case _ => Failure(NotIterable(TypeName(v)))
  }

  /** `manifest[key]`. */
  function Field(manifest: Manifest, key: string): Result<Value> {
    if key in manifest then Success(manifest[key]) else Failure(KeyError(Str(key)))
  }

  /** `Process[v]`: the member of that name among `processes`. */
  function ProcessMember(processes: set<string>, v: Value): (r: Result<string>)
    ensures r.Success? <==> v.Str? && v.s in processes
    ensures r.Success? ==> r.value == v.s
    ensures r.Failure? ==> r.error == if Hashable(v) then KeyError(v) else Unhashable
  {
    if !Hashable(v) then Failure(Unhashable)
    else if v.Str? && v.s in processes then Success(v.s)
    else Failure(KeyError(v))
  }

  class DynamicAgentCrew {
    const agentsConfig: Document
    const tasksConfig: Document
    const crewConfig: Manifest
    const agentMethods: Utils.Table<Method>
    const taskMethods: Utils.Table<Method>

    /** The state construction leaves: two distinct registries, each built
        from its own document, holding factories of its own kind. */
    ghost predicate Valid()
      reads this, agentMethods, taskMethods
    {
      && agentMethods != taskMethods
      && agentMethods.items == AgentTable(agentsConfig)
      && taskMethods.items == TaskTable(tasksConfig)
      && (forall n :: n in agentMethods.items ==> agentMethods.items[n].factory.AgentMethod?)
      && (forall n :: n in taskMethods.items ==> taskMethods.items[n].factory.TaskMethod?)
    }

    /** The registration half of construction: fresh empty registries, then
        every agent and every task attached to them and to the host class. */
    constructor Init(agentsConfig: Document, tasksConfig: Document, crewConfig: Manifest, cls: Utils.Table<Method>)
      modifies cls
      ensures Valid()
      ensures this.agentsConfig == agentsConfig && this.tasksConfig == tasksConfig && this.crewConfig == crewConfig
      ensures fresh(agentMethods) && fresh(taskMethods)
      ensures agentMethods.items.Keys == Names(agentsConfig)
      ensures taskMethods.items.Keys == Names(tasksConfig)
      ensures cls.items == HostAfter(old(cls.items), agentsConfig, tasksConfig)
    {
      var agents := new Utils.Table<Method>();
      var tasks := new Utils.Table<Method>();
      ghost var agentCalls: seq<(string, Factory)>;
      ghost var taskCalls: seq<(string, Factory)>;
      agentCalls := Utils.CreateMethods(agentsConfig, CreateAgentMethod, agents, DecorateAgent, cls);
      taskCalls := Utils.CreateMethods(tasksConfig, CreateTaskMethod, tasks, DecorateTask, cls);
      Utils.StoredKeys(map[], agentsConfig, CreateAgentMethod, DecorateAgent);
      Utils.StoredKeys(map[], tasksConfig, CreateTaskMethod, DecorateTask);
      AgentTableKinds(agentsConfig);
      TaskTableKinds(tasksConfig);
      this.agentsConfig := agentsConfig;
      this.tasksConfig := tasksConfig;
      this.crewConfig := crewConfig;
      agentMethods := agents;
      taskMethods := tasks;
    }

    /** Construction: load the three documents (failing on the first missing
        one, with the host class untouched), then register. */
    static method New(files: Files, baseDir: string, cls: Utils.Table<Method>) returns (r: Result<DynamicAgentCrew>)
      modifies cls
      ensures r.Failure? <==> LoadConfigs(files, baseDir).Failure?
      ensures r.Failure? ==> r.error == LoadConfigs(files, baseDir).error && cls.items == old(cls.items)
      ensures r.Success? ==>
                var loaded := LoadConfigs(files, baseDir).value;
                && fresh(r.value) && fresh(r.value.agentMethods) && fresh(r.value.taskMethods)
                && r.value.Valid()
                && r.value.agentsConfig == loaded.0
                && r.value.tasksConfig == loaded.1
                && r.value.crewConfig == loaded.2
                && r.value.agentMethods.items.Keys == Names(loaded.0)
                && r.value.taskMethods.items.Keys == Names(loaded.1)
                && cls.items == HostAfter(old(cls.items), loaded.0, loaded.1)
    {
      var loaded := LoadConfigs(files, baseDir);
      if loaded.Failure? {
        return Failure(loaded.error);
      }
      var (agents, tasks, manifest) := loaded.value;
      var c := new DynamicAgentCrew.Init(agents, tasks, manifest, cls);
      return Success(c);
    }

    /** Invoke a stored factory: an agent factory builds a verbose Agent from
        its config; a task factory resolves its config's `agent` name and
        builds a Task with that agent and the config's `output_file`. */
    function Invoke(m: Method): (r: Result<Instance>)
      reads this, agentMethods, taskMethods
      requires Valid()
      ensures m.factory.AgentMethod? ==> r == Success(Agent(m.factory.config, true))
      ensures m.factory.TaskMethod? ==>
                var agent := GetAgentByName(Get(m.factory.config, "agent"));
                && (r.Success? <==> agent.Success?)
                && (agent.Failure? ==> r.error == agent.error)
                && (agent.Success? ==> r.value == Task(m.factory.config, agent.value, Get(m.factory.config, "output_file")))
      decreases if m.factory.TaskMethod? then 2 else 0
    {
      match m.factory
      case AgentMethod(config) => Success(Agent(config, true))
      case TaskMethod(config) =>
        var agent :- GetAgentByName(Get(config, "agent"));
        Success(Task(config, agent, Get(config, "output_file")))
    }

    /** Resolve an agent name: not found exactly when the name is not a key
        of the agent registry; otherwise the registered factory's agent. */
    function GetAgentByName(name: Value): (r: Result<Instance>)
      reads this, agentMethods, taskMethods
      requires Valid()
      ensures !Hashable(name) ==> r == Failure(Unhashable)
      ensures Hashable(name) ==> (r.Failure? <==> !(name.Str? && name.s in agentMethods.items))
      ensures Hashable(name) && r.Failure? ==> r.error == NotFound(AgentKind, name)
      ensures r.Success? ==>
                name.Str? && name.s in agentMethods.items &&
                r.value == Agent(agentMethods.items[name.s].factory.config, true)
      decreases 1
    {
      if !Hashable(name) then Failure(Unhashable)
      else if !(name.Str? && name.s in agentMethods.items) then Failure(NotFound(AgentKind, name))
      else Invoke(agentMethods.items[name.s])
    }

    /** Resolve a task name: not found exactly when the name is not a key of
        the task registry; otherwise the registered factory's result. */
    function GetTaskByName(name: Value): (r: Result<Instance>)
      reads this, agentMethods, taskMethods
      requires Valid()
      ensures !Hashable(name) ==> r == Failure(Unhashable)
      ensures Hashable(name) && !(name.Str? && name.s in taskMethods.items) ==> r == Failure(NotFound(TaskKind, name))
      ensures name.Str? && name.s in taskMethods.items ==>
                var config := taskMethods.items[name.s].factory.config;
                var agent := GetAgentByName(Get(config, "agent"));
                && (r.Success? <==> agent.Success?)
                && (agent.Failure? ==> r.error == agent.error)
                && (agent.Success? ==> r.value == Task(config, agent.value, Get(config, "output_file")))
      decreases 3
    {
      if !Hashable(name) then Failure(Unhashable)
      else if !(name.Str? && name.s in taskMethods.items) then Failure(NotFound(TaskKind, name))
      else Invoke(taskMethods.items[name.s])
    }

    function Lookup(kind: Kind, name: Value): Result<Instance>
      reads this, agentMethods, taskMethods
      requires Valid()
    {
      match kind
      case AgentKind => GetAgentByName(name)
      case TaskKind => GetTaskByName(name)
    }

    /** Resolve a list of names in order, stopping at the first failure. */
    function ResolveAll(kind: Kind, names: seq<Value>): (r: Result<seq<Instance>>)
      reads this, agentMethods, taskMethods
      requires Valid()
      ensures r.Success? <==> forall i :: 0 <= i < |names| ==> Lookup(kind, names[i]).Success?
      ensures r.Success? ==>
                |r.value| == |names| &&
                forall i :: 0 <= i < |names| ==> Lookup(kind, names[i]) == Success(r.value[i])
      ensures r.Failure? ==>
                exists i :: 0 <= i < |names| && Lookup(kind, names[i]) == Failure(r.error) &&
                            forall j :: 0 <= j < i ==> Lookup(kind, names[j]).Success?
      decreases |names|
    {
      if names == [] then Success([])
      else
        var first :- Lookup(kind, names[0]);
        var rest :- ResolveAll(kind, names[1..]);
        Success([first] + rest)
    }

    /** Assemble the crew from the manifest: its agents and tasks resolved in
        manifest order, its process looked up among `processes`, its verbose
        value passed through; the first failure aborts the assembly. */
    function Crew(processes: set<string>): (r: Result<CrewUnit>)
      reads this, agentMethods, taskMethods
      requires Valid()
      ensures r.Success? ==>
                && "agents" in crewConfig && Iterate(crewConfig["agents"]).Success?
                && var names := Iterate(crewConfig["agents"]).value;
                   && |r.value.agents| == |names|
                   && forall i :: 0 <= i < |names| ==> GetAgentByName(names[i]) == Success(r.value.agents[i])
      ensures r.Success? ==>
                && "tasks" in crewConfig && Iterate(crewConfig["tasks"]).Success?
                && var names := Iterate(crewConfig["tasks"]).value;
                   && |r.value.tasks| == |names|
                   && forall i :: 0 <= i < |names| ==> GetTaskByName(names[i]) == Success(r.value.tasks[i])
      ensures r.Success? ==>
                "process" in crewConfig && crewConfig["process"] == Str(r.value.process) && r.value.process in processes
      ensures r.Success? ==> "verbose" in crewConfig && r.value.verbose == crewConfig["verbose"]
      ensures (&& "agents" in crewConfig && "tasks" in crewConfig && "process" in crewConfig && "verbose" in crewConfig
               && Iterate(crewConfig["agents"]).Success? && Iterate(crewConfig["tasks"]).Success?
               && (forall i :: 0 <= i < |Iterate(crewConfig["agents"]).value| ==>
                     GetAgentByName(Iterate(crewConfig["agents"]).value[i]).Success?)
               && (forall i :: 0 <= i < |Iterate(crewConfig["tasks"]).value| ==>
                     GetTaskByName(Iterate(crewConfig["tasks"]).value[i]).Success?)
               && crewConfig["process"].Str? && crewConfig["process"].s in processes)
              ==> r.Success?
      ensures "agents" !in crewConfig ==> r == Failure(KeyError(Str("agents")))
      ensures "process" in crewConfig && !(crewConfig["process"].Str? && crewConfig["process"].s in processes) ==>
                r.Failure?
    {
      var agentNames :- Field(crewConfig, "agents");
      var agentList :- Iterate(agentNames);
      var agents :- ResolveAll(AgentKind, agentList);
      var taskNames :- Field(crewConfig, "tasks");
      var taskList :- Iterate(taskNames);
      var tasks :- ResolveAll(TaskKind, taskList);
      var processName :- Field(crewConfig, "process");
      var process :- ProcessMember(processes, processName);
      var verbose :- Field(crewConfig, "verbose");
      Success(CrewUnit(agents, tasks, process, verbose))
    }

    /** An agent entry of a loaded mapping resolves to a verbose Agent carrying
        exactly that entry's config. */
    lemma AgentFromConfig(i: nat)
      requires Valid() && DistinctNames(agentsConfig) && i < |agentsConfig|
      ensures GetAgentByName(Str(agentsConfig[i].0)) == Success(Agent(agentsConfig[i].1, true))
    {
      Utils.StoredLastWins(map[], agentsConfig, CreateAgentMethod, DecorateAgent, i);
    }

    /** A task entry of a loaded mapping resolves to a Task carrying that
        entry's config, the agent its `agent` field names and its
        `output_file` (None when absent), or to that agent's lookup error. */
    lemma TaskFromConfig(i: nat)
      requires Valid() && DistinctNames(tasksConfig) && i < |tasksConfig|
      ensures var config := tasksConfig[i].1;
              var agent := GetAgentByName(Get(config, "agent"));
              GetTaskByName(Str(tasksConfig[i].0)) ==
                if agent.Success? then Success(Task(config, agent.value, Get(config, "output_file")))
                else Failure(agent.error)
    {
      Utils.StoredLastWins(map[], tasksConfig, CreateTaskMethod, DecorateTask, i);
    }

    /** With the example documents loaded, each example name resolves to
        the instance its entry describes. */
    lemma ExampleLookups()
      requires Valid() && agentsConfig == ExampleAgents && tasksConfig == ExampleTasks
      ensures GetAgentByName(Str("A")) == Success(Agent(Researcher, true))
      ensures GetAgentByName(Str("B")) == Success(Agent(Writer, true))
      ensures GetTaskByName(Str("T1")) == Success(Task(Research, Agent(Researcher, true), Str("report.md")))
      ensures GetTaskByName(Str("T2")) == Success(Task(Draft, Agent(Writer, true), Null))
    {
      assert DistinctNames(agentsConfig);
      assert DistinctNames(tasksConfig);
      AgentFromConfig(0);
      AgentFromConfig(1);
      TaskFromConfig(0);
      TaskFromConfig(1);
    }

    /** The example manifest with the process "sequential" assembles the
        crew in manifest order. */
    lemma ExampleOrdered()
      requires Valid() && agentsConfig == ExampleAgents && tasksConfig == ExampleTasks
      requires crewConfig == ExampleManifest("sequential")
      ensures Crew(ProcessNames) == Success(ExampleUnit)
    {
      ExampleLookups();
      var agentNames, taskNames := [Str("B"), Str("A")], [Str("T2"), Str("T1")];
      assert Lookup(AgentKind, agentNames[0]).Success? && Lookup(AgentKind, agentNames[1]).Success?;
      assert Lookup(TaskKind, taskNames[0]).Success? && Lookup(TaskKind, taskNames[1]).Success?;
      var agents := ResolveAll(AgentKind, agentNames).value;
      var tasks := ResolveAll(TaskKind, taskNames).value;
      assert agents[0] == Agent(Writer, true) && agents[1] == Agent(Researcher, true);
      assert tasks[0] == ExampleUnit.tasks[0] && tasks[1] == ExampleUnit.tasks[1];
      assert agents == ExampleUnit.agents && tasks == ExampleUnit.tasks;
      assert Iterate(crewConfig["agents"]) == Success(agentNames);
      assert Iterate(crewConfig["tasks"]) == Success(taskNames);
    }

    /** The example manifest with the process "bogus" yields no crew. */
    lemma ExampleBogus()
      requires Valid() && agentsConfig == ExampleAgents && tasksConfig == ExampleTasks
      requires crewConfig == ExampleManifest("bogus")
      ensures Crew(ProcessNames) == Failure(KeyError(Str("bogus")))
    {
      ExampleLookups();
      assert ResolveAll(AgentKind, [Str("B"), Str("A")]).Success?;
      assert ResolveAll(TaskKind, [Str("T2"), Str("T1")]).Success?;
      assert "bogus" !in ProcessNames;
    }
  }

  /** The Process members of the external engine. */
  const ProcessNames: set<string> := {"sequential", "hierarchical"}

  const Researcher: Config := map["role" := Str("researcher")]
  const Writer: Config := map["role" := Str("writer")]
  const Research: Config := map["agent" := Str("A"), "output_file" := Str("report.md")]
  const Draft: Config := map["agent" := Str("B")]

  /** Agents declared A then B; tasks T1 (agent A, with an output file) then T2 (agent B). */
  const ExampleAgents: Document := [("A", Researcher), ("B", Writer)]
  const ExampleTasks: Document := [("T1", Research), ("T2", Draft)]

  /** A manifest listing the agents and tasks in the opposite order. */
  function ExampleManifest(process: string): Manifest {
    map["agents" := List([Str("B"), Str("A")]), "tasks" := List([Str("T2"), Str("T1")]),
        "process" := Str(process), "verbose" := Bool(true)]
  }

  /** The crew the example manifest must produce. */
  const ExampleUnit: CrewUnit :=
    CrewUnit([Agent(Writer, true), Agent(Researcher, true)],
             [Task(Draft, Agent(Writer, true), Null), Task(Research, Agent(Researcher, true), Str("report.md"))],
             "sequential", Bool(true))

  /** Build the example documents into a crew and assemble it twice: with the
      process "sequential" the crew keeps the manifest's order, not the
      declaration order; with the process "bogus" no crew is produced. */
  method AssembleExample() returns (ordered: Result<CrewUnit>, bogus: Result<CrewUnit>)
    ensures ordered == Success(ExampleUnit)
    ensures bogus == Failure(KeyError(Str("bogus")))
  {
    var documents := map[ConfigPath("app", AgentsFile) := ExampleAgents, ConfigPath("app", TasksFile) := ExampleTasks];
    var cls := new Utils.Table<Method>();
    var built := DynamicAgentCrew.New(Files(documents, map[ConfigPath("app", CrewFile) := ExampleManifest("sequential")]), "app", cls);
    assert built.Success?;
    built.value.ExampleOrdered();
    ordered := built.value.Crew(ProcessNames);
    built := DynamicAgentCrew.New(Files(documents, map[ConfigPath("app", CrewFile) := ExampleManifest("bogus")]), "app", cls);
    assert built.Success?;
    built.value.ExampleBogus();
    bogus := built.value.Crew(ProcessNames);
  }
}
