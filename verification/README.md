# Dynamic agent crew: a Dafny model of the wiring layer

The system builds a crew of cooperating agents and tasks from three YAML
documents: the agents, the tasks, and a crew manifest. The manifest names the
participating agents and tasks in order, a process strategy and a verbose flag.
This project models the wiring layer of `src/guga_agent`. That layer:

- loads the three documents;
- registers one decorated factory per agent and per task, both in a
  per-kind registry and as a member of the host class;
- resolves names through those registries;
- assembles the crew.

It is written in three modules, one per concern:

- `values.dfy` (`Values`): the YAML values a document holds (`Value`,
  `Config`, `Document`, `Manifest`), the raised exceptions (`Error`), a
  failure-compatible `Result`, and the text of the error messages.
- `utils.dfy` (`Utils`): `load_yaml_config` as `LoadYamlConfig` over a map
  from paths to parsed documents. `create_methods` as the loop
  `CreateMethods`, which updates two mutable tables in place. `Table` is a
  Python dictionary or a class's attribute table. The loop is specified by
  the fold `Stored`, and the lemmas beside it are the registry's properties.
- `crew.dfy` (`Crew`): the class `DynamicAgentCrew` with its three
  documents and its two registries. Construction is split into `New` (the
  fail-fast loading) and the constructor `Init` (the two `create_methods`
  calls). The factory invocation, the two lookups and `crew()` are functions
  over the registries. The engine's `Agent`, `Task` and `Crew` objects are
  records of the arguments they receive (`Instance`, `CrewUnit`).

Behaviours of the code that the model keeps as written:

- An agent name shared with a task is not rejected. The host-class member
  is overwritten by the task factory (last write wins), while each registry
  keeps its own entry (`HostMembers`, `NameCollision`).
- A task whose `agent` field is missing does not raise a dedicated
  "unknown agent" error. The code looks up `None`, so the error is
  `NotFound(AgentKind, Null)`, printed "Agent 'None' not found.".
- An unknown process name raises a `KeyError` carrying that name. No
  dedicated error kind exists.
- The manifest's `verbose` entry is passed through whatever its type. A
  missing `verbose` key fails with a `KeyError`, like a missing `agents`,
  `tasks` or `process` key.
- Lookups take any YAML value. A list raises the "unhashable" `TypeError`.
  Any other non-string value is simply not found. A manifest `agents` or
  `tasks` entry that is a string is iterated character by character, as
  Python does. Any other modelled value (integer, boolean, null) is not
  iterable; a mapping entry is not modelled.

## Model

| member | source | states |
|---|---|---|
| `Utils.LoadYamlConfig` | src/guga_agent/utils.py:12-16 | fails with a not-found error carrying the path exactly when the path does not exist; otherwise returns the parsed document stored there |
| `Utils.CreateMethods` | src/guga_agent/utils.py:29-33 | the storage dict and the class table each end as their old contents with every config entry registered in iteration order (`Stored`); every configured name is bound to the same decorated factory in both; a ghost record of the creator's invocations, kept by the loop, lists one call per entry in iteration order; correct even when the two tables are one object |
| `Utils.StoredKeys` | src/guga_agent/utils.py:29-33 | after registration the key set is the old key set together with every configured name |
| `Utils.StoredLastWins` | src/guga_agent/utils.py:30-33 | a name is bound to `decorator(creator(name, config))` of its last config entry, so a name processed twice keeps the later value |
| `Utils.StoredDistinct` | src/guga_agent/utils.py:30-33 | with distinct names (a loaded mapping), every entry's name is bound to `decorator(creator(name, config))` of that entry |
| `Utils.StoredFrame` | src/guga_agent/utils.py:32-33 | a name that no config entry carries keeps its old binding, or stays absent |
| `Utils.StoredOrigin` | src/guga_agent/utils.py:29-33 | every binding after registration is either an old one or the decorated product of some config entry with that name |
| `Utils.StoredOverrides` | src/guga_agent/utils.py:32-33 | the binding of a configured name does not depend on the table's previous contents, so the class member and the storage entry coincide |
| `Values.NotFoundMessageNamesRequest` | src/guga_agent/crew.py:52-53 | the not-found message quotes the requested name so that it can be read back; different string names give different messages (a non-string name can share its text with a string, as `None` does with `'None'`) |
| `Crew.AgentTableKinds` | src/guga_agent/crew.py:27 | every entry of the agent registry is an agent factory wrapped by the agent decorator |
| `Crew.TaskTableKinds` | src/guga_agent/crew.py:28 | every entry of the task registry is a task factory wrapped by the task decorator |
| `Crew.HostMembers` | src/guga_agent/crew.py:27-28 | after both registrations the host class holds the task registry's entry for every task name, the agent registry's entry for every other agent name, and its old members under all other names |
| `Crew.NameCollision` | src/guga_agent/crew.py:27-28 | a name shared by an agent and a task leaves the task factory on the host class, while the agent registry still holds the agent factory and the task registry the task factory |
| `Crew.LoadConfigs` | src/guga_agent/crew.py:18-20 | loading succeeds exactly when all three files exist and then yields their documents; otherwise it fails with the first missing path in the order agents, tasks, crew |
| `Crew.ProcessMember` | src/guga_agent/crew.py:77 | `Process[v]` succeeds exactly when `v` is the name of a member; otherwise it fails with a `KeyError` on `v`, or an unhashable error for a list |
| `Crew.DynamicAgentCrew.Init` | src/guga_agent/crew.py:22-28 | the registries are fresh and distinct, start empty and end as the registration of exactly the agent and task documents; their key sets are the agent and task names; the host class ends as both registrations applied in turn |
| `Crew.DynamicAgentCrew.New` | src/guga_agent/crew.py:16-28 | construction fails exactly when loading fails, with the same error and the host class untouched; otherwise it yields a valid crew holding the loaded documents |
| `Crew.DynamicAgentCrew.Invoke` | src/guga_agent/crew.py:32-41 | an agent factory yields an Agent with exactly its config and `verbose` true; a task factory yields a Task with its config, the agent that its `agent` field resolves to, and its `output_file` (None when absent), or fails with that lookup's error |
| `Crew.DynamicAgentCrew.GetAgentByName` | src/guga_agent/crew.py:44-54 | fails with `NotFound(Agent, name)` if and only if a hashable name is not a key of the agent registry; otherwise returns the Agent built from the registered config |
| `Crew.DynamicAgentCrew.GetTaskByName` | src/guga_agent/crew.py:56-66 | fails with `NotFound(Task, name)` when a hashable name is not a key of the task registry; otherwise returns the registered factory's Task or its agent-lookup error |
| `Crew.DynamicAgentCrew.ResolveAll` | src/guga_agent/crew.py:75-76 | succeeds exactly when every name resolves; the result has one element per name and element i is the resolution of name i; on failure the error is that of the first name that fails |
| `Crew.DynamicAgentCrew.Crew` | src/guga_agent/crew.py:68-85 | on success the agent and task lists follow the manifest's name lists element by element, the process is a member named by the manifest and the verbose value is the manifest's; success whenever every key is present, every name resolves and the process is a member; a missing `agents` key or an unknown process yields no crew |
| `Crew.DynamicAgentCrew.AgentFromConfig` | src/guga_agent/crew.py:30-34 | an agent entry of a loaded mapping resolves by its name to a verbose Agent that carries exactly that entry's config |
| `Crew.DynamicAgentCrew.TaskFromConfig` | src/guga_agent/crew.py:36-42 | a task entry of a loaded mapping resolves by its name to a Task with that entry's config, the agent named by its `agent` field and its `output_file`, or to that agent lookup's error |
| `Crew.DynamicAgentCrew.ExampleLookups` | src/guga_agent/crew.py:44-66 | in the two-agent, two-task example each agent and task name resolves to the instance its entry describes |
| `Crew.DynamicAgentCrew.ExampleOrdered` | src/guga_agent/crew.py:75-85 | a manifest listing agents [B, A] and tasks [T2, T1] yields a crew in that order, not in the declaration order |
| `Crew.DynamicAgentCrew.ExampleBogus` | src/guga_agent/crew.py:77 | the same manifest with the process "bogus" yields no crew, only `KeyError("bogus")` |
| `Crew.AssembleExample` | src/guga_agent/crew.py:16-85 | constructing and assembling the example documents end to end gives the manifest-ordered crew, and with process "bogus" gives the `KeyError` |

## Left out

- File I/O and YAML parsing: the file system and the parser are a map from a path to an already-parsed document. Parse errors are not modelled.
- A document whose shape does not fit its role is not modelled. Examples: an empty file (`None`), a non-mapping agents or tasks document, a task entry that is not a mapping.
- Files: agents and tasks documents and crew manifests sit in two separate path maps. A crew file that exists only in the documents map is therefore reported missing, where Python would load it and fail later with another error.
- YAML values other than strings, integers, booleans, null and lists (floats, nested mappings) are not modelled.
- Path construction: `os.path.join(base_dir, 'config', file)` is modelled as `baseDir + "/config/" + file`. Two cases differ: `os.path.join` adds no separator after a `base_dir` that already ends in `/`, and an empty `base_dir` gives `config/agents.yaml` where the model gives `/config/agents.yaml`.
- The engine's `Agent`, `Task`, `Crew` and `Process`: the first three are records of their constructor arguments. `Process` is the set of its member names (`ProcessNames` for the example). Their own validation is not modelled.
- The `CrewBase`, `agent`, `task` and `crew` decorators are not visible. A decorated factory is a tagged value that calls its factory directly. Memoisation and the `crew` decorator's own collection of agents and tasks are not modelled.
- Python class reflection: the host class is a name-keyed table of decorated factories. The class's own methods (`crew`, `get_agent_by_name`, ...) are not in it. A configured name that shadows one of them is recorded in the table, but the model's lookups never go through the table.
- Object identity: instances are values, so whether two lookups return the same object is not modelled.
- Agent and task execution belong to the external engine and are not modelled.
- Crew.DynamicAgentCrew.Crew: this member's failure contract names only the missing `agents` key and an unknown process. The other error paths (a missing `tasks`, `process` or `verbose` key, a non-iterable name list) are fixed by its body and by the converse success clause, not stated one by one.
