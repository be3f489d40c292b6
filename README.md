# SonarQube health checks, process launch and project-list helpers in Dafny

This project models five pieces of SonarQube's sequential logic:

- **Health reduction** (`HealthCheckerImpl`). The node checks, or the cluster checks, are folded into one `Health` starting from GREEN. Each step keeps the worse status and the causes of both sides. `HealthReducer.apply` reuses one builder, which it clears first.
- **The cluster-health web service** (`ClusterHealthAction`).
  - A standalone server answers 501.
  - Otherwise the response carries the cluster status and causes, and one entry per node.
  - Node entries are stably sorted by node type. A SEARCH node's entry hides its health and causes.
  - The protobuf builders are classes that the action clears and fills.
- **Child-process launch** (`ProcessLauncherImpl`).
  - Java and Elasticsearch command lines, and the properties file handed to a Java child.
  - The generated `jvm.options` file.
  - The configuration files written for Elasticsearch.
  - Cleanup of a launch that fails.

  The operating system is a `Host` object whose effects are recorded in an event log. Which operations fail is a fixed trait of the host. Each launcher method is proved equal to a function of the command and the host state, and the properties of a launch are lemmas about that function.
- **Project-list helpers** (`apps/projects/utils.ts`): sort parameters and the overall/leak sort switch, the metrics, facets and page size per view, and the request data of a project search.
- **Cluster property defaults** (`ClusterProperties.putClusterDefaults`): nine puts into a caller's `Properties`.

Files:

- `wrappers.dfy`: `Option` and `Result`.
- `text.dfy`: join, split and decimal printing/parsing, with their round trips.
- `health.dfy`, `cluster_health_action.dfy`, `jvm_options.dfy`, `process_launcher.dfy`, `projects_utils.dfy` and `cluster_properties.dfy`: one module per source file. The `jvm.options` content gets its own module.

Divergences and modelling choices:

- **Node status.** A node's health status is its own `NodeHealth.Status` enum in the source; the model reuses the health `Status`, since both have the constants GREEN, YELLOW, RED and the action converts between them by name only.
- **Status order.** The `Health`, `NodeHealth`, `NodeDetails`, `ClusterHealth` and `ProcessEntryPoint` sources are not part of this model. The status order GREEN < YELLOW < RED comes from the web service's description. The node-type order is APPLICATION < SEARCH. The four child property names (`process.key`, `process.index`, `process.terminationTimeout`, `process.sharedDir`) are taken as distinct constants.
- **Causes are sets.** The order in which a cause set is iterated is unspecified. So a response's cause list is specified as "each cause exactly once" (equal multisets), not as an order.
- **`checkCluster` return type.** `ClusterHealthAction` calls `checkCluster()` for a `ClusterHealth`, but `HealthCheckerImpl.checkCluster()` returns a `Health`. The action is modelled as receiving a `ClusterHealth` record (health and nodes). A node sequence stands for the iteration order of the node set.
- **JavaScript truthiness.** `visualization || 'risk'`, `if (filter)` and `if (sort.s)` are modelled as "present and non-empty".

## Model

| member | source | states |
|---|---|---|
| Health.OrdinalAndNameInjective | server/sonar-server/src/main/java/org/sonar/server/health/HealthCheckerImpl.java:86-94 | Distinct statuses have distinct ordinals and distinct names, so comparing by ordinal or valueOf by name is unambiguous. |
| Health.WorseOf | server/sonar-server/src/main/java/org/sonar/server/health/HealthCheckerImpl.java:86-94 | worseOf returns one of its two arguments, and its ordinal is at least that of each. |
| Health.WorseOfIdempotent | server/sonar-server/src/main/java/org/sonar/server/health/HealthCheckerImpl.java:86-94 | worseOf(s, s) = s. |
| Health.WorseOfCommutative | server/sonar-server/src/main/java/org/sonar/server/health/HealthCheckerImpl.java:86-94 | worseOf does not depend on argument order. |
| Health.WorseOfAssociative | server/sonar-server/src/main/java/org/sonar/server/health/HealthCheckerImpl.java:86-94 | worseOf is associative. |
| Health.WorseOfGreen | server/sonar-server/src/main/java/org/sonar/server/health/HealthCheckerImpl.java:56 | GREEN, the seed of the reduction, is the identity of worseOf. |
| Health.MergeIdentity | server/sonar-server/src/main/java/org/sonar/server/health/HealthCheckerImpl.java:56 | Health.GREEN with no causes is a two-sided identity of the reducer. |
| Health.MergeCommutative | server/sonar-server/src/main/java/org/sonar/server/health/HealthCheckerImpl.java:78-84 | The reducer's result does not depend on which side a health comes from. |
| Health.MergeAssociative | server/sonar-server/src/main/java/org/sonar/server/health/HealthCheckerImpl.java:78-84 | The reducer is associative, as Stream.reduce requires. |
| Health.WorstStatusUnique | server/sonar-server/src/main/java/org/sonar/server/health/HealthCheckerImpl.java:54-57 | "The worst status among GREEN and the checks" names a single status. |
| Health.ReduceEmpty | server/sonar-server/src/main/java/org/sonar/server/health/HealthCheckerImpl.java:55-56 | Reducing no checks gives GREEN with no causes. |
| Health.ReduceIsWorstOfAll | server/sonar-server/src/main/java/org/sonar/server/health/HealthCheckerImpl.java:54-57 | The reduced status is the worst of GREEN and every status. The reduced causes are exactly the union of all causes. |
| Health.ReduceOrderIndependent | server/sonar-server/src/main/java/org/sonar/server/health/HealthCheckerImpl.java:54-63 | Two lists of the same healths, in any order, reduce to the same health. |
| Health.HealthBuilder.constructor | server/sonar-server/src/main/java/org/sonar/server/health/HealthCheckerImpl.java:75 | A new builder has no status and no causes. |
| Health.HealthBuilder.Clear | server/sonar-server/src/main/java/org/sonar/server/health/HealthCheckerImpl.java:79 | clear drops the status and every cause. |
| Health.HealthBuilder.SetStatus | server/sonar-server/src/main/java/org/sonar/server/health/HealthCheckerImpl.java:80 | setStatus sets the status and keeps the causes. |
| Health.HealthBuilder.AddCause | server/sonar-server/src/main/java/org/sonar/server/health/HealthCheckerImpl.java:81-82 | addCause adds one cause and keeps the status. |
| Health.HealthReducer.constructor | server/sonar-server/src/main/java/org/sonar/server/health/HealthCheckerImpl.java:65-75 | The singleton reducer owns a fresh builder. |
| Health.HealthReducer.AddAll | server/sonar-server/src/main/java/org/sonar/server/health/HealthCheckerImpl.java:81-82 | The forEach loop adds every cause of a set to the builder and keeps its status. |
| Health.HealthReducer.Apply | server/sonar-server/src/main/java/org/sonar/server/health/HealthCheckerImpl.java:78-84 | apply returns worseOf of the statuses and exactly the causes of left plus right. Because the builder is cleared first, nothing from an earlier call leaks in, and the result equals Merge. |
| Health.Results | server/sonar-server/src/main/java/org/sonar/server/health/HealthCheckerImpl.java:55 | map(check) gives one health per check, in order. |
| Health.CheckNodeIsWorstOfChecks | server/sonar-server/src/main/java/org/sonar/server/health/HealthCheckerImpl.java:53-57 | checkNode's status is at least every node check's status and is GREEN or one of them. Its causes are exactly those of the node checks. |
| Health.CheckClusterIsWorstOfChecks | server/sonar-server/src/main/java/org/sonar/server/health/HealthCheckerImpl.java:59-63 | checkCluster's status is at least every cluster check's status and is GREEN or one of them. |
| Health.NodeOnlyCheckerClusterIsGreen | server/sonar-server/src/main/java/org/sonar/server/health/HealthCheckerImpl.java:38-41 | A checker built from node checks only returns GREEN with no causes from checkCluster. |
| Health.ClusterOnlyCheckerNodeIsGreen | server/sonar-server/src/main/java/org/sonar/server/health/HealthCheckerImpl.java:43-46 | A checker built from cluster checks only returns GREEN with no causes from checkNode. |
| Health.ChecksAreIndependent | server/sonar-server/src/main/java/org/sonar/server/health/HealthCheckerImpl.java:53-63 | checkCluster depends on the cluster checks alone, and checkNode on the node checks alone. |
| ClusterHealthAction.WsHealthValueOf | server/sonar-server/src/main/java/org/sonar/server/platform/ws/ClusterHealthAction.java:71 | WsSystem.Health.valueOf finds a constant exactly when one has the given name, and then that constant. |
| ClusterHealthAction.ToWsHealth | server/sonar-server/src/main/java/org/sonar/server/platform/ws/ClusterHealthAction.java:71 | The response health has the same name as the status. |
| ClusterHealthAction.WsNodeTypeValueOf | server/sonar-server/src/main/java/org/sonar/server/platform/ws/ClusterHealthAction.java:90 | WsSystem.NodeType.valueOf finds a constant exactly when one has the given name, and then that constant. |
| ClusterHealthAction.ToWsNodeType | server/sonar-server/src/main/java/org/sonar/server/platform/ws/ClusterHealthAction.java:90 | The entry's node type has the same name as the node's type. |
| ClusterHealthAction.Messages | server/sonar-server/src/main/java/org/sonar/server/platform/ws/ClusterHealthAction.java:98-100 | The messages of a cause list, position by position. |
| ClusterHealthAction.InsertByTypeMultiset | server/sonar-server/src/main/java/org/sonar/server/platform/ws/ClusterHealthAction.java:74-75 | Inserting a node into the sorted prefix adds exactly that node. |
| ClusterHealthAction.InsertByTypeSorted | server/sonar-server/src/main/java/org/sonar/server/platform/ws/ClusterHealthAction.java:74-75 | Inserting into a list sorted by type ordinal keeps it sorted. |
| ClusterHealthAction.InsertByTypeOfType | server/sonar-server/src/main/java/org/sonar/server/platform/ws/ClusterHealthAction.java:74-75 | Insertion puts a node ahead of every node of its own type, so each type's order is kept. |
| ClusterHealthAction.SortByTypeIsStableSort | server/sonar-server/src/main/java/org/sonar/server/platform/ws/ClusterHealthAction.java:74-75 | sorted(comparingInt(type ordinal)) gives a permutation of the nodes, sorted by ordinal, in which nodes of one type keep their order. |
| ClusterHealthAction.CauseBuilder.constructor | server/sonar-server/src/main/java/org/sonar/server/platform/ws/ClusterHealthAction.java:68 | A new cause builder has an empty message. |
| ClusterHealthAction.CauseBuilder.Clear | server/sonar-server/src/main/java/org/sonar/server/platform/ws/ClusterHealthAction.java:99 | clear empties the message. |
| ClusterHealthAction.CauseBuilder.SetMessage | server/sonar-server/src/main/java/org/sonar/server/platform/ws/ClusterHealthAction.java:99 | setMessage sets the message. |
| ClusterHealthAction.NodeBuilder.constructor | server/sonar-server/src/main/java/org/sonar/server/platform/ws/ClusterHealthAction.java:67 | A new node builder holds nothing. |
| ClusterHealthAction.NodeBuilder.Clear | server/sonar-server/src/main/java/org/sonar/server/platform/ws/ClusterHealthAction.java:83 | clear drops health, causes and details. |
| ClusterHealthAction.NodeBuilder.SetHealth | server/sonar-server/src/main/java/org/sonar/server/platform/ws/ClusterHealthAction.java:85 | setHealth sets the health and nothing else. |
| ClusterHealthAction.NodeBuilder.AddCauses | server/sonar-server/src/main/java/org/sonar/server/platform/ws/ClusterHealthAction.java:86 | addCauses appends one cause and changes nothing else. |
| ClusterHealthAction.NodeBuilder.SetDetails | server/sonar-server/src/main/java/org/sonar/server/platform/ws/ClusterHealthAction.java:89-94 | The chained setters set type, name, host, port and started, and keep health and causes. |
| ClusterHealthAction.ResponseBuilder.constructor | server/sonar-server/src/main/java/org/sonar/server/platform/ws/ClusterHealthAction.java:66 | A new response builder holds nothing. |
| ClusterHealthAction.ResponseBuilder.SetHealth | server/sonar-server/src/main/java/org/sonar/server/platform/ws/ClusterHealthAction.java:71 | setHealth sets the health and nothing else. |
| ClusterHealthAction.ResponseBuilder.AddCauses | server/sonar-server/src/main/java/org/sonar/server/platform/ws/ClusterHealthAction.java:72 | addCauses appends one cause. |
| ClusterHealthAction.ResponseBuilder.AddNodes | server/sonar-server/src/main/java/org/sonar/server/platform/ws/ClusterHealthAction.java:77 | addNodes appends one node entry. |
| ClusterHealthAction.ToCause | server/sonar-server/src/main/java/org/sonar/server/platform/ws/ClusterHealthAction.java:98-100 | toCause gives a cause whose message is the string, whatever the builder held. |
| ClusterHealthAction.ToNode | server/sonar-server/src/main/java/org/sonar/server/platform/ws/ClusterHealthAction.java:82-96 | The entry has type, name, host, decimal port and formatted start date. A SEARCH node has no health or causes; any other node has its own status and each of its causes once. The clear means nothing leaks from the previous node. |
| ClusterHealthAction.ToResponse | server/sonar-server/src/main/java/org/sonar/server/platform/ws/ClusterHealthAction.java:65-80 | The response has the cluster status under the same name and each cluster cause once. It has one entry per node, in the stable type order, each satisfying ToNode's promise. |
| ClusterHealthAction.Handle | server/sonar-server/src/main/java/org/sonar/server/platform/ws/ClusterHealthAction.java:55-63 | Standalone: status 501 and no body. Clustered: status 200 and a body that is the response for the cluster health. |
| ClusterHealthAction.ResponseNodes | server/sonar-server/src/main/java/org/sonar/server/platform/ws/ClusterHealthAction.java:74-77 | There is exactly one entry per input node, ordered by non-decreasing type. Each entry comes from an input node, and its port reads back as that node's port. |
| ClusterHealthAction.SearchNodesHideHealth | server/sonar-server/src/main/java/org/sonar/server/platform/ws/ClusterHealthAction.java:84-87 | An entry is of type SEARCH exactly when its node is, and then has no health and no causes. An APPLICATION entry carries its node's status and causes. |
| Text.Join | server/sonar-process-monitor/src/main/java/org/sonar/application/process/ProcessLauncherImpl.java:157 | Joining nothing gives "", and joining one part gives that part. |
| Text.JoinCons | server/sonar-process-monitor/src/main/java/org/sonar/application/process/ProcessLauncherImpl.java:157 | A join of several parts is the first part, the separator, then the join of the rest. |
| Text.SplitOn | server/sonar-process-monitor/src/main/java/org/sonar/application/process/ProcessLauncherImpl.java:157 | Cutting a text at a character gives at least one piece, and no piece contains that character. |
| Text.SplitJoin | server/sonar-process-monitor/src/main/java/org/sonar/application/process/ProcessLauncherImpl.java:157 | Joining parts that do not contain a one-character separator, then cutting at that character, gives the parts back. |
| Text.NatToString | server/sonar-server/src/main/java/org/sonar/server/platform/ws/ClusterHealthAction.java:93 | The decimal form of a natural number is non-empty digits without a leading zero. |
| Text.IntToString | server/sonar-server/src/main/java/org/sonar/server/platform/ws/ClusterHealthAction.java:93 | String.valueOf(int) starts with '-' exactly for a negative number. |
| Text.IntToStringRoundTrip | server/sonar-process-monitor/src/main/java/org/sonar/application/process/ProcessLauncherImpl.java:206 | The decimal form of any int parses back to that int. |
| JvmOptions.SplitBeforeDash | server/sonar-process-monitor/src/main/java/org/sonar/application/process/ProcessLauncherImpl.java:155 | split(" (?=-)") gives at least one piece. |
| JvmOptions.FirstPieceIsPrefix | server/sonar-process-monitor/src/main/java/org/sonar/application/process/ProcessLauncherImpl.java:155 | The first piece of an option is a prefix of it. |
| JvmOptions.FirstPieceStart | server/sonar-process-monitor/src/main/java/org/sonar/application/process/ProcessLauncherImpl.java:155 | An option that does not start with a space starts its first piece. |
| JvmOptions.SplitBeforeDashRejoins | server/sonar-process-monitor/src/main/java/org/sonar/application/process/ProcessLauncherImpl.java:154-156 | Rejoining an option's pieces with single spaces gives the option back. |
| JvmOptions.SplitBeforeDashPieces | server/sonar-process-monitor/src/main/java/org/sonar/application/process/ProcessLauncherImpl.java:154-156 | No piece contains " -", every piece after the first starts with '-', and every piece's characters come from the option. |
| JvmOptions.TokensProperties | server/sonar-process-monitor/src/main/java/org/sonar/application/process/ProcessLauncherImpl.java:151-157 | No token of the flatMap contains " -". Each token's characters come from some option. Some option gives some token. |
| JvmOptions.TokensFreeOf | server/sonar-process-monitor/src/main/java/org/sonar/application/process/ProcessLauncherImpl.java:151-157 | A character that no option contains is in no token. |
| JvmOptions.JvmOptionsContentLines | server/sonar-process-monitor/src/main/java/org/sonar/application/process/ProcessLauncherImpl.java:151-158 | When no option holds a line break, the lines after the header are exactly the tokens. |
| JvmOptions.JvmOptionsContentEmpty | server/sonar-process-monitor/src/main/java/org/sonar/application/process/ProcessLauncherImpl.java:52-56 | With no option, the file is the header alone. |
| ProcessLauncher.Host.constructor | server/sonar-process-monitor/src/main/java/org/sonar/application/process/ProcessLauncherImpl.java:62-70 | A host starts with its directories and an empty event log. |
| ProcessLauncher.Host.Mkdirs | server/sonar-process-monitor/src/main/java/org/sonar/application/process/ProcessLauncherImpl.java:102 | mkdirs creates the directory or reports failure, changing nothing. |
| ProcessLauncher.Host.WriteFile | server/sonar-process-monitor/src/main/java/org/sonar/application/process/ProcessLauncherImpl.java:109-111 | A file write is logged, or fails and changes nothing. |
| ProcessLauncher.Host.CreateTempFile | server/sonar-process-monitor/src/main/java/org/sonar/application/process/ProcessLauncherImpl.java:202 | createTempFile creates a new empty file named with the prefix and suffix in the directory, or fails. |
| ProcessLauncher.Host.ResetSlot | server/sonar-process-monitor/src/main/java/org/sonar/application/process/ProcessLauncherImpl.java:122 | createAfterClean logs a reset of the IPC slot of the index. |
| ProcessLauncher.Host.Start | server/sonar-process-monitor/src/main/java/org/sonar/application/process/ProcessLauncherImpl.java:88 | start launches a new process with a fresh pid, or fails and changes nothing. |
| ProcessLauncher.Host.DestroyForcibly | server/sonar-process-monitor/src/main/java/org/sonar/application/process/ProcessLauncherImpl.java:94 | destroyForcibly logs the destruction of the process. |
| ProcessLauncher.ProcessBuilder.constructor | server/sonar-process-monitor/src/main/java/org/sonar/application/process/ProcessLauncherImpl.java:181 | A new builder has no command or directory and the inherited environment. |
| ProcessLauncher.ProcessBuilder.Start | server/sonar-process-monitor/src/main/java/org/sonar/application/process/ProcessLauncherImpl.java:128 | start launches what the builder holds. |
| ProcessLauncher.EsCommandLine | server/sonar-process-monitor/src/main/java/org/sonar/application/process/ProcessLauncherImpl.java:139-147 | The Elasticsearch command line is the executable's path followed by the Elasticsearch options in their order. |
| ProcessLauncher.Classpath | server/sonar-process-monitor/src/main/java/org/sonar/application/process/ProcessLauncherImpl.java:194-197 | The classpath arguments are "-cp" and the entries joined by the path separator. |
| ProcessLauncher.JavaCommandLine | server/sonar-process-monitor/src/main/java/org/sonar/application/process/ProcessLauncherImpl.java:166-178 | The Java command line, by position: java path, the Java options, -Djava.io.tmpdir, -cp, the joined classpath, the class name, the properties file. |
| ProcessLauncher.ChildProperties | server/sonar-process-monitor/src/main/java/org/sonar/application/process/ProcessLauncherImpl.java:203-208 | The properties hold every argument's key and the four launcher keys. Key, index, timeout "60000" and shared path override an argument of the same name; other arguments keep their values. |
| ProcessLauncher.ChildPropertiesIndexReadsBack | server/sonar-process-monitor/src/main/java/org/sonar/application/process/ProcessLauncherImpl.java:206 | The stored process index parses back as the command's IPC index. |
| ProcessLauncher.BuilderSpec | server/sonar-process-monitor/src/main/java/org/sonar/application/process/ProcessLauncherImpl.java:180-187 | The builder holds the command line, the work dir and error-stream redirection on. Its environment is the inherited one, where the command's variables win. |
| ProcessLauncher.ProcessLauncherImpl.constructor | server/sonar-process-monitor/src/main/java/org/sonar/application/process/ProcessLauncherImpl.java:66-70 | The launcher keeps its temporary directory, the Java home and path separator, and the host. |
| ProcessLauncher.ProcessLauncherImpl.LaunchEs | server/sonar-process-monitor/src/main/java/org/sonar/application/process/ProcessLauncherImpl.java:77-98 | launch(EsCommand) changes the host and returns exactly what LaunchEsStep says. |
| ProcessLauncher.ProcessLauncherImpl.WriteConfFiles | server/sonar-process-monitor/src/main/java/org/sonar/application/process/ProcessLauncherImpl.java:100-115 | writeConfFiles creates the configuration directory when missing, then writes the three files, as WriteConfFilesStep says. |
| ProcessLauncher.ProcessLauncherImpl.CreateEs | server/sonar-process-monitor/src/main/java/org/sonar/application/process/ProcessLauncherImpl.java:139-147 | create(EsCommand) writes jvm.options and returns a builder holding BuilderSpec of the Elasticsearch command line, or the jvm.options failure. |
| ProcessLauncher.ProcessLauncherImpl.WriteJvmOptions | server/sonar-process-monitor/src/main/java/org/sonar/application/process/ProcessLauncherImpl.java:149-164 | writeJvmOptions writes the header and tokens to the JVM options file, or fails with the jvm.options error. |
| ProcessLauncher.ProcessLauncherImpl.LaunchJava | server/sonar-process-monitor/src/main/java/org/sonar/application/process/ProcessLauncherImpl.java:117-137 | launch(JavaCommand) changes the host and returns exactly what LaunchJavaStep says. |
| ProcessLauncher.ProcessLauncherImpl.CreateJava | server/sonar-process-monitor/src/main/java/org/sonar/application/process/ProcessLauncherImpl.java:166-178 | create(JavaCommand) writes the properties file and returns a builder holding BuilderSpec of the Java command line naming that file, or the settings failure. |
| ProcessLauncher.ProcessLauncherImpl.BuildPropertiesFile | server/sonar-process-monitor/src/main/java/org/sonar/application/process/ProcessLauncherImpl.java:199-216 | buildPropertiesFile stores ChildProperties with the command's comment in a new temporary file. On failure it gives "Cannot write temporary settings to" the file, or to null if none was created. |
| ProcessLauncher.ProcessLauncherImpl.CreateBuilder | server/sonar-process-monitor/src/main/java/org/sonar/application/process/ProcessLauncherImpl.java:180-187 | create(AbstractCommand, List) returns a new builder holding BuilderSpec. |
| ProcessLauncher.StartMonitoredRunning | server/sonar-process-monitor/src/main/java/org/sonar/application/process/ProcessLauncherImpl.java:88-96 | If start or the monitor fails, the running processes are those of before, because a started process is destroyed. If both succeed, exactly the new process is added. |
| ProcessLauncher.LaunchEsNoOrphan | server/sonar-process-monitor/src/main/java/org/sonar/application/process/ProcessLauncherImpl.java:78-97 | A failed Elasticsearch launch leaves the running processes as before and is "Fail to launch process [key]". A successful one adds exactly the monitored process. |
| ProcessLauncher.LaunchJavaNoOrphan | server/sonar-process-monitor/src/main/java/org/sonar/application/process/ProcessLauncherImpl.java:118-136 | The same for a Java launch, whose monitor also carries the IPC index. |
| ProcessLauncher.LaunchEsConfDirFailure | server/sonar-process-monitor/src/main/java/org/sonar/application/process/ProcessLauncherImpl.java:101-106 | A missing configuration directory that cannot be created fails the launch before anything is written or started. The cause's message is "Failed to create temporary configuration directory [dir]", wrapped in "Fail to launch process [key]". |
| ProcessLauncher.LaunchEsSuccess | server/sonar-process-monitor/src/main/java/org/sonar/application/process/ProcessLauncherImpl.java:101-111 | A successful Elasticsearch launch writes exactly elasticsearch.yml, jvm.options and log4j2.properties in the configuration directory, then the JVM options file. Its last act starts the Elasticsearch command line with BuilderSpec. |
| ProcessLauncher.LaunchJavaSuccess | server/sonar-process-monitor/src/main/java/org/sonar/application/process/ProcessLauncherImpl.java:122-128 | A Java launch first resets the IPC slot of its index. On success, it writes the child properties file and then starts the Java command line naming that file. |
| ProjectsUtils.ParseSorting | server/sonar-web/src/main/js/apps/projects/utils.ts:148-151 | sortDesc is true exactly when the parameter starts with '-'. The key is the parameter minus that character, otherwise the parameter itself. |
| ProjectsUtils.FormatParseSorting | server/sonar-web/src/main/js/apps/projects/utils.ts:148-151 | Every sort parameter is rebuilt from what it parses to. |
| ProjectsUtils.ParseFormatSorting | server/sonar-web/src/main/js/apps/projects/utils.ts:148-151 | For a key not starting with '-', parseSorting((desc ? '-' : '') + key) gives back the key and the direction. |
| ProjectsUtils.SortingSwitchIsInvolution | server/sonar-web/src/main/js/apps/projects/utils.ts:55-70 | Every value of SORTING_SWITCH is a key, and switching twice returns the original key. |
| ProjectsUtils.SortingSwitchPairsMenus | server/sonar-web/src/main/js/apps/projects/utils.ts:33-70 | The switch maps the i-th overall sort option to the i-th leak sort option, and back. |
| ProjectsUtils.SortingSwitchKeysUnsigned | server/sonar-web/src/main/js/apps/projects/utils.ts:55-70 | No key or value of the switch starts with '-'. |
| ProjectsUtils.SwitchSort | server/sonar-web/src/main/js/apps/projects/components/AllProjects.tsx:107-123 | The switched query carries a sort exactly when the key has a counterpart; otherwise it carries no sort at all. |
| ProjectsUtils.SwitchSortTwice | server/sonar-web/src/main/js/apps/projects/components/AllProjects.tsx:119-121 | Switching the view twice restores the sort parameter, direction included. |
| ProjectsUtils.ChosenVisualization | server/sonar-web/src/main/js/apps/projects/utils.ts:156 | visualization or 'risk' when it is missing or empty. |
| ProjectsUtils.DefineMetrics | server/sonar-web/src/main/js/apps/projects/utils.ts:153-162 | On the visualizations view, the chosen chart's metrics; on leak, LEAK_METRICS; on any other view, METRICS. The result is undefined exactly for an unknown chart. |
| ProjectsUtils.DefineMetricsDefined | server/sonar-web/src/main/js/apps/projects/utils.ts:74-81 | Metrics are defined for every listed chart and for a query naming none, which gets the risk chart's metrics. |
| ProjectsUtils.VisualizationsHaveMetrics | server/sonar-web/src/main/js/apps/projects/utils.ts:74-118 | The listed visualizations are exactly the keys of METRICS_BY_VISUALIZATION. |
| ProjectsUtils.DefineFacets | server/sonar-web/src/main/js/apps/projects/utils.ts:164-169 | LEAK_FACETS exactly on the leak view, FACETS exactly otherwise. |
| ProjectsUtils.PageSizeOf | server/sonar-web/src/main/js/apps/projects/utils.ts:194 | The page size is 99 exactly on the visualizations view, and 50 exactly otherwise. |
| ProjectsUtils.ConvertToQueryData | server/sonar-web/src/main/js/apps/projects/utils.ts:171-191 | Every default field is kept except organization, which is set to the argument. filter is added only when truthy, s only when sort.s is truthy, and asc only when sort has it. |
| ProjectsUtils.FacetNamesFreeOfComma | server/sonar-web/src/main/js/apps/projects/utils.ts:120-142 | No facet name holds a comma. |
| ProjectsUtils.FetchDefaultsContents | server/sonar-web/src/main/js/apps/projects/utils.ts:194-199 | The defaults hold exactly ps, facets and f, and ps is 99 on the visualizations view and 50 otherwise. |
| ProjectsUtils.FacetsParameterSplits | server/sonar-web/src/main/js/apps/projects/utils.ts:120-142 | Either facet list, joined with commas and cut at commas again, comes back unchanged. |
| ProjectsUtils.FetchDefaultsFacets | server/sonar-web/src/main/js/apps/projects/utils.ts:196-197 | The facets default is a string that, cut at commas, gives back the facets of the view. |
| ProjectsUtils.FetchProjectsData | server/sonar-web/src/main/js/apps/projects/utils.ts:193-199 | The search request carries the view's page size, the view's facets, the fixed field list and the organization. |
| ClusterProperties.KeysDistinct | server/sonar-cluster/src/main/java/org/sonar/cluster/ClusterProperties.java:25-39 | The thirteen property-key constants are distinct strings. |
| ClusterProperties.DefaultedKeys | server/sonar-cluster/src/main/java/org/sonar/cluster/ClusterProperties.java:46-54 | The defaults cover exactly the nine keys put, all of them key constants. |
| ClusterProperties.KeysWithoutDefault | server/sonar-cluster/src/main/java/org/sonar/cluster/ClusterProperties.java:28 | Search hosts, web startup leader, local endpoint and member UUID get no default. |
| ClusterProperties.WithClusterDefaults | server/sonar-cluster/src/main/java/org/sonar/cluster/ClusterProperties.java:45-55 | Each of the nine keys holds its listed default whatever it held before. Every other key keeps its value, and no other key appears. |
| ClusterProperties.WithClusterDefaultsIdempotent | server/sonar-cluster/src/main/java/org/sonar/cluster/ClusterProperties.java:45-55 | Putting the defaults twice is putting them once. |
| ClusterProperties.WithClusterDefaultsOverwrites | server/sonar-cluster/src/main/java/org/sonar/cluster/ClusterProperties.java:45-55 | The previous values of the nine keys do not matter: maps that agree elsewhere agree after the defaults. |
| ClusterProperties.Properties.constructor | server/sonar-cluster/src/main/java/org/sonar/cluster/ClusterProperties.java:45 | A properties object holds the given entries. |
| ClusterProperties.Properties.Put | server/sonar-cluster/src/main/java/org/sonar/cluster/ClusterProperties.java:46 | put sets one key and leaves the rest. |
| ClusterProperties.PutsAddDefaults | server/sonar-cluster/src/main/java/org/sonar/cluster/ClusterProperties.java:46-54 | The nine puts in the source's order amount to adding the defaults to the map. |
| ClusterProperties.PutClusterDefaults | server/sonar-cluster/src/main/java/org/sonar/cluster/ClusterProperties.java:45-55 | putClusterDefaults changes the caller's properties in place to WithClusterDefaults of their old value. |

## Left out

- Health.HealthReducer.Apply: the reducer is a singleton whose one builder every checkNode and checkCluster call shares. Two calls running at once can interleave on that builder; the model covers sequential calls only, so "nothing leaks from an earlier call" holds only for sequential use.
- **VIEWS.** The `VIEWS` constant of utils.ts is used only by UI components outside this model, so it is not modelled.
- **Logging.** The LOG calls in the launcher and the error log of writeConfFiles are not modelled.
- **Real I/O.** These are replaced by the Host's event log, with failures as fixed host traits:
  - operating-system processes, `FileOutputStream`, `Files.write`, resource-stream copies and `File.createTempFile`.
  - A temporary file's random name is a counter.
  - A failed write leaves no trace, though the platform may leave a partial file.
- **System properties.** `System.getProperty` for `java.home` and the separators, and `File.getAbsolutePath`, are not modelled. Java home, separators and paths are parameters, and paths are taken as already absolute.
- **`close`.** `ProcessLauncherImpl.close` and the shared-memory IPC of `AllProcessesCommands` are not part of this model. `createAfterClean` is a slot-reset event that cannot fail, though the real one may reject an index.
- **Monitor construction.** The `EsProcessMonitor` and `ProcessCommandsProcessMonitor` sources are not part of this model. Whether their construction throws is a host trait, and it is the only failure after a start.
- **Exception types.** Launch failures are a Failure value. The platform exceptions of start and monitor construction carry no message.
- **Elasticsearch resources.** The `elasticsearch.yml` and `jvm.options` resources are assumed present; a missing resource would end in a NullPointerException rather than the configuration-file error.
- **Java Properties format.** The stored properties format and its date comment are abstracted to the map and the comment.
- **Protobuf serialisation.** `WsUtils.writeProtobuf` and request/response plumbing are abstracted to the returned record. `formatDateTime` is an opaque function parameter.
- **`define`.** `ClusterHealthAction.define`, `ClusterHealthActionSupport`, `HealthActionModule`, `SafeModeClusterHealthAction` and `HazelcastLocalClient` are not part of this model. They hold wiring, description text, a constant 501 and delegation to Hazelcast.
- **Check objects.** `NodeHealthCheck` and `ClusterHealthCheck` are modelled by the health each returns. The checkers are values, so calling them has no side effect.
- **Cause order.** Ordering of causes within a `Health` is not modelled, because causes are sets.
- **utils.ts network code.** `localizeSorting` (translation), `fetchProjectMeasures` and the asynchronous parts of `fetchProjects` (`searchProjects`, `getMeasuresForProjects`, the measure merge) are not modelled. `convertToFilter` and `convertToSorting` are given as their results.
- **JavaScript prototype lookups.** Looking up an inherited name such as `constructor` in `SORTING_SWITCH` or `METRICS_BY_VISUALIZATION` is treated as a missing key. `RawQuery` fields other than view and visualization are not modelled.
- **AllProjects.tsx.** The React component is not part of this model. Only its use of `parseSorting` and `SORTING_SWITCH` is modelled, as SwitchSort: when the current key has no counterpart, the new query carries no sort (and `saveSort` stores undefined), which SwitchSort returns as None. The router push and the storage are not modelled.
- **Hash-map order.** The iteration order of `Properties` and environment maps is not modelled; maps are compared as maps.
