# namekoplus command module, modelled in Dafny

namekoplus is a command-line tool for nameko microservice projects. This project models the
logic of its command module, `namekoplus/command.py`:

- **`metric-config-gen`** (`MetricConfig` in `metric_config.dfy`). The command scans the
  requested service classes for methods wrapped by a statsd `Timer`. Each timed method becomes
  a binding `{statsd_prefix, stat_name, class_name}` in `config_list`. The command then renders
  the statsd-exporter mapping file from the whole list. Finally it renders one Grafana dashboard
  per requested class, from that class's `grafana_list`, the bindings filtered by exact class
  name.
  - Python's reflection is replaced by a description of what it would find. An `Importer`
    maps each importable module path to what `__import__` returns: the attributes of the
    top-level package. Each attribute is a namespace of classes, and each class is the
    sequence of its function members.
  - The writes are returned as a sequence of effects in the order the command performs them:
    render the mapping file, create the dashboard directory if it is absent, render each
    dashboard. A rendered file is represented by the context handed to its template.
  - `CollectBindings` and `RenderDashboards` are the command's nested loops. Each is proved
    against a specification function (`Collect`, `ForClass`), and the lemmas state what those
    functions mean.
- **`str.split` / `str.join`** (`Strings` in `strings.dfy`). The command splits the module
  path on `.` (`dest_dir` is the first piece, `file_name` the last) and the class list on `,`.
- Small facts about sequence prefixes, which the loop proofs cite, are in `Seqs`
  (`seqs.dfy`).
- **`init`, `test_gen` and `copy_files`** (`Scaffold` in `scaffold.dfy`). The file system is a
  `FileSystem` object whose field maps every directory to its listing. The methods update it
  in place and are proved against `InitResult`, `TestGenResult` and `CopyResult`.

Behaviour of the code that the model keeps as written:
- A dashboard is produced for every requested class, even one with no timed method; its list
  is empty.
- A class requested twice contributes its bindings twice to `config_list`, and its dashboard
  lists them twice (`ForClassOfAll`).
- A failed lookup aborts the run before anything is written. The scan loop runs completely
  before the first write, so a failed lookup never leaves part of the output written.
- `dest_dir` is computed but never used by the command.
- For a module path without a dot, the classes are looked up in the attribute of the imported
  module named after the module itself: `getattr(_module, file_name)` with `file_name` equal
  to the whole path. For a path of three or more pieces they are looked up in the top-level
  package's attribute named after the last piece. The `Importer` model keeps this lookup as
  written.

## Model

| member | source | states |
|---|---|---|
| `Strings.Split` | namekoplus/command.py:330-331 | `str.split` gives at least one piece, and no piece contains the separator |
| `Strings.SplitJoin` | namekoplus/command.py:330-331 | joining the pieces of a split with the separator gives back the original string |
| `Strings.JoinSplit` | namekoplus/command.py:335 | splitting the join of separator-free pieces gives back exactly those pieces |
| `Strings.SplitCount` | namekoplus/command.py:335 | a split has one more piece than the string has separators |
| `Strings.FirstPiece` | namekoplus/command.py:330 | the first piece is the longest separator-free prefix: all of the string, or followed by a separator |
| `Strings.LastPiece` | namekoplus/command.py:331 | the last piece is the longest separator-free suffix: all of the string, or preceded by a separator |
| `Strings.OnePiece` | namekoplus/command.py:331 | a split into a single piece leaves the string whole |
| `Strings.ManyPieces` | namekoplus/command.py:331 | a split into several pieces means the string holds the separator |
| `Strings.JoinExtendHead` | namekoplus/command.py:330-331 | prepending a character to the first piece prepends it to the joined string |
| `MetricConfig.DashboardPath` | namekoplus/command.py:370 | the dashboard path is `grafana_dashboards/`, then the class name, then `_Grafana.json`, and the class name can be read back from it |
| `MetricConfig.DestDir` | namekoplus/command.py:330 | `dest_dir` is the prefix of the module path up to the first dot; a dotless path gives the path itself |
| `MetricConfig.FileName` | namekoplus/command.py:331 | `file_name` is the suffix of the module path after the last dot; a dotless path gives the path itself |
| `MetricConfig.MemberBindings` | namekoplus/command.py:339-347 | a member contributes at most one binding, and one exactly when its wrapper captures a timer; that binding carries the timer's prefix and stat and the scanned class's name |
| `MetricConfig.ClassBindings` | namekoplus/command.py:337-347 | every binding found while scanning a class carries that class's name |
| `MetricConfig.AllBindings` | namekoplus/command.py:335-347 | defines `config_list`: the bindings of each requested class in request order, with no contract of its own; `AllBindingsMembership`, `AllBindingsLength` and `AllBindingsAppend` state its properties |
| `MetricConfig.FirstMissing` | namekoplus/command.py:335-336 | it is absent exactly when every requested class resolves; otherwise it is the first class that does not resolve, with every class before it resolved |
| `MetricConfig.FirstMissingAt` | namekoplus/command.py:336 | the scan fails on the first class name that is not an attribute of the module |
| `MetricConfig.CollectStopsAt` | namekoplus/command.py:335-336 | the scan's outcome is `ClassNotFound` for the first requested class missing from the module |
| `MetricConfig.CollectNoModule` | namekoplus/command.py:335-336 | when the imported package lacks the attribute named `file_name`, a non-empty class list fails with `ModuleAttributeMissing(file_name)` |
| `MetricConfig.CollectAllFound` | namekoplus/command.py:334-347 | when the module attribute exists and every class is found, the scan's outcome is the full `config_list` |
| `MetricConfig.Collect` | namekoplus/command.py:334-347 | the scan succeeds exactly when the module attribute exists and every requested class resolves in it |
| `MetricConfig.ClassBindingsMembership` | namekoplus/command.py:337-347 | a binding comes from a class exactly when a member of that class captures a timer with its prefix and stat; untimed members add nothing and raise nothing |
| `MetricConfig.ClassBindingsAppend` | namekoplus/command.py:337-347 | bindings follow member order: scanning two runs of members gives the first run's bindings, then the second's |
| `MetricConfig.ClassBindingsSnoc` | namekoplus/command.py:337-347 | scanning one more member appends that member's binding if it captures a timer, and nothing otherwise |
| `MetricConfig.ClassBindingsLength` | namekoplus/command.py:339-347 | each timed member adds exactly one binding |
| `MetricConfig.AllBindingsAppend` | namekoplus/command.py:335-347 | `config_list` follows class-list order: a concatenated class list gives the concatenated bindings, repeats included |
| `MetricConfig.AllBindingsSnoc` | namekoplus/command.py:335-347 | requesting one more class appends exactly that class's bindings |
| `MetricConfig.AllBindingsLength` | namekoplus/command.py:334-347 | no deduplication: the length of `config_list` is the number of timed members over all requested classes, repeats counted |
| `MetricConfig.AllBindingsMembership` | namekoplus/command.py:335-347 | a binding is in `config_list` exactly when its class was requested and a member of that class captures a timer with its prefix and stat |
| `MetricConfig.ForClass` | namekoplus/command.py:364-367 | `grafana_list` is no longer than `config_list`, and a binding is in it exactly when it is in `config_list` with the requested class name |
| `MetricConfig.ForClassCount` | namekoplus/command.py:364-367 | `grafana_list` keeps each binding of the class exactly as often as `config_list` has it, and nothing of other classes |
| `MetricConfig.ForClassAppend` | namekoplus/command.py:365-367 | the filter keeps the order of `config_list`: it distributes over concatenation |
| `MetricConfig.ForClassOfClass` | namekoplus/command.py:365-367 | filtering one class's bindings keeps all of them when the class names match and none otherwise |
| `MetricConfig.Keep` | namekoplus/command.py:363 | the entries of the class list equal to a name are as many as the name's occurrences |
| `MetricConfig.ForClassOfAll` | namekoplus/command.py:363-367 | a class's `grafana_list` is its own bindings once for each time the class was requested; empty when it was not requested |
| `MetricConfig.KeepDistinct` | namekoplus/command.py:363 | in a class list without repeats, each requested name occurs once |
| `MetricConfig.ForClassDistinct` | namekoplus/command.py:363-367 | with distinct class names, a requested class's `grafana_list` is exactly that class's own bindings |
| `MetricConfig.PartitionPrefix` | namekoplus/command.py:363-367 | with distinct class names, the grafana lists of the first k classes concatenate to the bindings of those k classes |
| `MetricConfig.DashboardsPartition` | namekoplus/command.py:363-367 | with distinct class names, the grafana lists concatenated in request order give back `config_list` exactly |
| `MetricConfig.ScanMembers` | namekoplus/command.py:337-347 | the inner loop over a class's members yields that class's bindings in member order |
| `MetricConfig.CollectBindings` | namekoplus/command.py:334-347 | the nested scan loop returns the first lookup error, or `config_list` in class order and then member order |
| `MetricConfig.Dashboard` | namekoplus/command.py:370-373 | a class's dashboard is rendered to that class's path, with the class as `service_name`, the given uid, and exactly the bindings of `config_list` with that class name |
| `MetricConfig.RenderDashboards` | namekoplus/command.py:362-373 | one dashboard per entry of the class list, even an empty one: path `grafana_dashboards/{class}_Grafana.json`, `service_name` the class, the i-th uid, and the class's filtered list |
| `MetricConfig.WriteOutputs` | namekoplus/command.py:348-373 | the write phase renders the mapping file from all of `config_list`, creates the dashboard directory only if absent, then renders one dashboard per requested class in request order |
| `MetricConfig.MetricConfigGen` | namekoplus/command.py:321-373 | an import or lookup failure yields the error and no effect at all; otherwise the mapping file is rendered from all of `config_list`, the dashboard directory is created only if absent, then the dashboards follow in request order |
| `MetricConfig.TwoClassBindings` | namekoplus/command.py:334-347 | in the example module, `config_list` holds only the binding of `A`'s timed method |
| `MetricConfig.TwoClassExample` | namekoplus/command.py:334-373 | class A timed as `svcA.hello` and untimed class B: exactly one binding, A's dashboard lists it, B's dashboard is empty |
| `MetricConfig.TwoClassCommandLine` | namekoplus/command.py:330-347 | for `svc A,B` the class list splits into `A` and `B`, and the scan of module `svc` succeeds with the one binding of `A` |
| `MetricConfig.TwoClassDashboards` | namekoplus/command.py:363-373 | in the example, `A`'s dashboard is rendered with the binding and `B`'s with an empty list |
| `MetricConfig.TwoClassRun` | namekoplus/command.py:321-373 | the whole run of `metric-config-gen svc A,B` with no dashboard directory: no error, and exactly four writes in order: the mapping with the one binding, `makedirs grafana_dashboards`, `A`'s dashboard with the binding, `B`'s dashboard with an empty list |
| `Scaffold.TypeDir` | namekoplus/command.py:251 | a type's directory is the package directory, then `/`, the directory name (`templates` here, `tests` at line 306), `/`, then the type, and each part can be read back from the path |
| `Scaffold.CopiedNames` | namekoplus/command.py:66-68 | the names `copy_files` copies are entries of the listing other than `__pycache__`, and there are no more of them than listing entries |
| `Scaffold.AddEntry` | namekoplus/command.py:70-73 | defines the listing after one `shutil.copy`: an existing name is overwritten, a new name is added at the end of the model's listing; no contract of its own, `CopyIntoSpec` states the effect |
| `Scaffold.CopyInto` | namekoplus/command.py:66-73 | defines the destination listing after the copy loop, name by name; no contract of its own, `CopyIntoSpec` states the effect |
| `Scaffold.CopyResult` | namekoplus/command.py:65-73 | `copy_files` fails exactly when source and destination are the same path and the source holds something to copy; otherwise it changes only the destination directory |
| `Scaffold.SelfCopyFails` | namekoplus/command.py:66-73 | copying a directory onto itself (the same path) fails once its listing holds any entry other than `__pycache__` |
| `Scaffold.CopiedNamesMembership` | namekoplus/command.py:66-68 | `copy_files` copies a listing entry exactly when it is not `__pycache__` |
| `Scaffold.CopyIntoSpec` | namekoplus/command.py:70-73 | copying keeps every entry the destination had (as the prefix of the model's listing) and adds exactly the copied names |
| `Scaffold.CopyFilesEffect` | namekoplus/command.py:65-73 | `copy_files` changes only the destination, which keeps its entries and gains every source entry except `__pycache__` under the same name; it fails only when source and destination are the same path |
| `Scaffold.InitGuards` | namekoplus/command.py:247-254 | `init` refuses a non-empty existing directory, then a missing template type, and changes nothing when it refuses; it never copies a file onto itself |
| `Scaffold.InitPopulates` | namekoplus/command.py:256-260 | a successful `init` creates the target only if absent, leaves every other directory alone, and fills the target with exactly the template's entries except `__pycache__` |
| `Scaffold.TestGenPopulates` | namekoplus/command.py:302-311 | `test_gen` changes nothing when it refuses; on success it keeps every other directory, keeps the target's entries and adds the test type's entries except `__pycache__` |
| `Scaffold.InitResult` | namekoplus/command.py:247-260 | `init` changes at most the target directory: the rest of the file system is left as it was |
| `Scaffold.TestGenResult` | namekoplus/command.py:302-311 | `test_gen` changes at most the target directory, and nothing at all when the target is missing |
| `Scaffold.GuardsMirror` | namekoplus/command.py:302-304 | `test_gen`'s directory guard refuses exactly the directories that `init`'s directory guard lets through |
| `Scaffold.FileSystem.CopyFiles` | namekoplus/command.py:65-73 | the copy loop updates the file system as `CopyResult` says, and leaves it unchanged when it fails |
| `Scaffold.FileSystem.Init` | namekoplus/command.py:243-260 | the `init` command updates the file system and reports as `InitResult` says |
| `Scaffold.FileSystem.TestGen` | namekoplus/command.py:298-311 | the `test_gen` command updates the file system and reports as `TestGenResult` says |

## Left out

- Docker and compose control (`check_docker`, the `start_*` and `stop_*` functions, the middleware dispatch tables, the `start` and `stop` commands) is left out. It is external process and network plumbing with fixed `sleep` delays.
- Console output (`status`, `click.echo`) and the click command-line wiring are left out. Click restricts `_type` to the listed choices; the model accepts any string, because the template-type guard covers a missing directory.
- Mako rendering in `template_to_file` is left out, as a foreign library plus file I/O. A render is modelled by its destination and the context dict. Rendering and I/O failures are not modelled. In the program such a failure (a re-raised render error, a failing `os.makedirs`) aborts the run and leaves the files already written in place.
- `shortuuid.uuid()` is nondeterministic. It is a parameter: the i-th dashboard gets `uuids(i)`.
- `TimerInfo.prefix` and `Binding.statsdPrefix` are strings. A statsd client built without a prefix has `client._prefix` set to `None`, and that `None` goes into `config_list` as it is. Nothing in the command branches on the prefix, so the model keeps only the string case.
- Listing order: the file system gives no order to `os.listdir`, and `shutil.copy` fixes none. A listing is a sequence only in the model, where a newly copied name goes at the end. The prefix clauses of `CopyIntoSpec`, `CopyFilesEffect` and `TestGenPopulates` are facts about that choice; what the program guarantees is the membership and the frame.
- Directory identity: each directory is named by one canonical path string, and `SameFileError` is modelled as source and destination being equal paths. `shutil.copy` raises it whenever the two name the same file (`os.path.samefile`). The model does not capture a relative and an absolute spelling of one directory, `./` prefixes, trailing slashes or symlinks. So a `test_gen` target that names the package's own `tests/<type>` directory by another spelling raises `SameFileError` in the program but is copied in the model. (`init` cannot reach this case: its emptiness guard refuses every target that already holds entries.)
- Python reflection (`__import__`, `inspect.getmembers`, `inspect.getclosurevars`) is replaced by the `Importer` description. The command first imports `statsd.client.timer.Timer`; when statsd is not installed this raises `ImportError` before the module is imported, and the model, which has no such error, always assumes statsd is present. The model takes each class's member sequence as given: `inspect.getmembers` sorts by name and includes inherited functions. A truthy captured `self` that is a `Timer` is a `Some` timer, and anything else is `None`.
- `get_directory` is replaced by a `packageDir` parameter. `os.path.join` is modelled as `a + "/" + b` for relative `b`.
- The `FileSystem` model stores only directory listings, not file contents. `os.makedirs` adds only the target directory, not missing parents, and not the target's name in its parent's listing. A regular file standing where a directory is expected, and a subdirectory other than `__pycache__` in a template directory (which `shutil.copy` rejects), are not modelled.
- `metric_config_gen` does not touch the `FileSystem` state. Its writes are returned as effects, and whether `grafana_dashboards` exists is a parameter.
- `sys.path.append(os.getcwd())` is not modelled: it only affects what `__import__` finds.
- `namekoplus/chassis/chassis.py`, `setup.py`, the template services and the test templates are not part of this model. They are thin library wrappers, packaging metadata and scaffold content.
