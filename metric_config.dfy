/** The `metric-config-gen` command: scan the requested service classes for
    methods wrapped by a statsd timer, collect one binding per timed method,
    render the statsd-exporter mapping file from all bindings and one Grafana
    dashboard per requested class from that class's bindings.

    Python's reflection (`__import__`, `inspect.getmembers`,
    `inspect.getclosurevars`) is replaced by an explicit description of what it
    would find; template rendering is replaced by the context handed to the
    template, recorded as an effect in the order the command performs it. */
module MetricConfig {
  import opened Wrappers
  import Strings
  import Seqs

  /** The state of a statsd `Timer` captured by a decorated method:
      `client._prefix` and `stat`. */
  datatype TimerInfo = TimerInfo(prefix: string, stat: string)

  /** A function member of a class as `inspect.getmembers` lists it, with the
      timer its wrapper closes over as `self`, if any. */
  datatype Member = Member(name: string, timer: Option<TimerInfo>)

  /** The members of a class, in the order `inspect.getmembers` returns them. */
  type ClassDef = seq<Member>

  /** The attributes of a module that are classes, by name. */
  type Namespace = map<string, ClassDef>

  /** The attributes of a top-level package that are modules, by name. */
  type Package = map<string, Namespace>

  /** What `__import__(module)` returns (the top-level package) for every
      module path that imports successfully. */
  type Importer = map<string, Package>

  /** One entry of `config_list`. */
  datatype Binding = Binding(statsdPrefix: string, statName: string, className: string)

  /** The exceptions the scan raises before anything is written. */
  datatype GenError =
    | ImportFailed(modulePath: string)        // `__import__` raises
    | ModuleAttributeMissing(attr: string)    // `getattr(_module, file_name)` raises
    | ClassNotFound(className: string)        // `getattr(..., class_name)` raises

  /** The context handed to a template. */
  datatype Document =
    | Mapping(configList: seq<Binding>)
    | Grafana(serviceName: string, uid: string, grafanaList: seq<Binding>)

  /** What the command does to the file system, in order. */
  datatype Effect =
    | MakeDirs(path: string)
    | Render(dest: string, doc: Document)

  const MAPPING_FILE := "./statsd_mapping.yml"
  const DASHBOARD_DIR := "grafana_dashboards"
  const DASHBOARD_SUFFIX := "_Grafana.json"

  /** Output path of the dashboard of class `className`. */
  function DashboardPath(className: string): (path: string)
    ensures |path| == |DASHBOARD_DIR| + 1 + |className| + |DASHBOARD_SUFFIX|
    ensures path[..|DASHBOARD_DIR| + 1] == DASHBOARD_DIR + "/"
    ensures path[|DASHBOARD_DIR| + 1..|path| - |DASHBOARD_SUFFIX|] == className
    ensures path[|path| - |DASHBOARD_SUFFIX|..] == DASHBOARD_SUFFIX
  {
    DASHBOARD_DIR + "/" + className + DASHBOARD_SUFFIX
  }

  // ---------------------------------------------------------------------------
  // Module path split

  /** `module.split('.')[0]`: the longest prefix of the module path without a dot. */
  function DestDir(modulePath: string): (d: string)
    ensures |d| <= |modulePath| && d == modulePath[..|d|]
    ensures '.' !in d
    ensures |d| == |modulePath| || modulePath[|d|] == '.'
    ensures '.' !in modulePath ==> d == modulePath
  {
    Strings.FirstPiece(modulePath, '.');
    Strings.Split(modulePath, '.')[0]
  }

  /** `module.split('.')[-1]`: the longest suffix of the module path without a dot. */
  function FileName(modulePath: string): (f: string)
    ensures |f| <= |modulePath| && f == modulePath[|modulePath| - |f|..]
    ensures '.' !in f
    ensures |f| == |modulePath| || modulePath[|modulePath| - |f| - 1] == '.'
    ensures '.' !in modulePath ==> f == modulePath
  {
    Strings.LastPiece(modulePath, '.');
    var parts := Strings.Split(modulePath, '.');
    assert '.' !in parts[|parts| - 1];
    parts[|parts| - 1]
  }

  // ---------------------------------------------------------------------------
  // Binding collection: specification

  /** The bindings one member contributes: one if a timer is captured, none otherwise. */
  function MemberBindings(className: string, m: Member): (r: seq<Binding>)
    ensures |r| <= 1
    ensures r != [] <==> m.timer.Some?
    ensures r != [] ==> r[0].className == className && m.timer == Some(TimerInfo(r[0].statsdPrefix, r[0].statName))
  {
    match m.timer
    case None => []
    case Some(t) => [Binding(t.prefix, t.stat, className)]
  }

  /** The bindings of one class, in member order. */
  function ClassBindings(className: string, members: seq<Member>): (r: seq<Binding>)
    ensures forall b :: b in r ==> b.className == className
  {
    if members == [] then []
    else ClassBindings(className, members[..|members| - 1])
         + MemberBindings(className, members[|members| - 1])
  }

  /** Every requested class is an attribute of the module. */
  predicate Resolved(ns: Namespace, classNames: seq<string>)
  {
    forall c :: c in classNames ==> c in ns
  }

  /** The members of a class of the module; a class the module lacks has none
      here, which never matters, since `Collect` fails on such a class first. */
  function MembersOf(ns: Namespace, className: string): seq<Member>
  {
    if className in ns then ns[className] else []
  }

  /** `config_list`: the bindings of all requested classes, class by class. */
  function AllBindings(ns: Namespace, classNames: seq<string>): (r: seq<Binding>)
  {
    if classNames == [] then []
    else
      var last := classNames[|classNames| - 1];
      AllBindings(ns, classNames[..|classNames| - 1]) + ClassBindings(last, MembersOf(ns, last))
  }

  /** The first requested class that is not in the module, if any. */
  function FirstMissing(ns: Namespace, classNames: seq<string>): (r: Option<string>)
    ensures r.None? <==> Resolved(ns, classNames)
    ensures r.Some? ==> exists k :: 0 <= k < |classNames| && classNames[k] == r.value
                          && r.value !in ns && Resolved(ns, classNames[..k])
  {
    if classNames == [] then None
    else if classNames[0] !in ns then
      assert classNames[..0] == [];
      Some(classNames[0])
    else
      var r := FirstMissing(ns, classNames[1..]);
      assert classNames == [classNames[0]] + classNames[1..];
      if r.Some? then
        var k :| 0 <= k < |classNames[1..]| && classNames[1..][k] == r.value
                 && r.value !in ns && Resolved(ns, classNames[1..][..k]);
        assert classNames[..k + 1] == [classNames[0]] + classNames[1..][..k];
        r
      else r
  }

  /** The outcome of the scan loop: the first failing lookup, or `config_list`. */
  function Collect(pkg: Package, fileName: string, classNames: seq<string>): (r: Result<seq<Binding>, GenError>)
    ensures r.Success? <==> classNames == [] || (fileName in pkg && Resolved(pkg[fileName], classNames))
  {
    if classNames == [] then Success([])
    else if fileName !in pkg then Failure(ModuleAttributeMissing(fileName))
    else match FirstMissing(pkg[fileName], classNames)
      case Some(c) => Failure(ClassNotFound(c))
      case None => Success(AllBindings(pkg[fileName], classNames))
  }

  /** The scan stops at the first class that is not found. */
  lemma {:induction false} FirstMissingAt(ns: Namespace, classNames: seq<string>, i: nat)
    requires i < |classNames| && classNames[i] !in ns
    requires forall j :: 0 <= j < i ==> classNames[j] in ns
    ensures FirstMissing(ns, classNames) == Some(classNames[i])
  {
    if i > 0 {
      FirstMissingAt(ns, classNames[1..], i - 1);
    }
  }

  /** One more found class appends its bindings to the `config_list` collected
      so far. */
  lemma CollectStep(ns: Namespace, classNames: seq<string>, i: nat, configList: seq<Binding>, found: seq<Binding>)
    requires i < |classNames| && classNames[i] in ns
    requires Resolved(ns, classNames[..i])
    requires configList == AllBindings(ns, classNames[..i])
    requires found == ClassBindings(classNames[i], ns[classNames[i]])
    ensures Resolved(ns, classNames[..i + 1])
    ensures configList + found == AllBindings(ns, classNames[..i + 1])
  {
    Seqs.TakeSnoc(classNames, i);
    AllBindingsSnoc(ns, classNames[..i], classNames[i]);
  }

  /** The scan fails on the first class that is not found in the module. */
  lemma CollectStopsAt(pkg: Package, fileName: string, classNames: seq<string>, i: nat)
    requires fileName in pkg && i < |classNames| && classNames[i] !in pkg[fileName]
    requires Resolved(pkg[fileName], classNames[..i])
    ensures Collect(pkg, fileName, classNames) == Failure(ClassNotFound(classNames[i]))
  {
    forall j | 0 <= j < i
      ensures classNames[j] in pkg[fileName]
    {
      assert classNames[j] == classNames[..i][j];
    }
    FirstMissingAt(pkg[fileName], classNames, i);
  }

  /** Without the module attribute, the first `getattr` already fails. */
  lemma CollectNoModule(pkg: Package, fileName: string, classNames: seq<string>)
    requires classNames != [] && fileName !in pkg
    ensures Collect(pkg, fileName, classNames) == Failure(ModuleAttributeMissing(fileName))
  {
  }

  /** The scan succeeds with `config_list` when every class is found. */
  lemma CollectAllFound(pkg: Package, fileName: string, classNames: seq<string>)
    requires fileName in pkg && Resolved(pkg[fileName], classNames)
    ensures Collect(pkg, fileName, classNames) == Success(AllBindings(pkg[fileName], classNames))
  {
  }

  // ---------------------------------------------------------------------------
  // Binding collection: properties

  /** A binding belongs to a class exactly when some member of that class
      captures a timer with the binding's prefix and stat; untimed members
      contribute nothing. */
  lemma {:induction false} ClassBindingsMembership(className: string, members: seq<Member>, b: Binding)
    ensures b in ClassBindings(className, members) <==>
      b.className == className &&
      exists m :: m in members && m.timer == Some(TimerInfo(b.statsdPrefix, b.statName))
  {
    if members != [] {
      var init, last := members[..|members| - 1], members[|members| - 1];
      ClassBindingsMembership(className, init, b);
      assert members == init + [last];
      var t := TimerInfo(b.statsdPrefix, b.statName);
      if b.className == className && last.timer == Some(t) {
        assert b in MemberBindings(className, last);
      }
      if b in MemberBindings(className, last) {
        assert last in members;
      }
      if b.className == className && (exists m :: m in init && m.timer == Some(t)) {
        var m :| m in init && m.timer == Some(t);
        assert m in members;
      }
    }
  }

  /** Collecting over two runs of members is collecting over each in turn. */
  lemma {:induction false} ClassBindingsAppend(className: string, a: seq<Member>, b: seq<Member>)
    ensures ClassBindings(className, a + b) == ClassBindings(className, a) + ClassBindings(className, b)
  {
    if b == [] {
      assert a + b == a;
    } else {
      var init, last := b[..|b| - 1], b[|b| - 1];
      assert a + b == (a + init) + [last];
      assert b == init + [last];
      calc {
        ClassBindings(className, a + b);
        { ClassBindingsSnoc(className, a + init, last); }
        ClassBindings(className, a + init) + MemberBindings(className, last);
        { ClassBindingsAppend(className, a, init); }
        ClassBindings(className, a) + (ClassBindings(className, init) + MemberBindings(className, last));
        { ClassBindingsSnoc(className, init, last); }
        ClassBindings(className, a) + ClassBindings(className, b);
      }
    }
  }

  /** Scanning one more member appends that member's binding, if any. */
  lemma ClassBindingsSnoc(className: string, members: seq<Member>, m: Member)
    ensures ClassBindings(className, members + [m]) == ClassBindings(className, members) + MemberBindings(className, m)
  {
    assert (members + [m])[..|members|] == members;
  }

  /** The number of members that capture a timer. */
  function TimedCount(members: seq<Member>): nat
  {
    if members == [] then 0
    else (if members[0].timer.Some? then 1 else 0) + TimedCount(members[1..])
  }

  /** Each timed member gives exactly one binding. */
  lemma {:induction false} ClassBindingsLength(className: string, members: seq<Member>)
    ensures |ClassBindings(className, members)| == TimedCount(members)
  {
    if members != [] {
      ClassBindingsLength(className, members[1..]);
      ClassBindingsAppend(className, [members[0]], members[1..]);
      assert [members[0]] + members[1..] == members;
      assert [members[0]][..0] == [];
    }
  }

  /** `config_list` over a concatenated class list is the concatenation: classes
      contribute in request order, a repeated class contributes again. */
  lemma {:induction false} AllBindingsAppend(ns: Namespace, a: seq<string>, b: seq<string>)
    ensures AllBindings(ns, a + b) == AllBindings(ns, a) + AllBindings(ns, b)
  {
    if b == [] {
      assert a + b == a;
    } else {
      var init, last := b[..|b| - 1], b[|b| - 1];
      assert a + b == (a + init) + [last];
      assert b == init + [last];
      calc {
        AllBindings(ns, a + b);
        { AllBindingsSnoc(ns, a + init, last); }
        AllBindings(ns, a + init) + ClassBindings(last, MembersOf(ns, last));
        { AllBindingsAppend(ns, a, init); }
        AllBindings(ns, a) + (AllBindings(ns, init) + ClassBindings(last, MembersOf(ns, last)));
        { AllBindingsSnoc(ns, init, last); }
        AllBindings(ns, a) + AllBindings(ns, b);
      }
    }
  }

  /** The total number of timed members over the requested classes, repeats counted. */
  function TotalTimed(ns: Namespace, classNames: seq<string>): nat
  {
    if classNames == [] then 0
    else TimedCount(MembersOf(ns, classNames[0])) + TotalTimed(ns, classNames[1..])
  }

  /** There is no deduplication: `config_list` holds one binding per timed
      member of every requested class, counting repeats. */
  lemma {:induction false} AllBindingsLength(ns: Namespace, classNames: seq<string>)
    ensures |AllBindings(ns, classNames)| == TotalTimed(ns, classNames)
  {
    if classNames != [] {
      var c := classNames[0];
      AllBindingsLength(ns, classNames[1..]);
      AllBindingsAppend(ns, [c], classNames[1..]);
      assert [c] + classNames[1..] == classNames;
      assert [c][..0] == [];
      ClassBindingsLength(c, MembersOf(ns, c));
    }
  }

  /** A binding is in `config_list` exactly when its class was requested and a
      member of that class captures a timer with its prefix and stat. */
  lemma {:induction false} AllBindingsMembership(ns: Namespace, classNames: seq<string>, b: Binding)
    requires Resolved(ns, classNames)
    ensures b in AllBindings(ns, classNames) <==>
      b.className in classNames &&
      exists m :: m in ns[b.className] && m.timer == Some(TimerInfo(b.statsdPrefix, b.statName))
  {
    if classNames != [] {
      var init, last := classNames[..|classNames| - 1], classNames[|classNames| - 1];
      assert classNames == init + [last];
      assert forall c :: c in init ==> c in classNames;
      AllBindingsMembership(ns, init, b);
      ClassBindingsMembership(last, MembersOf(ns, last), b);
    }
  }

  // ---------------------------------------------------------------------------
  // Per-class filter: specification and properties

  /** `grafana_list`: the bindings of `config` whose class is exactly `className`,
      in order. */
  function ForClass(config: seq<Binding>, className: string): (r: seq<Binding>)
    ensures |r| <= |config|
    ensures forall b :: b in r <==> b in config && b.className == className
  {
    if config == [] then []
    else
      var last := config[|config| - 1];
      ForClass(config[..|config| - 1], className) + (if last.className == className then [last] else [])
  }

  /** The filter keeps every binding of the class as often as it occurs in
      `config`, and nothing else. */
  lemma {:induction false} ForClassCount(config: seq<Binding>, className: string, b: Binding)
    ensures multiset(ForClass(config, className))[b] ==
      if b.className == className then multiset(config)[b] else 0
  {
    if config != [] {
      var init, last := config[..|config| - 1], config[|config| - 1];
      ForClassCount(init, className, b);
      assert config == init + [last];
    }
  }

  /** Filtering distributes over concatenation, so the filter keeps the order of `config`. */
  lemma {:induction false} ForClassAppend(a: seq<Binding>, b: seq<Binding>, className: string)
    ensures ForClass(a + b, className) == ForClass(a, className) + ForClass(b, className)
  {
    if b != [] {
      var init := b[..|b| - 1];
      var last := b[|b| - 1];
      var tail := if last.className == className then [last] else [];
      ForClassAppend(a, init, className);
      assert (a + b)[..|a + b| - 1] == a + init;
      assert (a + b)[|a + b| - 1] == last;
      calc {
        ForClass(a + b, className);
        ForClass(a + init, className) + tail;
        ForClass(a, className) + (ForClass(init, className) + tail);
      }
    } else {
      assert a + b == a;
    }
  }

  /** Filtering one class's bindings keeps all of them or none. */
  lemma {:induction false} ForClassOfClass(owner: string, members: seq<Member>, className: string)
    ensures ForClass(ClassBindings(owner, members), className) ==
      if owner == className then ClassBindings(owner, members) else []
  {
    if members != [] {
      var init, last := members[..|members| - 1], members[|members| - 1];
      ForClassOfClass(owner, init, className);
      ForClassAppend(ClassBindings(owner, init), MemberBindings(owner, last), className);
      var mb := MemberBindings(owner, last);
      if mb != [] {
        assert mb[..0] == [];
      }
    }
  }

  /** The entries of `classNames` equal to `className`. */
  function Keep(classNames: seq<string>, className: string): (r: seq<string>)
    ensures |r| == multiset(classNames)[className]
    ensures forall c :: c in r ==> c == className && c in classNames
  {
    if classNames == [] then []
    else
      var init, last := classNames[..|classNames| - 1], classNames[|classNames| - 1];
      assert classNames == init + [last];
      Keep(init, className) + (if last == className then [last] else [])
  }

  /** The dashboard of a class lists that class's bindings once for every time
      the class was requested (none when it was not requested). */
  lemma {:induction false} ForClassOfAll(ns: Namespace, classNames: seq<string>, className: string)
    ensures ForClass(AllBindings(ns, classNames), className) == AllBindings(ns, Keep(classNames, className))
  {
    if classNames != [] {
      var init, last := classNames[..|classNames| - 1], classNames[|classNames| - 1];
      ForClassOfAll(ns, init, className);
      var kept := Keep(init, className);
      var own := ClassBindings(last, MembersOf(ns, last));
      assert Keep(classNames, className) == kept + (if last == className then [last] else []);
      calc {
        ForClass(AllBindings(ns, classNames), className);
        ForClass(AllBindings(ns, init) + own, className);
        { ForClassAppend(AllBindings(ns, init), own, className); }
        ForClass(AllBindings(ns, init), className) + ForClass(own, className);
        { ForClassOfClass(last, MembersOf(ns, last), className); }
        AllBindings(ns, kept) + (if last == className then own else []);
      }
      if last == className {
        AllBindingsSnoc(ns, kept, last);
      } else {
        assert Keep(classNames, className) == kept;
        assert AllBindings(ns, kept) + [] == AllBindings(ns, kept);
      }
    }
  }

  /** Requesting one more class appends that class's bindings. */
  lemma AllBindingsSnoc(ns: Namespace, classNames: seq<string>, c: string)
    ensures AllBindings(ns, classNames + [c]) == AllBindings(ns, classNames) + ClassBindings(c, MembersOf(ns, c))
  {
    assert (classNames + [c])[..|classNames|] == classNames;
  }

  /** No class name is requested twice. */
  predicate Distinct(classNames: seq<string>)
  {
    forall i, j :: 0 <= i < j < |classNames| ==> classNames[i] != classNames[j]
  }

  /** In a list without repeats, each entry is kept exactly once. */
  lemma {:induction false} KeepDistinct(classNames: seq<string>, k: nat)
    requires Distinct(classNames) && k < |classNames|
    ensures Keep(classNames, classNames[k]) == [classNames[k]]
  {
    var init, last := classNames[..|classNames| - 1], classNames[|classNames| - 1];
    if k == |classNames| - 1 {
      assert classNames[k] !in init;
      assert |Keep(init, classNames[k])| == 0;
    } else {
      assert init[k] == classNames[k];
      KeepDistinct(init, k);
    }
  }

  /** When no class is requested twice, the dashboard of a requested class
      lists exactly that class's bindings. */
  lemma ForClassDistinct(ns: Namespace, classNames: seq<string>, k: nat)
    requires Distinct(classNames) && k < |classNames|
    ensures ForClass(AllBindings(ns, classNames), classNames[k]) ==
      ClassBindings(classNames[k], MembersOf(ns, classNames[k]))
  {
    var c := classNames[k];
    ForClassOfAll(ns, classNames, c);
    KeepDistinct(classNames, k);
    AllBindingsSnoc(ns, [], c);
    assert [] + [c] == [c];
  }

  /** The concatenation of the grafana lists of `classNames`, in request order. */
  function ConcatForClasses(config: seq<Binding>, classNames: seq<string>): seq<Binding>
  {
    if classNames == [] then []
    else ConcatForClasses(config, classNames[..|classNames| - 1])
         + ForClass(config, classNames[|classNames| - 1])
  }

  /** When no class is requested twice, the dashboards partition `config_list`:
      their grafana lists, concatenated in request order, give it back exactly. */
  lemma {:induction false} DashboardsPartition(ns: Namespace, classNames: seq<string>)
    requires Distinct(classNames)
    ensures ConcatForClasses(AllBindings(ns, classNames), classNames) == AllBindings(ns, classNames)
  {
    PartitionPrefix(ns, classNames, |classNames|);
    assert classNames[..|classNames|] == classNames;
  }

  lemma {:induction false} PartitionPrefix(ns: Namespace, classNames: seq<string>, k: nat)
    requires Distinct(classNames) && k <= |classNames|
    ensures ConcatForClasses(AllBindings(ns, classNames), classNames[..k]) == AllBindings(ns, classNames[..k])
  {
    if k > 0 {
      var c := classNames[k - 1];
      var config := AllBindings(ns, classNames);
      var before := classNames[..k - 1];
      assert classNames[..k][..k - 1] == before;
      assert classNames[..k] == before + [c];
      calc {
        ConcatForClasses(config, classNames[..k]);
        ConcatForClasses(config, before) + ForClass(config, c);
        { PartitionPrefix(ns, classNames, k - 1); ForClassDistinct(ns, classNames, k - 1); }
        AllBindings(ns, before) + ClassBindings(c, MembersOf(ns, c));
        { AllBindingsSnoc(ns, before, c); }
        AllBindings(ns, classNames[..k]);
      }
    }
  }

  // ---------------------------------------------------------------------------
  // The command, step by step

  /** The inner scan loop of `metric_config_gen`: one binding, tagged with the
      class being scanned, for each member whose wrapper captures a timer. */
  method ScanMembers(className: string, members: seq<Member>) returns (found: seq<Binding>)
    ensures found == ClassBindings(className, members)
  {
    found := [];
    var j := 0;
    while j < |members|
      invariant 0 <= j <= |members|
      invariant found == ClassBindings(className, members[..j])
    {
      var m := members[j];
      Seqs.TakeTake(members, j);
      if m.timer.Some? {
        found := found + [Binding(m.timer.value.prefix, m.timer.value.stat, className)];
      }
      j := j + 1;
    }
    Seqs.TakeAll(members);
  }

  /** The scan loop of `metric_config_gen`: for each requested class in order,
      look the class up and append the bindings of its timed members. */
  method CollectBindings(pkg: Package, fileName: string, classNames: seq<string>)
    returns (r: Result<seq<Binding>, GenError>)
    ensures r == Collect(pkg, fileName, classNames)
  {
    var configList: seq<Binding> := [];
    var i := 0;
    while i < |classNames|
      invariant 0 <= i <= |classNames|
      invariant fileName !in pkg ==> i == 0 && configList == []
      invariant fileName in pkg ==> Resolved(pkg[fileName], classNames[..i])
      invariant fileName in pkg ==> configList == AllBindings(pkg[fileName], classNames[..i])
    {
      if fileName !in pkg {
        return Failure(ModuleAttributeMissing(fileName));
      }
      var ns := pkg[fileName];
      var className := classNames[i];
      if className !in ns {
        CollectStopsAt(pkg, fileName, classNames, i);
        return Failure(ClassNotFound(className));
      }
      var found := ScanMembers(className, ns[className]);
      CollectStep(ns, classNames, i, configList, found);
      configList := configList + found;
      i := i + 1;
    }
    if i > 0 {
      Seqs.TakeAll(classNames);
      CollectAllFound(pkg, fileName, classNames);
    }
    r := Success(configList);
  }

  /** The dashboard of one class: rendered to its own path, under the given uid,
      from the class's grafana list. */
  function Dashboard(configList: seq<Binding>, className: string, uid: string): (e: Effect)
    ensures e.Render? && e.dest == DashboardPath(className)
    ensures e.doc.Grafana? && e.doc.serviceName == className && e.doc.uid == uid
    ensures forall b :: b in e.doc.grafanaList <==> b in configList && b.className == className
  {
    Render(DashboardPath(className), Grafana(className, uid, ForClass(configList, className)))
  }

  /** The dashboard loop of `metric_config_gen`: for each requested class, filter
      `config_list` by exact class name into `grafana_list` and render the
      dashboard template with it, under a fresh uid. `uuids(i)` stands for the
      value `shortuuid.uuid()` returns on the i-th iteration. */
  method RenderDashboards(configList: seq<Binding>, classNames: seq<string>, uuids: nat -> string)
    returns (effects: seq<Effect>)
    ensures |effects| == |classNames|
    ensures forall i :: 0 <= i < |classNames| ==>
      effects[i] == Dashboard(configList, classNames[i], uuids(i))
  {
    effects := [];
    var i := 0;
    while i < |classNames|
      invariant 0 <= i <= |classNames|
      invariant |effects| == i
      invariant forall k :: 0 <= k < i ==>
        effects[k] == Dashboard(configList, classNames[k], uuids(k))
    {
      var className := classNames[i];
      var grafanaList: seq<Binding> := [];
      var j := 0;
      while j < |configList|
        invariant 0 <= j <= |configList|
        invariant grafanaList == ForClass(configList[..j], className)
      {
        Seqs.TakeTake(configList, j);
        if configList[j].className == className {
          grafanaList := grafanaList + [configList[j]];
        }
        j := j + 1;
      }
      Seqs.TakeAll(configList);
      effects := effects + [Render(DashboardPath(className), Grafana(className, uuids(i), grafanaList))];
      assert effects[i] == Dashboard(configList, className, uuids(i));
      i := i + 1;
    }
  }

  /** The write phase of `metric_config_gen`, once the scan has succeeded: the
      mapping file from all of `config_list`, the dashboard directory if it is
      absent, then one dashboard per requested class in request order. */
  method WriteOutputs(configList: seq<Binding>, dashboardDirExists: bool, classNames: seq<string>,
                      uuids: nat -> string)
    returns (effects: seq<Effect>)
    ensures |effects| == (if dashboardDirExists then 1 else 2) + |classNames|
    ensures effects[0] == Render(MAPPING_FILE, Mapping(configList))
    ensures !dashboardDirExists ==> effects[1] == MakeDirs(DASHBOARD_DIR)
    ensures var dashboards := effects[|effects| - |classNames|..];
      forall i :: 0 <= i < |classNames| ==> dashboards[i] == Dashboard(configList, classNames[i], uuids(i))
  {
    var mapping := Render(MAPPING_FILE, Mapping(configList));
    var dashboards := RenderDashboards(configList, classNames, uuids);
    if dashboardDirExists {
      effects := [mapping] + dashboards;
    } else {
      effects := [mapping, MakeDirs(DASHBOARD_DIR)] + dashboards;
    }
    assert effects[|effects| - |classNames|..] == dashboards;
  }

  /** `metric_config_gen(module, class_name_str)`. The whole scan runs before the
      first write, so a failed lookup leaves no trace; otherwise the mapping file
      is rendered from all bindings, the dashboard directory is created if it is
      absent, and one dashboard is rendered per requested class. */
  method MetricConfigGen(importer: Importer, dashboardDirExists: bool, modulePath: string,
                         classNameStr: string, uuids: nat -> string)
    returns (effects: seq<Effect>, err: Option<GenError>)
    ensures var classNames := Strings.Split(classNameStr, ',');
      err == (if modulePath !in importer then Some(ImportFailed(modulePath))
              else match Collect(importer[modulePath], FileName(modulePath), classNames)
                case Failure(e) => Some(e)
                case Success(_) => None)
    ensures err.Some? ==> effects == []
    ensures err.None? ==>
      |effects| == (if dashboardDirExists then 1 else 2) + |Strings.Split(classNameStr, ',')|
    ensures err.None? ==>
      var classNames := Strings.Split(classNameStr, ',');
      var configList := Collect(importer[modulePath], FileName(modulePath), classNames).value;
      var dashboards := effects[|effects| - |classNames|..];
      effects[0] == Render(MAPPING_FILE, Mapping(configList))
      && (!dashboardDirExists ==> effects[1] == MakeDirs(DASHBOARD_DIR))
      && forall i :: 0 <= i < |classNames| ==> dashboards[i] == Dashboard(configList, classNames[i], uuids(i))
  {
    var fileName := FileName(modulePath);
    if modulePath !in importer {
      return [], Some(ImportFailed(modulePath));
    }
    var pkg := importer[modulePath];
    var classNames := Strings.Split(classNameStr, ',');
    var collected := CollectBindings(pkg, fileName, classNames);
    if collected.Failure? {
      return [], Some(collected.error);
    }
    effects := WriteOutputs(collected.value, dashboardDirExists, classNames, uuids);
    err := None;
  }

  // ---------------------------------------------------------------------------
  // A worked example

  /** The bindings of the example below: only `A`'s timed method. */
  lemma TwoClassBindings()
    ensures var hello := Member("hello", Some(TimerInfo("svcA", "hello")));
      var ping := Member("ping", None);
      AllBindings(map["A" := [hello], "B" := [ping]], ["A", "B"]) == [Binding("svcA", "hello", "A")]
  {
    var hello := Member("hello", Some(TimerInfo("svcA", "hello")));
    var ping := Member("ping", None);
    var ns: Namespace := map["A" := [hello], "B" := [ping]];
    assert [] + [hello] == [hello];
    assert [] + [ping] == [ping];
    ClassBindingsSnoc("A", [], hello);
    ClassBindingsSnoc("B", [], ping);
    assert [] + ["A"] == ["A"];
    assert ["A"] + ["B"] == ["A", "B"];
    AllBindingsSnoc(ns, [], "A");
    AllBindingsSnoc(ns, ["A"], "B");
  }

  /** Class `A` has one method timed as `svcA.hello`, class `B` none. The mapping
      gets exactly that one binding, `A`'s dashboard lists it and `B`'s
      dashboard is still produced, with an empty list. */
  lemma TwoClassExample()
    ensures var hello := Member("hello", Some(TimerInfo("svcA", "hello")));
      var ping := Member("ping", None);
      var pkg: Package := map["svc" := map["A" := [hello], "B" := [ping]]];
      var config := Collect(pkg, "svc", ["A", "B"]);
      config == Success([Binding("svcA", "hello", "A")])
      && ForClass(config.value, "A") == config.value
      && ForClass(config.value, "B") == []
  {
    var hello := Member("hello", Some(TimerInfo("svcA", "hello")));
    var ping := Member("ping", None);
    var ns: Namespace := map["A" := [hello], "B" := [ping]];
    var a := Binding("svcA", "hello", "A");
    TwoClassBindings();
    assert Resolved(ns, ["A", "B"]);
    assert [a][..0] == [];
    assert ForClass([a], "A") == ForClass([], "A") + [a];
    assert ForClass([a], "B") == ForClass([], "B");
  }

  /** The two dashboards of the example above, rendered. */
  lemma TwoClassDashboards(u0: string, u1: string)
    ensures var a := Binding("svcA", "hello", "A");
      Dashboard([a], "A", u0) == Render(DashboardPath("A"), Grafana("A", u0, [a]))
      && Dashboard([a], "B", u1) == Render(DashboardPath("B"), Grafana("B", u1, []))
  {
    var a := Binding("svcA", "hello", "A");
    assert [a][..0] == [];
    assert ForClass([a], "A") == ForClass([], "A") + [a];
    assert ForClass([a], "B") == ForClass([], "B");
  }

  /** A run of four effects, known one by one, is that list. */
  lemma FourEffects(effects: seq<Effect>, e0: Effect, e1: Effect, d0: Effect, d1: Effect)
    requires |effects| == 4 && effects[0] == e0 && effects[1] == e1
    requires effects[2..][0] == d0 && effects[2..][1] == d1
    ensures effects == [e0, e1, d0, d1]
  {
  }

  /** The command line of the example: module `svc`, classes `A,B`. */
  lemma TwoClassCommandLine()
    ensures var hello := Member("hello", Some(TimerInfo("svcA", "hello")));
      var ping := Member("ping", None);
      var pkg: Package := map["svc" := map["A" := [hello], "B" := [ping]]];
      var classNames := Strings.Split("A,B", ',');
      classNames == ["A", "B"]
      && Collect(pkg, FileName("svc"), classNames) == Success([Binding("svcA", "hello", "A")])
  {
    assert Strings.Join(["A", "B"], ',') == "A,B";
    Strings.JoinSplit(["A", "B"], ',');
    assert '.' !in "svc";
    TwoClassExample();
  }

  /** The whole run of the example above, `metric-config-gen svc A,B` with no
      dashboard directory yet: the mapping holds the one binding, the directory
      is created, `A`'s dashboard lists the binding and `B`'s dashboard is
      rendered with an empty list. */
  method TwoClassRun(uuids: nat -> string) returns (effects: seq<Effect>, err: Option<GenError>)
    ensures err == None
    ensures var a := Binding("svcA", "hello", "A");
      effects == [Render(MAPPING_FILE, Mapping([a])),
                  MakeDirs(DASHBOARD_DIR),
                  Render(DashboardPath("A"), Grafana("A", uuids(0), [a])),
                  Render(DashboardPath("B"), Grafana("B", uuids(1), []))]
  {
    var hello := Member("hello", Some(TimerInfo("svcA", "hello")));
    var ping := Member("ping", None);
    var pkg: Package := map["svc" := map["A" := [hello], "B" := [ping]]];
    var a := Binding("svcA", "hello", "A");
    TwoClassCommandLine();
    TwoClassDashboards(uuids(0), uuids(1));
    effects, err := MetricConfigGen(map["svc" := pkg], false, "svc", "A,B", uuids);
    FourEffects(effects, Render(MAPPING_FILE, Mapping([a])), MakeDirs(DASHBOARD_DIR),
      Dashboard([a], "A", uuids(0)), Dashboard([a], "B", uuids(1)));
  }
}
