/** The scaffolding commands `init` and `test_gen` and the helper `copy_files`
    they share. The file system is a map from each directory to its listing;
    file contents are not modelled. A listing is kept as a sequence, and a
    copied name that is new goes at its end: the order is the model's own, since
    `os.listdir` promises none. */
module Scaffold {
  import opened Wrappers
  import Seqs

  type Path = string

  /** Every directory with the names it contains. */
  type Dirs = map<Path, seq<string>>

  /** The one listing entry `copy_files` skips. */
  const PYCACHE := "__pycache__"

  /** `os.path.join(a, b)` for a relative `b`. */
  function JoinPath(a: Path, b: string): Path
  {
    a + "/" + b
  }

  /** `os.path.join(get_directory(dirName), typeName)`: the directory of one
      template or test type inside the installed package. */
  function TypeDir(packageDir: Path, dirName: string, typeName: string): (dir: Path)
    ensures |dir| == |packageDir| + 1 + |dirName| + 1 + |typeName|
    ensures dir[..|packageDir|] == packageDir
    ensures dir[|packageDir|..|dir| - |typeName|] == "/" + dirName + "/"
    ensures dir[|dir| - |typeName|..] == typeName
  {
    JoinPath(JoinPath(packageDir, dirName), typeName)
  }

  /** How a scaffolding command ends: done, one of the refusals it reports, or
      the `SameFileError` that `shutil.copy` raises when a file would be copied
      onto itself. */
  datatype Outcome =
    | Done
    | DirectoryNotEmpty(directory: Path)
    | DirectoryMissingOrEmpty(directory: Path)
    | NoSuchTemplateType(templateType: string)
    | NoSuchTestType(testType: string)
    | SameFileError(directory: Path)

  // ---------------------------------------------------------------------------
  // copy_files: specification

  /** The names `copy_files` copies out of a listing, in listing order. */
  function CopiedNames(listing: seq<string>): (names: seq<string>)
    ensures |names| <= |listing|
    ensures forall x :: x in names ==> x in listing && x != PYCACHE
  {
    if listing == [] then []
    else
      var last := listing[|listing| - 1];
      CopiedNames(listing[..|listing| - 1]) + (if last == PYCACHE then [] else [last])
  }

  /** A listing after one file is copied in: a name already present is
      overwritten, a new name is added at the end. */
  function AddEntry(entries: seq<string>, name: string): seq<string>
  {
    if name in entries then entries else entries + [name]
  }

  /** A listing after the files `names` are copied in, one after another. */
  function CopyInto(entries: seq<string>, names: seq<string>): seq<string>
  {
    if names == [] then entries
    else AddEntry(CopyInto(entries, names[..|names| - 1]), names[|names| - 1])
  }

  /** The directories after `copy_files(src, dest)`, or `None` when it raises
      `SameFileError` (before anything is copied). Directories are named by
      canonical paths, so the same file means the same path. */
  function CopyResult(dirs: Dirs, src: Path, dest: Path): (r: Option<Dirs>)
    requires src in dirs && dest in dirs
    ensures r.None? <==> src == dest && CopiedNames(dirs[src]) != []
    ensures r.Some? ==> dest in r.value && r.value == dirs[dest := r.value[dest]]
  {
    var names := CopiedNames(dirs[src]);
    if src == dest && names != [] then None
    else Some(dirs[dest := CopyInto(dirs[dest], names)])
  }

  /** One more listing entry adds its name to the copied names, unless it is
      `__pycache__`. */
  lemma CopiedNamesSnoc(listing: seq<string>, k: nat)
    requires k < |listing|
    ensures CopiedNames(listing[..k + 1]) ==
      CopiedNames(listing[..k]) + (if listing[k] == PYCACHE then [] else [listing[k]])
  {
    Seqs.TakeTake(listing, k);
  }

  /** Copying one more name adds it to the listing copied into so far. */
  lemma CopyIntoSnoc(entries: seq<string>, names: seq<string>, name: string)
    ensures CopyInto(entries, names + [name]) == AddEntry(CopyInto(entries, names), name)
  {
    assert (names + [name])[..|names|] == names;
  }

  /** Copying a directory onto itself fails as soon as its listing holds an
      entry other than `__pycache__`. */
  lemma SelfCopyFails(dirs: Dirs, p: Path, k: nat)
    requires p in dirs && k < |dirs[p]| && dirs[p][k] != PYCACHE
    ensures CopyResult(dirs, p, p).None?
  {
    CopiedNamesMembership(dirs[p], dirs[p][k]);
  }

  /** Writing back the value a directory already has changes nothing. */
  lemma UpdateSame(dirs: Dirs, p: Path)
    requires p in dirs
    ensures dirs[p := dirs[p]] == dirs
  {
  }

  // ---------------------------------------------------------------------------
  // copy_files: properties

  /** Exactly `__pycache__` is skipped: every other entry is copied. */
  lemma {:induction false} CopiedNamesMembership(listing: seq<string>, x: string)
    ensures x in CopiedNames(listing) <==> x in listing && x != PYCACHE
  {
    if listing != [] {
      var init := listing[..|listing| - 1];
      CopiedNamesMembership(init, x);
      assert listing == init + [listing[|listing| - 1]];
    }
  }

  /** Copying keeps what the destination held, as a prefix, and adds exactly the
      copied names that were not there yet. */
  lemma {:induction false} CopyIntoSpec(entries: seq<string>, names: seq<string>)
    ensures var r := CopyInto(entries, names);
      |entries| <= |r| && r[..|entries|] == entries
      && forall x :: x in r <==> x in entries || x in names
  {
    if names != [] {
      var init := names[..|names| - 1];
      CopyIntoSpec(entries, init);
      assert names == init + [names[|names| - 1]];
      var r0 := CopyInto(entries, init);
      var r := CopyInto(entries, names);
      assert r[..|r0|] == r0;
      assert r[..|entries|] == r0[..|entries|];
    }
  }

  /** `copy_files(src, dest)` changes only `dest`; afterwards `dest` holds its old
      entries, as the prefix of its listing, and every entry of `src` other than
      `__pycache__`. It fails exactly when `src` is `dest` and there is something
      to copy. */
  lemma CopyFilesEffect(dirs: Dirs, src: Path, dest: Path)
    requires src in dirs && dest in dirs
    ensures CopyResult(dirs, src, dest).None? <==>
      src == dest && exists x :: x in dirs[src] && x != PYCACHE
    ensures CopyResult(dirs, src, dest).Some? ==>
      var r := CopyResult(dirs, src, dest).value;
      r.Keys == dirs.Keys
      && (forall p :: p in dirs && p != dest ==> r[p] == dirs[p])
      && |dirs[dest]| <= |r[dest]| && r[dest][..|dirs[dest]|] == dirs[dest]
      && forall x :: x in r[dest] <==> x in dirs[dest] || (x in dirs[src] && x != PYCACHE)
  {
    var names := CopiedNames(dirs[src]);
    CopyIntoSpec(dirs[dest], names);
    forall x
      ensures x in names <==> x in dirs[src] && x != PYCACHE
    {
      CopiedNamesMembership(dirs[src], x);
    }
    if names != [] {
      assert names[0] in names;
    }
  }

  // ---------------------------------------------------------------------------
  // init and test_gen: specification

  /** `init(directory, _type)`: refuse a non-empty existing directory, then a
      missing template type; otherwise create the directory if it is absent and
      copy the template files into it. */
  function InitResult(dirs: Dirs, directory: Path, templateType: string, templateDir: Path): (res: (Outcome, Dirs))
    ensures directory in res.1 ==> res.1 == dirs[directory := res.1[directory]]
    ensures directory !in res.1 ==> res.1 == dirs
  {
    if directory in dirs && dirs[directory] != [] then (DirectoryNotEmpty(directory), dirs)
    else if templateDir !in dirs then (NoSuchTemplateType(templateType), dirs)
    else
      var created := if directory in dirs then dirs else dirs[directory := []];
      match CopyResult(created, templateDir, directory)
      case Some(r) => (Done, r)
      case None => (SameFileError(directory), created)
  }

  /** `test_gen(directory, _type)`: refuse a missing or empty directory, then a
      missing test type; otherwise copy the test files into the directory. */
  function TestGenResult(dirs: Dirs, directory: Path, testType: string, testsDir: Path): (res: (Outcome, Dirs))
    ensures directory in dirs ==> directory in res.1 && res.1 == dirs[directory := res.1[directory]]
    ensures directory !in dirs ==> res.1 == dirs
  {
    if directory !in dirs || dirs[directory] == [] then (DirectoryMissingOrEmpty(directory), dirs)
    else if testsDir !in dirs then (NoSuchTestType(testType), dirs)
    else
      match CopyResult(dirs, testsDir, directory)
      case Some(r) => (Done, r)
      case None => (SameFileError(directory), dirs)
  }

  // ---------------------------------------------------------------------------
  // init and test_gen: properties

  /** `init` refuses in exactly two cases and then writes nothing; it never
      copies a file onto itself, since a template directory that is also the
      target is empty. */
  lemma InitGuards(dirs: Dirs, directory: Path, templateType: string, templateDir: Path)
    ensures var (outcome, r) := InitResult(dirs, directory, templateType, templateDir);
      (outcome == DirectoryNotEmpty(directory) <==> directory in dirs && dirs[directory] != [])
      && (outcome == NoSuchTemplateType(templateType) <==>
            !(directory in dirs && dirs[directory] != []) && templateDir !in dirs)
      && (outcome != Done ==> r == dirs)
      && !outcome.SameFileError?
  {
    if !(directory in dirs && dirs[directory] != []) && templateDir in dirs {
      var created := if directory in dirs then dirs else dirs[directory := []];
      if templateDir == directory {
        assert created[templateDir] == [];
      }
      CopyFilesEffect(created, templateDir, directory);
    }
  }

  /** A successful `init` creates the target only when it was absent, leaves
      every other directory alone, and fills the target with exactly the
      template's entries other than `__pycache__`. */
  lemma InitPopulates(dirs: Dirs, directory: Path, templateType: string, templateDir: Path)
    ensures var (outcome, r) := InitResult(dirs, directory, templateType, templateDir);
      outcome == Done ==>
        r.Keys == dirs.Keys + {directory}
        && (forall p :: p in dirs && p != directory ==> r[p] == dirs[p])
        && forall x :: x in r[directory] <==> x in dirs[templateDir] && x != PYCACHE
  {
    if !(directory in dirs && dirs[directory] != []) && templateDir in dirs {
      var created := if directory in dirs then dirs else dirs[directory := []];
      CopyFilesEffect(created, templateDir, directory);
    }
  }

  /** A successful `test_gen` keeps every directory but the target as it was,
      keeps the target's entries as the prefix of its listing and adds the test
      type's entries other than `__pycache__`. */
  lemma TestGenPopulates(dirs: Dirs, directory: Path, testType: string, testsDir: Path)
    ensures var (outcome, r) := TestGenResult(dirs, directory, testType, testsDir);
      (outcome != Done ==> r == dirs)
      && (outcome == Done ==>
        r.Keys == dirs.Keys
        && (forall p :: p in dirs && p != directory ==> r[p] == dirs[p])
        && |dirs[directory]| <= |r[directory]| && r[directory][..|dirs[directory]|] == dirs[directory]
        && forall x :: x in r[directory] <==> x in dirs[directory] || (x in dirs[testsDir] && x != PYCACHE))
  {
    if directory in dirs && dirs[directory] != [] && testsDir in dirs {
      CopyFilesEffect(dirs, testsDir, directory);
    }
  }

  /** The directory guards of `init` and `test_gen` are mirror images: whenever
      one lets a directory through, the other refuses it. */
  lemma GuardsMirror(dirs: Dirs, directory: Path, templateDir: Path, testsDir: Path)
    ensures InitResult(dirs, directory, "", templateDir).0 != DirectoryNotEmpty(directory) <==>
            TestGenResult(dirs, directory, "", testsDir).0 == DirectoryMissingOrEmpty(directory)
  {
  }

  // ---------------------------------------------------------------------------
  // The commands on a mutable file system

  class FileSystem {
    var dirs: Dirs

    constructor (initial: Dirs)
      ensures dirs == initial
    {
      dirs := initial;
    }

    /** `copy_files(src_dir, dest_dir)`: walk the listing of `src` and copy every
        entry except `__pycache__` into `dest` under the same name. */
    method CopyFiles(src: Path, dest: Path) returns (ok: bool)
      requires src in dirs && dest in dirs
      modifies this
      ensures ok == CopyResult(old(dirs), src, dest).Some?
      ensures dirs == if ok then CopyResult(old(dirs), src, dest).value else old(dirs)
    {
      var listing := dirs[src];
      ghost var copied: seq<string> := [];
      var k := 0;
      while k < |listing|
        invariant 0 <= k <= |listing|
        invariant listing == old(dirs)[src]
        invariant copied == CopiedNames(listing[..k])
        invariant src == dest ==> copied == []
        invariant dirs == old(dirs)[dest := CopyInto(old(dirs)[dest], copied)]
      {
        var name := listing[k];
        CopiedNamesSnoc(listing, k);
        if name != PYCACHE {
          if src == dest {
            // shutil.copy of a file onto itself raises before anything changes
            UpdateSame(old(dirs), dest);
            SelfCopyFails(old(dirs), src, k);
            return false;
          }
          CopyIntoSnoc(old(dirs)[dest], copied, name);
          dirs := dirs[dest := AddEntry(dirs[dest], name)];
          copied := copied + [name];
        } else {
          Seqs.AppendEmpty(copied);
        }
        k := k + 1;
      }
      Seqs.TakeAll(listing);
      ok := true;
    }

    /** `init(directory, _type)`, with `packageDir` the installed package's directory. */
    method Init(packageDir: Path, directory: Path, templateType: string) returns (outcome: Outcome)
      modifies this
      ensures (outcome, dirs) == InitResult(old(dirs), directory, templateType, TypeDir(packageDir, "templates", templateType))
    {
      if directory in dirs && dirs[directory] != [] {
        return DirectoryNotEmpty(directory);
      }
      var templateDir := TypeDir(packageDir, "templates", templateType);
      if templateDir !in dirs {
        return NoSuchTemplateType(templateType);
      }
      if directory !in dirs {
        dirs := dirs[directory := []];
      }
      var ok := CopyFiles(templateDir, directory);
      outcome := if ok then Done else SameFileError(directory);
    }

    /** `test_gen(directory, _type)`, with `packageDir` the installed package's directory. */
    method TestGen(packageDir: Path, directory: Path, testType: string) returns (outcome: Outcome)
      modifies this
      ensures (outcome, dirs) == TestGenResult(old(dirs), directory, testType, TypeDir(packageDir, "tests", testType))
    {
      if directory !in dirs || dirs[directory] == [] {
        return DirectoryMissingOrEmpty(directory);
      }
      var testsDir := TypeDir(packageDir, "tests", testType);
      if testsDir !in dirs {
        return NoSuchTestType(testType);
      }
      var ok := CopyFiles(testsDir, directory);
      outcome := if ok then Done else SameFileError(directory);
    }
  }
}
