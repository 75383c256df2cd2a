/** The registry of config sets: a name-keyed list filled by scanning
    directory trees for config-set roots, and the lookups every phase uses to
    turn a resource id into a file path. */
module ConfigSetManagers {
  import opened Wrappers
  import opened Strings
  import opened Sequences
  import opened FileStores
  import opened ConfigSets

  /** Index of the first `name` in `names`, or `|names|` (`findIndex`, with
      -1 as `|names|`). */
  function FirstIndex(names: seq<string>, name: string): (i: nat)
    ensures i <= |names|
    ensures i < |names| ==> names[i] == name
    ensures forall j :: 0 <= j < i ==> names[j] != name
    ensures i == |names| <==> name !in names
  {
    if |names| == 0 then 0
    else if names[0] == name then 0
    else 1 + FirstIndex(names[1..], name)
  }

  /** A set's name and root, which never change after construction. */
  datatype SetRoot = SetRoot(name: string, root: string)

  /** `buildAbsFilePathById` over the registry: the path the first set named
      by the id's first segment would give it, or `""`. */
  function PathInRegistry(roots: seq<SetRoot>, id: string): string
  {
    var i := FirstIndex(RootNames(roots), SplitAt(id, '.', 0));
    if i < |roots| then BuildPath(roots[i].root, id) else ""
  }

  function RootNames(roots: seq<SetRoot>): (names: seq<string>)
    ensures |names| == |roots| && forall k :: 0 <= k < |roots| ==> names[k] == roots[k].name
  {
    seq(|roots|, k requires 0 <= k < |roots| => roots[k].name)
  }

  // ---------------------------------------------------------------------------
  // searching for config-set roots
  // ---------------------------------------------------------------------------

  /** Folder names the search never enters. */
  const SkipDirs: set<string> := {"node_modules", "out", "build", "dist", ".git", ".cache", "coverage", "temp"}

  /** A directory the search stops at: all three resource folders exist. */
  predicate HasRequiredSubdirs(fs: FileStore, path: string)
  {
    Exists(fs, path + "/models") && Exists(fs, path + "/schemas") && Exists(fs, path + "/instances")
  }

  /** What the search reports: a root it returns is a directory, not a
      skipped name, with all three folders. */
  predicate IsConfigRoot(fs: FileStore, path: string)
  {
    path in fs.dirs && LastPart(path, '/') !in SkipDirs && HasRequiredSubdirs(fs, path)
  }

  /** The outcome of one search call: the roots found, the shared visited set
      afterwards, and the exception that escaped it, if any. */
  datatype Found = Found(roots: seq<string>, visited: set<string>, thrown: Option<string>)

  /** `findConfigRootsRecursive(path, visited)`. A path already visited, a
      file, or a skipped name yields nothing; a directory with the three
      folders is itself the answer; any other directory is searched entry by
      entry. Only `isDirectory` on the path itself can throw out of the call. */
  function FindRoots(fs: FileStore, path: string, visited: set<string>): (r: Found)
    ensures visited <= r.visited
    ensures forall x :: x in r.roots ==> x in r.visited && x !in visited && IsConfigRoot(fs, x)
    ensures NoDup(r.roots)
    decreases Remaining(fs.dirs.Keys, visited), 1
  {
    if path in visited then Found([], visited, None)
    else
      var v := visited + {path};
      match IsDirectory(fs, path)
      case Failure(e) => Found([], v, Some(e))
      case Success(isDir) =>
        if !isDir || LastPart(path, '/') in SkipDirs then Found([], v, None)
        else if HasRequiredSubdirs(fs, path) then Found([path], v, None)
        else
          match ReadDirectory(fs, path)
          case Failure(_) => Found([], v, None)
          case Success(subfolders) =>
            SeeNew(fs.dirs.Keys, visited, path);
            SearchEntries(fs, path, subfolders, v, [])
  }

  /** The loop over a directory's entries. An exception from an entry's
      search is caught by the `try` around the loop: the loop ends and what
      was found before it is returned. */
  function SearchEntries(fs: FileStore, base: string, subfolders: seq<string>, visited: set<string>, acc: seq<string>)
    : (r: Found)
    requires forall x :: x in acc ==> x in visited && IsConfigRoot(fs, x)
    requires NoDup(acc)
    ensures visited <= r.visited && r.thrown.None?
    ensures |acc| <= |r.roots| && r.roots[..|acc|] == acc
    ensures forall x :: x in r.roots ==> x in r.visited && IsConfigRoot(fs, x)
    ensures forall x :: x in r.roots && x !in acc ==> x !in visited
    ensures NoDup(r.roots)
    decreases Remaining(fs.dirs.Keys, visited), 2, |subfolders|
  {
    if |subfolders| == 0 then Found(acc, visited, None)
    else
      var child := FindRoots(fs, base + "/" + subfolders[0], visited);
      if child.thrown.Some? then Found(acc, child.visited, None)
      else
        SeeMore(fs.dirs.Keys, visited, child.visited);
        AppendFresh(acc, child.roots, visited);
        var r := SearchEntries(fs, base, subfolders[1..], child.visited, acc + child.roots);
        assert (acc + child.roots)[..|acc|] == acc;
        assert r.roots[..|acc|] == acc by {
          assert r.roots[..|acc + child.roots|][..|acc|] == acc;
        }
        r
  }

  /** One turn of the loop over a directory's entries. */
  lemma SearchStep(fs: FileStore, base: string, subfolders: seq<string>, visited: set<string>, acc: seq<string>)
    requires |subfolders| > 0
    requires forall x :: x in acc ==> x in visited && IsConfigRoot(fs, x)
    requires NoDup(acc)
    ensures var child := FindRoots(fs, base + "/" + subfolders[0], visited);
      child.thrown.None? ==>
        && (forall x :: x in acc + child.roots ==> x in child.visited && IsConfigRoot(fs, x))
        && NoDup(acc + child.roots)
        && SearchEntries(fs, base, subfolders, visited, acc)
           == SearchEntries(fs, base, subfolders[1..], child.visited, acc + child.roots)
    ensures var child := FindRoots(fs, base + "/" + subfolders[0], visited);
      child.thrown.Some? ==> SearchEntries(fs, base, subfolders, visited, acc) == Found(acc, child.visited, None)
  {
    var child := FindRoots(fs, base + "/" + subfolders[0], visited);
    if child.thrown.None? {
      AppendFresh(acc, child.roots, visited);
    }
  }

  /** Roots found by a later search are new to the ones found before. */
  lemma AppendFresh(acc: seq<string>, more: seq<string>, visited: set<string>)
    requires NoDup(acc) && NoDup(more)
    requires forall x :: x in acc ==> x in visited
    requires forall x :: x in more ==> x !in visited
    ensures NoDup(acc + more)
  {
    var s := acc + more;
    forall i, j | 0 <= i < j < |s|
      ensures s[i] != s[j]
    {
      if j < |acc| {
        assert s[i] == acc[i] && s[j] == acc[j];
      } else if i >= |acc| {
        assert s[i] == more[i - |acc|] && s[j] == more[j - |acc|];
      } else {
        assert s[i] in acc && s[j] in more;
      }
    }
  }

  /** A directory holding the three folders is reported without looking
      inside it. */
  lemma RootIsNotEntered(fs: FileStore, path: string, visited: set<string>)
    requires path !in visited && IsConfigRoot(fs, path)
    ensures FindRoots(fs, path, visited) == Found([path], visited + {path}, None)
  {
  }

  /** The roots found below the search paths, one fresh visited set per path;
      the first exception that escapes a search ends the whole discovery. */
  function DiscoveredRoots(fs: FileStore, paths: seq<string>): (r: Result<seq<string>, string>)
    ensures r.Success? ==> forall x :: x in r.value ==> IsConfigRoot(fs, x)
  {
    if |paths| == 0 then Success([])
    else
      var first := FindRoots(fs, paths[0], {});
      if first.thrown.Some? then Failure(first.thrown.value)
      else
        var rest :- DiscoveredRoots(fs, paths[1..]);
        Success(first.roots + rest)
  }

  // ---------------------------------------------------------------------------
  // the manager object
  // ---------------------------------------------------------------------------

  class ConfigSetManager {
    var configSets: seq<ConfigSet>

    constructor()
      ensures configSets == []
    {
      configSets := [];
    }

    function Names(): (names: seq<string>)
      reads this
      ensures |names| == |configSets|
      ensures forall i :: 0 <= i < |configSets| ==> names[i] == configSets[i].name
    {
      seq(|configSets|, i requires 0 <= i < |configSets| reads this => configSets[i].name)
    }

    function Roots(): (roots: seq<SetRoot>)
      reads this
      ensures |roots| == |configSets|
      ensures forall i :: 0 <= i < |configSets| ==> roots[i] == SetRoot(configSets[i].name, configSets[i].absolutePath)
    {
      seq(|configSets|, i requires 0 <= i < |configSets| reads this => SetRoot(configSets[i].name, configSets[i].absolutePath))
    }

    /** `setConfigSet`: replaces the first set with the same name, or
        appends. */
    method SetConfigSet(configSet: ConfigSet)
      modifies this
      ensures var i := FirstIndex(old(Names()), configSet.name);
        configSets == if i < |old(configSets)| then old(configSets)[i := configSet] else old(configSets) + [configSet]
      ensures Names() == NamesAfterSet(old(Names()), configSet.name)
    {
      var i := FirstIndex(Names(), configSet.name);
      if i < |configSets| {
        configSets := configSets[i := configSet];
      } else {
        configSets := configSets + [configSet];
      }
    }

    /** `clear`. */
    method Clear()
      modifies this
      ensures configSets == []
    {
      configSets := [];
    }

    /** `getConfigSetByName`: the first set with that name. */
    function GetConfigSetByName(name: string): (r: Option<ConfigSet>)
      reads this
      ensures r.Some? <==> name in Names()
      ensures r.Some? ==> r.value == configSets[FirstIndex(Names(), name)] && r.value.name == name
    {
      var i := FirstIndex(Names(), name);
      if i < |configSets| then Some(configSets[i]) else None
    }

    /** `getConfigSetByResourceId`: the set named by the id's first segment. */
    function GetConfigSetByResourceId(id: string): (r: Option<ConfigSet>)
      reads this
      ensures r.Some? <==> SplitAt(id, '.', 0) in Names()
      ensures r.Some? ==> r.value == configSets[FirstIndex(Names(), SplitAt(id, '.', 0))] && r.value.name == SplitAt(id, '.', 0)
    {
      GetConfigSetByName(SplitAt(id, '.', 0))
    }

    /** `resolveAbsPathFromId`: the registered path, or `""`. */
    function ResolveAbsPathFromId(id: string): (p: string)
      reads this, set i | 0 <= i < |configSets| :: configSets[i]
      ensures SplitAt(id, '.', 0) !in Names() ==> p == ""
      ensures SplitAt(id, '.', 0) in Names() ==>
        p == LookupPath(configSets[FirstIndex(Names(), SplitAt(id, '.', 0))].View(), id)
    {
      match GetConfigSetByName(SplitAt(id, '.', 0))
      case None => ""
      case Some(cs) => cs.GetAbsFilePathById(id)
    }

    /** `buildAbsFilePathById`: where the file of the id belongs, or `""`. */
    function BuildAbsFilePathById(id: string): (p: string)
      reads this
      ensures p == PathInRegistry(Roots(), id)
    {
      assert RootNames(Roots()) == Names();
      match GetConfigSetByName(SplitAt(id, '.', 0))
      case None => ""
      case Some(cs) => cs.BuildAbsFilePathById(id)
    }

    /** `findConfigRootsRecursive`, threading the visited set. */
    method FindConfigRootsRecursive(fs: FileStore, path: string, visited: set<string>)
      returns (roots: seq<string>, visited': set<string>, thrown: Option<string>)
      ensures Found(roots, visited', thrown) == FindRoots(fs, path, visited)
      decreases Remaining(fs.dirs.Keys, visited), 1
    {
      if path in visited {
        return [], visited, None;
      }
      visited' := visited + {path};
      var isDir := IsDirectory(fs, path);
      if isDir.Failure? {
        return [], visited', Some(isDir.error);
      }
      if !isDir.value || LastPart(path, '/') in SkipDirs {
        return [], visited', None;
      }
      if HasRequiredSubdirs(fs, path) {
        return [path], visited', None;
      }
      var listing := ReadDirectory(fs, path);
      if listing.Failure? {
        return [], visited', None;
      }
      SeeNew(fs.dirs.Keys, visited, path);
      roots, visited' := SearchSubfolders(fs, path, listing.value, visited');
      thrown := None;
    }

    /** The loop over a directory's entries, with its `try`. */
    method SearchSubfolders(fs: FileStore, base: string, subfolders: seq<string>, visited: set<string>)
      returns (roots: seq<string>, visited': set<string>)
      ensures Found(roots, visited', None) == SearchEntries(fs, base, subfolders, visited, [])
      decreases Remaining(fs.dirs.Keys, visited), 2, |subfolders|
    {
      roots := [];
      visited' := visited;
      var i := 0;
      assert subfolders[0..] == subfolders;
      while i < |subfolders|
        invariant 0 <= i <= |subfolders|
        invariant visited <= visited'
        invariant forall x :: x in roots ==> x in visited' && IsConfigRoot(fs, x)
        invariant NoDup(roots)
        invariant SearchEntries(fs, base, subfolders[i..], visited', roots) == SearchEntries(fs, base, subfolders, visited, [])
        decreases |subfolders| - i
      {
        var rest := subfolders[i..];
        assert rest[0] == subfolders[i] && rest[1..] == subfolders[i + 1..];
        SeeMore(fs.dirs.Keys, visited, visited');
        SearchStep(fs, base, rest, visited', roots);
        var found, seen, thrown := FindConfigRootsRecursive(fs, base + "/" + subfolders[i], visited');
        visited' := seen;
        if thrown.Some? {
          return;
        }
        roots := roots + found;
        i := i + 1;
      }
    }

    /** `discoverConfigSets`: clears the registry, searches each path, and
        loads one set per distinct root found, in the order found. */
    method DiscoverConfigSets(fs: FileStore, paths: seq<string>) returns (r: Result<seq<ConfigSet>, string>)
      modifies this
      ensures DiscoveredRoots(fs, paths).Failure? ==> r == Failure(DiscoveredRoots(fs, paths).error) && configSets == []
      ensures DiscoveredRoots(fs, paths).Success? ==>
        var roots := Dedup(DiscoveredRoots(fs, paths).value);
        r == Success(configSets) && |configSets| == |roots|
        && forall i :: 0 <= i < |roots| ==>
             fresh(configSets[i]) && configSets[i].absolutePath == roots[i]
             && configSets[i].View() == LoadedView(fs, roots[i])
    {
      Clear();
      var found := SearchPaths(fs, paths);
      if found.Failure? {
        return Failure(found.error);
      }
      var roots := Dedup(found.value);
      DedupFacts(found.value);
      var sets := LoadAll(fs, roots);
      configSets := sets;
      r := Success(sets);
    }

    /** The first loop of `discoverConfigSets`: the roots under each path,
        path by path, stopping at the first exception. */
    method SearchPaths(fs: FileStore, paths: seq<string>) returns (r: Result<seq<string>, string>)
      ensures r == DiscoveredRoots(fs, paths)
      ensures r.Success? ==> forall x :: x in r.value ==> IsConfigRoot(fs, x)
    {
      var discovered: seq<string> := [];
      var i := 0;
      while i < |paths|
        invariant 0 <= i <= |paths|
        invariant forall x :: x in discovered ==> IsConfigRoot(fs, x)
        invariant DiscoveredRoots(fs, paths).Success? <==> DiscoveredRoots(fs, paths[i..]).Success?
        invariant DiscoveredRoots(fs, paths[i..]).Success? ==>
                    DiscoveredRoots(fs, paths).value == discovered + DiscoveredRoots(fs, paths[i..]).value
        invariant DiscoveredRoots(fs, paths[i..]).Failure? ==> DiscoveredRoots(fs, paths) == DiscoveredRoots(fs, paths[i..])
        decreases |paths| - i
      {
        var rest := paths[i..];
        assert rest[0] == paths[i] && rest[1..] == paths[i + 1..];
        var found, _, thrown := FindConfigRootsRecursive(fs, paths[i], {});
        if thrown.Some? {
          return Failure(thrown.value);
        }
        discovered := discovered + found;
        i := i + 1;
      }
      assert paths[i..] == [];
      assert discovered + [] == discovered;
      r := Success(discovered);
    }
  }

  /** The second loop of `discoverConfigSets`: one freshly loaded set per
      root, in order. */
  method LoadAll(fs: FileStore, roots: seq<string>) returns (sets: seq<ConfigSet>)
    requires forall x :: x in roots ==> IsConfigRoot(fs, x)
    ensures |sets| == |roots|
    ensures forall i :: 0 <= i < |roots| ==>
      fresh(sets[i]) && sets[i].absolutePath == roots[i] && sets[i].View() == LoadedView(fs, roots[i])
  {
    sets := [];
    var k := 0;
    while k < |roots|
      invariant 0 <= k <= |roots| && |sets| == k
      invariant forall j :: 0 <= j < k ==>
                  fresh(sets[j]) && sets[j].absolutePath == roots[j] && sets[j].View() == LoadedView(fs, roots[j])
      decreases |roots| - k
    {
      // every root found is an existing directory, so no load throws
      assert roots[k] in roots;
      var loaded := LoadConfigSet(roots[k], fs);
      sets := sets + [loaded.value];
      k := k + 1;
    }
  }

  /** The names after `setConfigSet`. */
  function NamesAfterSet(names: seq<string>, name: string): seq<string>
  {
    var i := FirstIndex(names, name);
    if i < |names| then names[i := name] else names + [name]
  }

  /** `setConfigSet` keeps names unique, and the new set is the one found
      by its name. */
  lemma SetNameKeepsUnique(names: seq<string>, name: string)
    requires NoDup(names)
    ensures NoDup(NamesAfterSet(names, name))
    ensures name in NamesAfterSet(names, name)
    ensures FirstIndex(NamesAfterSet(names, name), name) == (if name in names then FirstIndex(names, name) else |names|)
  {
    var i := FirstIndex(names, name);
    var r := NamesAfterSet(names, name);
    if i < |names| {
      assert r == names;
    } else {
      forall a, b | 0 <= a < b < |r|
        ensures r[a] != r[b]
      {
        if b == |names| {
          assert r[a] == names[a];
        }
      }
    }
  }
}
