/** Loading, starting, stopping and unloading the plugin libraries. The class loader is the
    list of loaded libraries in path order; the calls made to plugins and to the loader are
    kept in a log. Where the code walks a map, the order is left open. */
module PluginContainer {
  import opened Sequences

  /** A loaded library and the classes in its manifest. */
  datatype Library = Library(path: string, names: seq<string>)

  /** A file that the search finds, and what loading it gives. */
  datatype File = Loads(library: Library) | Fails(path: string)

  datatype Outcome = Returned(code: int) | Threw

  /** A start that returned 0, a call of `stopPlugin`, and the unloading of a library. */
  datatype Kind = Started | Stopped | Unloaded
  datatype Event = Event(kind: Kind, name: string)

  // ------------------------------------------------------------- libraries

  function LoadedFrom(files: seq<File>): seq<Library> {
    if files == [] then []
    else
      var libs := LoadedFrom(files[..|files| - 1]);
      match files[|files| - 1]
      case Loads(library) => libs + [library]
      case Fails(_) => libs
  }

  function WithFailures(failed: map<string, int>, files: seq<File>): map<string, int> {
    if files == [] then failed
    else
      var m := WithFailures(failed, files[..|files| - 1]);
      match files[|files| - 1]
      case Loads(_) => m
      case Fails(path) => m[path := -1]
  }

  /** The places of the files that load. */
  ghost predicate GoodFiles(files: seq<File>, at: seq<nat>) {
    && (forall j, k :: 0 <= j < k < |at| ==> at[j] < at[k])
    && forall i: nat :: i in at <==> i < |files| && files[i].Loads?
  }

  ghost predicate LibrariesAt(libs: seq<Library>, files: seq<File>, at: seq<nat>) {
    |libs| == |at| && forall k :: 0 <= k < |at| ==> at[k] < |files| && files[at[k]] == Loads(libs[k])
  }

  lemma GoodFilesSnoc(files: seq<File>, n: nat, front: seq<nat>)
    requires |files| == n + 1 && GoodFiles(files[..n], front)
    ensures GoodFiles(files, front + if files[n].Loads? then [n] else [])
  {
    var at := front + if files[n].Loads? then [n] else [];
    assert forall k :: 0 <= k < |front| ==> front[k] in front;
    forall i: nat ensures i in at <==> i < |files| && files[i].Loads? {
      assert i in at <==> i in front || (files[n].Loads? && i == n);
      assert i < n ==> files[..n][i] == files[i];
    }
  }

  /** What is loaded is the library of every file that loads, once each and in file order. */
  lemma {:induction false} LoadedMeaning(files: seq<File>) returns (at: seq<nat>)
    ensures GoodFiles(files, at) && LibrariesAt(LoadedFrom(files), files, at)
  {
    if files == [] {
      at := [];
    } else {
      var n := |files| - 1;
      var front := LoadedMeaning(files[..n]);
      at := front + if files[n].Loads? then [n] else [];
      GoodFilesSnoc(files, n, front);
      assert forall k :: 0 <= k < |front| ==> files[..n][front[k]] == files[front[k]];
    }
  }

  /** A file that fails is recorded with -1, and what was recorded before stays. */
  lemma {:induction false} FailuresMeaning(failed: map<string, int>, files: seq<File>, path: string)
    ensures path in WithFailures(failed, files) <==> path in failed || Fails(path) in files
    ensures Fails(path) in files ==> WithFailures(failed, files)[path] == -1
    ensures path in failed && Fails(path) !in files ==> WithFailures(failed, files)[path] == failed[path]
  {
    if files != [] {
      var front, last := files[..|files| - 1], files[|files| - 1];
      assert files == front + [last];
      FailuresMeaning(failed, front, path);
    }
  }

  predicate IsLoaded(libs: seq<Library>, path: string) {
    exists i :: 0 <= i < |libs| && libs[i].path == path
  }

  /** `ClassLoader::instance` finds a class in some loaded library, or throws. */
  predicate Found(libs: seq<Library>, name: string) {
    exists i :: 0 <= i < |libs| && name in libs[i].names
  }

  function Without(libs: seq<Library>, paths: set<string>): seq<Library> {
    if libs == [] then []
    else
      var rest := Without(libs[..|libs| - 1], paths);
      if libs[|libs| - 1].path in paths then rest else rest + [libs[|libs| - 1]]
  }

  lemma {:induction false} WithoutIsLoaded(libs: seq<Library>, paths: set<string>, path: string)
    ensures IsLoaded(Without(libs, paths), path) <==> IsLoaded(libs, path) && path !in paths
  {
    if libs != [] {
      var front, last := libs[..|libs| - 1], libs[|libs| - 1];
      WithoutIsLoaded(front, paths, path);
      var rest := Without(front, paths);
      LoadedOfSnoc(front, last, path);
      LoadedOfSnoc(rest, last, path);
      assert libs == front + [last];
    }
  }

  lemma LoadedOfSnoc(libs: seq<Library>, last: Library, path: string)
    ensures IsLoaded(libs + [last], path) <==> IsLoaded(libs, path) || last.path == path
  {
    var all := libs + [last];
    if IsLoaded(libs, path) {
      var i :| 0 <= i < |libs| && libs[i].path == path;
      assert all[i].path == path;
    }
    if last.path == path {
      assert all[|libs|].path == path;
    }
  }

  lemma {:induction false} WithoutTwice(libs: seq<Library>, paths: set<string>, more: set<string>)
    ensures Without(Without(libs, paths), more) == Without(libs, paths + more)
  {
    if libs != [] {
      var front, last := libs[..|libs| - 1], libs[|libs| - 1];
      WithoutTwice(front, paths, more);
      if last.path !in paths {
        var rest := Without(front, paths);
        assert (rest + [last])[..|rest|] == rest;
      }
    }
  }

  lemma {:induction false} WithoutNone(libs: seq<Library>)
    ensures Without(libs, {}) == libs
  {
    if libs != [] {
      WithoutNone(libs[..|libs| - 1]);
      assert libs == libs[..|libs| - 1] + [libs[|libs| - 1]];
    }
  }

  // ------------------------------------------------------- the plugin list

  function WithNames(list: map<string, string>, names: seq<string>, path: string): map<string, string> {
    if names == [] then list else WithNames(list, names[..|names| - 1], path)[names[|names| - 1] := path]
  }

  function ListOf(libs: seq<Library>): map<string, string> {
    if libs == [] then map[]
    else WithNames(ListOf(libs[..|libs| - 1]), libs[|libs| - 1].names, libs[|libs| - 1].path)
  }

  lemma {:induction false} WithNamesMeaning(list: map<string, string>, names: seq<string>, path: string, name: string)
    ensures name in WithNames(list, names, path) <==> name in list || name in names
    ensures name in names ==> WithNames(list, names, path)[name] == path
    ensures name in list && name !in names ==> WithNames(list, names, path)[name] == list[name]
  {
    if names != [] {
      var front, last := names[..|names| - 1], names[|names| - 1];
      assert names == front + [last];
      WithNamesMeaning(list, front, path, name);
    }
  }

  /** The last library, in path order, that has the class. */
  predicate LastWith(libs: seq<Library>, i: nat, name: string) {
    && i < |libs| && name in libs[i].names
    && forall j :: i < j < |libs| ==> name !in libs[j].names
  }

  /** The list has a class exactly when the class loader finds it. */
  lemma {:induction false} ListedIsFound(libs: seq<Library>, name: string)
    ensures name in ListOf(libs) <==> Found(libs, name)
  {
    if libs != [] {
      var front, last := libs[..|libs| - 1], libs[|libs| - 1];
      ListedIsFound(front, name);
      WithNamesMeaning(ListOf(front), last.names, last.path, name);
      if Found(front, name) {
        var i :| 0 <= i < |front| && name in front[i].names;
        assert name in libs[i].names;
      }
      if Found(libs, name) && name !in last.names {
        var i :| 0 <= i < |libs| && name in libs[i].names;
        assert name in front[i].names;
      }
    }
  }

  /** Of several libraries with the same class, the list keeps the last. */
  lemma {:induction false} ListKeepsLast(libs: seq<Library>, name: string, i: nat)
    requires LastWith(libs, i, name)
    ensures name in ListOf(libs) && ListOf(libs)[name] == libs[i].path
  {
    var front, last := libs[..|libs| - 1], libs[|libs| - 1];
    WithNamesMeaning(ListOf(front), last.names, last.path, name);
    if i < |front| {
      assert forall j :: i < j < |front| ==> front[j] == libs[j];
      ListKeepsLast(front, name, i);
    }
  }

  lemma {:induction false} LastExists(libs: seq<Library>, name: string) returns (i: nat)
    requires Found(libs, name)
    ensures LastWith(libs, i, name)
  {
    var front, last := libs[..|libs| - 1], libs[|libs| - 1];
    if name in last.names {
      i := |libs| - 1;
    } else {
      var k :| 0 <= k < |libs| && name in libs[k].names;
      assert name in front[k].names;
      i := LastExists(front, name);
      assert forall j :: i < j < |front| ==> libs[j] == front[j];
    }
  }

  ghost predicate DistinctPaths(libs: seq<Library>) {
    forall i, j :: 0 <= i < j < |libs| ==> libs[i].path != libs[j].path
  }

  /** The library has a class that no later library has too. */
  ghost predicate HasOwnClass(libs: seq<Library>, i: nat) {
    exists name :: LastWith(libs, i, name)
  }

  /** A library is named in the plugin list, and so gets unloaded, exactly when it has such a
      class: an empty manifest, or one whose classes all come again later, keeps it loaded. */
  lemma NamedIffHasOwnClass(libs: seq<Library>, i: nat)
    requires DistinctPaths(libs) && i < |libs|
    ensures libs[i].path in ListOf(libs).Values <==> HasOwnClass(libs, i)
  {
    var list := ListOf(libs);
    if HasOwnClass(libs, i) {
      var name :| LastWith(libs, i, name);
      ListKeepsLast(libs, name, i);
    }
    if libs[i].path in list.Values {
      var name :| name in list && list[name] == libs[i].path;
      ListedIsFound(libs, name);
      var k := LastExists(libs, name);
      ListKeepsLast(libs, name, k);
      assert k == i;
    }
  }

  /** Nothing stays loaded exactly when every library has a class of its own. */
  lemma AllUnloadedIff(libs: seq<Library>)
    requires DistinctPaths(libs)
    ensures Without(libs, ListOf(libs).Values) == [] <==> forall i: nat :: i < |libs| ==> HasOwnClass(libs, i)
  {
    var paths := ListOf(libs).Values;
    var left := Without(libs, paths);
    forall i: nat | i < |libs|
      ensures IsLoaded(left, libs[i].path) <==> !HasOwnClass(libs, i)
    {
      NamedIffHasOwnClass(libs, i);
      WithoutIsLoaded(libs, paths, libs[i].path);
    }
    if left != [] {
      var path := left[0].path;
      assert IsLoaded(left, path);
      WithoutIsLoaded(libs, paths, path);
      var i :| 0 <= i < |libs| && libs[i].path == path;
      assert !HasOwnClass(libs, i);
    }
  }

  /** Two builds of one plugin: the earlier file stays loaded. */
  lemma EarlierBuildStays(a: string, b: string, name: string)
    requires a != b
    ensures var libs := [Library(a, [name]), Library(b, [name])];
            Without(libs, ListOf(libs).Values) == [libs[0]]
  {
    var first, second := Library(a, [name]), Library(b, [name]);
    var libs := [first, second];
    assert libs[..1] == [first] && [first][..0] == [] && [name][..0] == [];
    assert WithNames(map[], [], a) == map[] && ListOf([]) == map[];
    assert ListOf([first]) == WithNames(map[], [name], a) == map[name := a];
    assert WithNames(ListOf([first]), [], b) == map[name := a];
    var list := ListOf(libs);
    assert list == map[name := b];
    assert b in list.Values by { assert list[name] == b; }
    assert Without([first], list.Values) == [first];
  }

  // ------------------------------------------------------------- the class

  function EventsOf(kind: Kind, names: seq<string>): (r: seq<Event>)
    ensures |r| == |names| && forall i :: 0 <= i < |r| ==> r[i] == Event(kind, names[i])
  {
    seq(|names|, i requires 0 <= i < |names| => Event(kind, names[i]))
  }

  lemma {:induction false} CountEvents(kind: Kind, names: seq<string>, e: Event)
    ensures Count(EventsOf(kind, names), e) == if e.kind == kind then Count(names, e.name) else 0
  {
    if names != [] {
      var front, last := names[..|names| - 1], names[|names| - 1];
      CountEvents(kind, front, e);
      CountOfSnoc(EventsOf(kind, front), Event(kind, last), e);
      assert EventsOf(kind, names) == EventsOf(kind, front) + [Event(kind, last)];
    }
  }

  /** The listed classes outside `waiting` whose start returns 0, each once. */
  ghost predicate Starting(list: map<string, string>, start: string -> Outcome, waiting: set<string>,
          started: seq<string>) {
    forall name :: Count(started, name) ==
                   if name in list && name !in waiting && start(name) == Returned(0) then 1 else 0
  }

  lemma StartingStep(list: map<string, string>, start: string -> Outcome, waiting: set<string>, started: seq<string>,
                     name: string)
    requires Starting(list, start, waiting, started) && name in waiting && name in list
    ensures Starting(list, start, waiting - {name}, started + if start(name) == Returned(0) then [name] else [])
  {
    var more := if start(name) == Returned(0) then [name] else [];
    forall other
      ensures Count(started + more, other) ==
              if other in list && other !in waiting - {name} && start(other) == Returned(0) then 1 else 0
    {
      CountOfConcat(started, more, other);
      assert [name][..0] == [];
    }
  }

  predicate Refused(outcome: Outcome) {
    outcome.Returned? && outcome.code != 0
  }

  /** The entries for the listed classes outside `waiting` whose start returns an error. */
  function RefusedEntries(list: map<string, string>, start: string -> Outcome, waiting: set<string>): set<string> {
    set name | name in list && name !in waiting && Refused(start(name)) :: name + ":" + list[name]
  }

  ghost predicate FailuresKept(before: map<string, int>, failed: map<string, int>,
                               list: map<string, string>, start: string -> Outcome, waiting: set<string>) {
    && failed.Keys == before.Keys + RefusedEntries(list, start, waiting)
    && forall k <- failed :: failed[k] == if k in RefusedEntries(list, start, waiting) then -2 else before[k]
  }

  lemma RefusedStep(list: map<string, string>, start: string -> Outcome, waiting: set<string>, name: string)
    requires name in waiting && name in list
    ensures RefusedEntries(list, start, waiting - {name}) ==
            RefusedEntries(list, start, waiting) + if Refused(start(name)) then {name + ":" + list[name]} else {}
  {
    var a, b := RefusedEntries(list, start, waiting), RefusedEntries(list, start, waiting - {name});
    forall x | x in b ensures x in a || (Refused(start(name)) && x == name + ":" + list[name]) {
      var other :| other in list && other !in waiting - {name} && Refused(start(other)) && x == other + ":"
          + list[other];
      if other != name {
        assert other !in waiting;
      }
    }
  }

  lemma FailuresStep(before: map<string, int>, failed: map<string, int>, list: map<string, string>,
                     start: string -> Outcome, waiting: set<string>, name: string)
    requires FailuresKept(before, failed, list, start, waiting) && name in waiting && name in list
    ensures FailuresKept(before, if Refused(start(name)) then failed[name + ":" + list[name] := -2] else failed,
                         list, start, waiting - {name})
  {
    RefusedStep(list, start, waiting, name);
  }

  /** The libraries still loaded and the unloading done once the paths in `gone` are handled. */
  ghost predicate Unloading(libs: seq<Library>, now: seq<Library>, gone: set<string>, unloaded: seq<string>) {
    && now == Without(libs, gone)
    && forall path :: Count(unloaded, path) == if path in gone && IsLoaded(libs, path) then 1 else 0
  }

  /** The paths in `gone` are those listed for the classes outside `waiting`. */
  ghost predicate Handled(list: map<string, string>, waiting: set<string>, gone: set<string>) {
    && (forall path :: path in gone ==> path in list.Values)
    && (forall name :: name in list && name !in waiting ==> list[name] in gone)
  }

  lemma HandledStep(list: map<string, string>, waiting: set<string>, gone: set<string>, name: string)
    requires Handled(list, waiting, gone) && name in list
    ensures Handled(list, waiting - {name}, gone + {list[name]})
  {
  }

  lemma HandledAll(list: map<string, string>, gone: set<string>)
    requires Handled(list, {}, gone)
    ensures gone == list.Values
  {
  }

  lemma UnloadingStarts(libs: seq<Library>)
    ensures Unloading(libs, libs, {}, [])
  {
    WithoutNone(libs);
  }

  lemma UnloadingStep(libs: seq<Library>, now: seq<Library>, gone: set<string>, unloaded: seq<string>, path: string)
    requires Unloading(libs, now, gone, unloaded)
    ensures Unloading(libs, Without(now, {path}), gone + {path}, unloaded + if IsLoaded(now, path) then [path] else [])
  {
    WithoutTwice(libs, gone, {path});
    WithoutIsLoaded(libs, gone, path);
    var more := if IsLoaded(now, path) then [path] else [];
    forall p
      ensures Count(unloaded + more, p) == if p in gone + {path} && IsLoaded(libs, p) then 1 else 0
    {
      CountOfConcat(unloaded, more, p);
      assert [path][..0] == [];
    }
  }

  class Container {
    var loader: seq<Library>
    var pluginsList: map<string, string>
    var loadedPlugins: seq<string>
    var failedPlugins: map<string, int>
    var log: seq<Event>

    /** Listed classes can be found, and started plugins are listed. */
    ghost predicate Valid()
      reads this
    {
      && (forall name :: name in pluginsList ==> Found(loader, name))
      && (forall name :: name in loadedPlugins ==> name in pluginsList)
    }

    constructor ()
      ensures Valid() && loader == [] && pluginsList == map[] && loadedPlugins == [] && failedPlugins == map[]
          && log == []
    {
      loader, pluginsList, loadedPlugins, failedPlugins, log := [], map[], [], map[], [];
    }

    method LoadPlugins(files: seq<File>)
      requires Valid() && loader == [] && pluginsList == map[]
      modifies this`loader, this`pluginsList, this`failedPlugins
      ensures Valid() && loader == LoadedFrom(files) && pluginsList == ListOf(loader)
      ensures failedPlugins == WithFailures(old(failedPlugins), files)
    {
      var k := 0;
      while k < |files|
        invariant 0 <= k <= |files| && loader == LoadedFrom(files[..k]) && pluginsList == map[]
        invariant failedPlugins == WithFailures(old(failedPlugins), files[..k])
      {
        assert files[..k + 1][..k] == files[..k];
        match files[k] {
          case Loads(library) => loader := loader + [library];
          case Fails(path) => failedPlugins := failedPlugins[path := -1];
        }
        k := k + 1;
      }
      assert files[..k] == files;
      GeneratePluginList();
    }

    method GeneratePluginList()
      requires Valid() && pluginsList == map[]
      modifies this`pluginsList
      ensures pluginsList == ListOf(loader)
      ensures Valid()
    {
      var i := 0;
      while i < |loader|
        invariant 0 <= i <= |loader| && pluginsList == ListOf(loader[..i])
      {
        ghost var before := pluginsList;
        var lib := loader[i];
        var j := 0;
        while j < |lib.names|
          invariant 0 <= j <= |lib.names| && pluginsList == WithNames(before, lib.names[..j], lib.path)
        {
          assert lib.names[..j + 1][..j] == lib.names[..j];
          pluginsList := pluginsList[lib.names[j] := lib.path];
          j := j + 1;
        }
        assert lib.names[..j] == lib.names && loader[..i + 1][..i] == loader[..i];
        i := i + 1;
      }
      assert loader[..i] == loader;
      forall name | name in pluginsList ensures Found(loader, name) {
        ListedIsFound(loader, name);
      }
    }

    /** `loadedPlugins` and the log have grown by the classes started. */
    ghost predicate Grown(loaded: seq<string>, events: seq<Event>, started: seq<string>)
      reads this
    {
      loadedPlugins == loaded + started && log == events + EventsOf(Started, started)
    }

    /** One turn of the loop, with what the turns before it have done. */
    method StartPlugin(name: string, start: string -> Outcome, ghost waiting: set<string>, ghost started: seq<string>,
                       ghost loaded: seq<string>, ghost events: seq<Event>, ghost failed: map<string, int>)
      returns (ghost next: seq<string>)
      requires Valid() && name in pluginsList && name in waiting
      requires Starting(pluginsList, start, waiting, started) && Grown(loaded, events, started)
      requires FailuresKept(failed, failedPlugins, pluginsList, start, waiting)
      modifies this`loadedPlugins, this`failedPlugins, this`log
      ensures Valid() && Starting(pluginsList, start, waiting - {name}, next) && Grown(loaded, events, next)
      ensures FailuresKept(failed, failedPlugins, pluginsList, start, waiting - {name})
      ensures start(name) == Returned(0) ==>
                && loadedPlugins == old(loadedPlugins) + [name] && log == old(log) + [Event(Started, name)]
                && failedPlugins == old(failedPlugins)
      ensures start(name) != Returned(0) ==> loadedPlugins == old(loadedPlugins) && log == old(log)
      ensures start(name) == Threw ==> failedPlugins == old(failedPlugins)
      ensures start(name) != Threw && start(name) != Returned(0) ==>
                failedPlugins == old(failedPlugins)[name + ":" + pluginsList[name] := -2]
    {
      FailuresStep(failed, failedPlugins, pluginsList, start, waiting, name);
      StartingStep(pluginsList, start, waiting, started, name);
      next := started + if start(name) == Returned(0) then [name] else [];
      if Found(loader, name) {
        match start(name) {
          case Threw =>
            assert next == started;
          case Returned(code) =>
            if code == 0 {
              log := log + [Event(Started, name)];
              loadedPlugins := loadedPlugins + [name];
              assert EventsOf(Started, next) == EventsOf(Started, started) + [Event(Started, name)];
            } else {
              failedPlugins := failedPlugins[name + ":" + pluginsList[name] := -2];
              assert next == started;
            }
        }
      }
    }

    /** `start` is what `startPlugin` does for each class. */
    method StartPlugins(start: string -> Outcome) returns (ghost started: seq<string>)
      requires Valid()
      modifies this`loadedPlugins, this`failedPlugins, this`log
      ensures Valid() && Grown(old(loadedPlugins), old(log), started)
      ensures Starting(pluginsList, start, {}, started)
      ensures FailuresKept(old(failedPlugins), failedPlugins, pluginsList, start, {})
    {
      started := [];
      var names := pluginsList.Keys;
      while names != {}
        invariant Valid() && names <= pluginsList.Keys
        invariant Grown(old(loadedPlugins), old(log), started)
        invariant Starting(pluginsList, start, names, started)
        invariant FailuresKept(old(failedPlugins), failedPlugins, pluginsList, start, names)
        decreases |names|
      {
        var current :| current in names;
        started := StartPlugin(current, start, names, started, old(loadedPlugins), old(log),
                               old(failedPlugins));
        names := names - {current};
      }
    }

    method StopPlugins()
      requires Valid()
      modifies this`loadedPlugins, this`log
      ensures Valid() && loadedPlugins == []
      ensures log == old(log) + EventsOf(Stopped, old(loadedPlugins))
    {
      var k := 0;
      while k < |loadedPlugins|
        invariant 0 <= k <= |loadedPlugins|
        invariant loadedPlugins == old(loadedPlugins)
        invariant log == old(log) + EventsOf(Stopped, loadedPlugins[..k])
      {
        var name := loadedPlugins[k];
        assert EventsOf(Stopped, loadedPlugins[..k + 1]) == EventsOf(Stopped, loadedPlugins[..k]) + [Event(Stopped,
            name)];
        if Found(loader, name) {
          log := log + [Event(Stopped, name)];
        }
        k := k + 1;
      }
      assert loadedPlugins[..k] == loadedPlugins;
      loadedPlugins := [];
    }

    /** Stops first; then each library named in the list is unloaded once. */
    method UnloadPlugins() returns (ghost unloaded: seq<string>)
      requires Valid()
      modifies this`loader, this`pluginsList, this`loadedPlugins, this`log
      ensures Valid() && loadedPlugins == [] && pluginsList == map[]
      ensures log == old(log) + EventsOf(Stopped, old(loadedPlugins)) + EventsOf(Unloaded, unloaded)
      ensures Unloading(old(loader), loader, old(pluginsList).Values, unloaded)
    {
      StopPlugins();
      unloaded := UnloadLibraries();
      pluginsList := map[];
    }

    /** The loop over the list. */
    method UnloadLibraries() returns (ghost unloaded: seq<string>)
      modifies this`loader, this`log
      ensures log == old(log) + EventsOf(Unloaded, unloaded)
      ensures Unloading(old(loader), loader, pluginsList.Values, unloaded)
    {
      unloaded := [];
      ghost var gone: set<string> := {};
      UnloadingStarts(loader);
      var names := pluginsList.Keys;
      while names != {}
        invariant names <= pluginsList.Keys && Handled(pluginsList, names, gone)
        invariant Unloading(old(loader), loader, gone, unloaded)
        invariant log == old(log) + EventsOf(Unloaded, unloaded)
        decreases |names|
      {
        var current :| current in names;
        var path := pluginsList[current];
        HandledStep(pluginsList, names, gone, current);
        names := names - {current};
        unloaded := UnloadLibrary(path, old(loader), gone, unloaded, old(log));
        gone := gone + {path};
      }
      HandledAll(pluginsList, gone);
    }

    /** One turn of the loop, with what the turns before it have done. */
    method UnloadLibrary(path: string, ghost libs: seq<Library>, ghost gone: set<string>, ghost unloaded: seq<string>,
                         ghost stopped: seq<Event>)
      returns (ghost next: seq<string>)
      requires Unloading(libs, loader, gone, unloaded)
      requires log == stopped + EventsOf(Unloaded, unloaded)
      modifies this`loader, this`log
      ensures Unloading(libs, loader, gone + {path}, next)
      ensures log == stopped + EventsOf(Unloaded, next)
    {
      UnloadingStep(libs, loader, gone, unloaded, path);
      if IsLoaded(loader, path) {
        loader := Without(loader, {path});
        log := log + [Event(Unloaded, path)];
        next := unloaded + [path];
        assert EventsOf(Unloaded, next) == EventsOf(Unloaded, unloaded) + [Event(Unloaded, path)];
      } else {
        WithoutAbsent(loader, path);
        next := unloaded;
        assert unloaded + [] == unloaded;
      }
    }
  }

  lemma {:induction false} WithoutAbsent(libs: seq<Library>, path: string)
    requires !IsLoaded(libs, path)
    ensures Without(libs, {path}) == libs
  {
    if libs != [] {
      var front, last := libs[..|libs| - 1], libs[|libs| - 1];
      assert libs == front + [last];
      LoadedOfSnoc(front, last, path);
      WithoutAbsent(front, path);
    }
  }

  /** All starts come before all stops, and these before all unloads. */
  ghost predicate CallsInOrder(log: seq<Event>) {
    forall i, j :: 0 <= i < j < |log| ==>
      && (log[i].kind.Unloaded? ==> log[j].kind.Unloaded?)
      && (log[i].kind.Stopped? ==> !log[j].kind.Started?)
  }

  function LogOf(starts: seq<string>, unloads: seq<string>): seq<Event> {
    EventsOf(Started, starts) + EventsOf(Stopped, starts) + EventsOf(Unloaded, unloads)
  }

  lemma CountLog(starts: seq<string>, unloads: seq<string>, e: Event)
    ensures Count(LogOf(starts, unloads), e) == Count(if e.kind.Unloaded? then unloads else starts, e.name)
  {
    var a, b, c := EventsOf(Started, starts), EventsOf(Stopped, starts), EventsOf(Unloaded, unloads);
    CountOfConcat(a + b, c, e);
    CountOfConcat(a, b, e);
    CountEvents(Started, starts, e);
    CountEvents(Stopped, starts, e);
    CountEvents(Unloaded, unloads, e);
  }

  lemma ListedPathIsLoaded(libs: seq<Library>, path: string)
    requires path in ListOf(libs).Values
    ensures IsLoaded(libs, path)
  {
    var name :| name in ListOf(libs) && ListOf(libs)[name] == path;
    ListedIsFound(libs, name);
    var k := LastExists(libs, name);
    ListKeepsLast(libs, name, k);
  }

  lemma LogInOrder(starts: seq<string>, unloads: seq<string>)
    ensures CallsInOrder(LogOf(starts, unloads))
  {
    var log := LogOf(starts, unloads);
    assert forall i :: 0 <= i < |starts| ==> log[i].kind == Started;
    assert forall i :: |starts| <= i < 2 * |starts| ==> log[i].kind == Stopped;
    assert forall i :: 2 * |starts| <= i < |log| ==> log[i].kind == Unloaded;
  }

  /** Each plugin whose start returned 0 was stopped, both once. */
  ghost predicate StartedAreStopped(libs: seq<Library>, start: string -> Outcome, log: seq<Event>) {
    forall name :: Count(log, Event(Started, name)) == Count(log, Event(Stopped, name)) ==
                   if Found(libs, name) && start(name) == Returned(0) then 1 else 0
  }

  ghost predicate ListedAreUnloaded(libs: seq<Library>, log: seq<Event>) {
    forall path :: Count(log, Event(Unloaded, path)) == if path in ListOf(libs).Values then 1 else 0
  }

  lemma StartsToStops(libs: seq<Library>, start: string -> Outcome, starts: seq<string>, unloads: seq<string>)
    requires Starting(ListOf(libs), start, {}, starts)
    ensures StartedAreStopped(libs, start, LogOf(starts, unloads))
  {
    var log := LogOf(starts, unloads);
    forall name
      ensures Count(log, Event(Started, name)) == Count(log, Event(Stopped, name)) ==
              if Found(libs, name) && start(name) == Returned(0) then 1 else 0
    {
      CountLog(starts, unloads, Event(Started, name));
      CountLog(starts, unloads, Event(Stopped, name));
      ListedIsFound(libs, name);
    }
  }

  lemma UnloadsToLog(libs: seq<Library>, left: seq<Library>, starts: seq<string>, unloads: seq<string>)
    requires Unloading(libs, left, ListOf(libs).Values, unloads)
    ensures ListedAreUnloaded(libs, LogOf(starts, unloads))
  {
    var log := LogOf(starts, unloads);
    forall path ensures Count(log, Event(Unloaded, path)) == if path in ListOf(libs).Values then 1 else 0 {
      CountLog(starts, unloads, Event(Unloaded, path));
      if path in ListOf(libs).Values {
        ListedPathIsLoaded(libs, path);
      }
    }
  }

  lemma LogIsLogOf(starts: seq<string>, loaded: seq<string>, unloads: seq<string>, log: seq<Event>)
    requires loaded == [] + starts
    requires log == [] + EventsOf(Started, starts) + EventsOf(Stopped, loaded) + EventsOf(Unloaded, unloads)
    ensures log == LogOf(starts, unloads)
  {
    assert [] + starts == starts;
    var started := EventsOf(Started, starts);
    assert [] + started == started;
  }

  /** The log of a life, from what was started, what was remembered and what was unloaded. */
  lemma LifeLog(libs: seq<Library>, start: string -> Outcome, left: seq<Library>, starts: seq<string>,
                loaded: seq<string>, unloads: seq<string>, log: seq<Event>)
    requires DistinctPaths(libs)
    requires Starting(ListOf(libs), start, {}, starts) && Unloading(libs, left, ListOf(libs).Values, unloads)
    requires loaded == [] + starts
    requires log == [] + EventsOf(Started, starts) + EventsOf(Stopped, loaded) + EventsOf(Unloaded, unloads)
    ensures StartedAreStopped(libs, start, log) && ListedAreUnloaded(libs, log) && CallsInOrder(log)
    ensures left == [] <==> forall i: nat :: i < |libs| ==> HasOwnClass(libs, i)
  {
    LogIsLogOf(starts, loaded, unloads, log);
    StartsToStops(libs, start, starts, unloads);
    UnloadsToLog(libs, left, starts, unloads);
    LogInOrder(starts, unloads);
    AllUnloadedIff(libs);
  }

  // --------------------------------------------------- the same over the files

  ghost predicate HasClass(file: File, name: string) {
    file.Loads? && name in file.library.names
  }

  /** Some file loads a library with the class. */
  ghost predicate Provided(files: seq<File>, name: string) {
    exists i :: 0 <= i < |files| && HasClass(files[i], name)
  }

  ghost predicate LastProvides(files: seq<File>, i: nat, name: string) {
    && i < |files| && HasClass(files[i], name)
    && forall j :: i < j < |files| ==> !HasClass(files[j], name)
  }

  /** The file's library has a class that no later library has too. */
  ghost predicate HasLastClass(files: seq<File>, i: nat) {
    exists name :: LastProvides(files, i, name)
  }

  ghost predicate DifferentPaths(files: seq<File>) {
    forall i, j :: 0 <= i < j < |files| && files[i].Loads? && files[j].Loads? ==>
      files[i].library.path != files[j].library.path
  }

  /** The file is that of the path and its library has such a class. */
  ghost predicate UnloadsFile(files: seq<File>, i: nat, path: string) {
    i < |files| && files[i].Loads? && files[i].library.path == path && HasLastClass(files, i)
  }

  lemma FoundIsProvided(files: seq<File>, libs: seq<Library>, at: seq<nat>, name: string)
    requires GoodFiles(files, at) && LibrariesAt(libs, files, at)
    ensures Found(libs, name) <==> Provided(files, name)
  {
    if Found(libs, name) {
      var k :| 0 <= k < |libs| && name in libs[k].names;
      assert HasClass(files[at[k]], name);
    }
    if Provided(files, name) {
      var i: nat :| i < |files| && HasClass(files[i], name);
      assert i in at;
      var k :| 0 <= k < |at| && at[k] == i;
      assert name in libs[k].names;
    }
  }

  lemma LastIsLast(files: seq<File>, libs: seq<Library>, at: seq<nat>, k: nat, name: string)
    requires GoodFiles(files, at) && LibrariesAt(libs, files, at) && k < |libs|
    ensures LastWith(libs, k, name) <==> LastProvides(files, at[k], name)
  {
    if LastWith(libs, k, name) {
      forall j: nat | at[k] < j < |files| ensures !HasClass(files[j], name) {
        if files[j].Loads? {
          assert j in at;
          var m :| 0 <= m < |at| && at[m] == j;
          assert name !in libs[m].names;
        }
      }
    }
    if LastProvides(files, at[k], name) {
      forall m | k < m < |libs| ensures name !in libs[m].names {
        assert !HasClass(files[at[m]], name);
      }
    }
  }

  lemma OwnIsLast(files: seq<File>, libs: seq<Library>, at: seq<nat>, k: nat)
    requires GoodFiles(files, at) && LibrariesAt(libs, files, at) && k < |libs|
    ensures HasOwnClass(libs, k) <==> HasLastClass(files, at[k])
  {
    if HasOwnClass(libs, k) {
      var name :| LastWith(libs, k, name);
      LastIsLast(files, libs, at, k, name);
    }
    if HasLastClass(files, at[k]) {
      var name :| LastProvides(files, at[k], name);
      LastIsLast(files, libs, at, k, name);
    }
  }

  lemma PathsAreDistinct(files: seq<File>, libs: seq<Library>, at: seq<nat>)
    requires GoodFiles(files, at) && LibrariesAt(libs, files, at) && DifferentPaths(files)
    ensures DistinctPaths(libs)
  {
    forall i, j | 0 <= i < j < |libs| ensures libs[i].path != libs[j].path {
      assert files[at[i]].Loads? && files[at[j]].Loads? && at[i] < at[j];
    }
  }

  lemma ListedIsLast(files: seq<File>, libs: seq<Library>, at: seq<nat>, path: string)
    requires GoodFiles(files, at) && LibrariesAt(libs, files, at) && DifferentPaths(files)
    ensures path in ListOf(libs).Values <==> exists i: nat :: UnloadsFile(files, i, path)
  {
    PathsAreDistinct(files, libs, at);
    if path in ListOf(libs).Values {
      ListedPathIsLoaded(libs, path);
      var k :| 0 <= k < |libs| && libs[k].path == path;
      NamedIffHasOwnClass(libs, k);
      OwnIsLast(files, libs, at, k);
      assert UnloadsFile(files, at[k], path);
    }
    if exists i: nat :: UnloadsFile(files, i, path) {
      var i: nat :| UnloadsFile(files, i, path);
      assert i in at;
      var k :| 0 <= k < |at| && at[k] == i;
      OwnIsLast(files, libs, at, k);
      NamedIffHasOwnClass(libs, k);
    }
  }

  lemma AllOwnIsAllLast(files: seq<File>, libs: seq<Library>, at: seq<nat>)
    requires GoodFiles(files, at) && LibrariesAt(libs, files, at)
    ensures (forall k: nat :: k < |libs| ==> HasOwnClass(libs, k)) <==>
            (forall i: nat :: i < |files| && files[i].Loads? ==> HasLastClass(files, i))
  {
    forall k: nat | k < |libs| ensures HasOwnClass(libs, k) <==> HasLastClass(files, at[k]) {
      OwnIsLast(files, libs, at, k);
    }
    if forall k: nat :: k < |libs| ==> HasOwnClass(libs, k) {
      forall i: nat | i < |files| && files[i].Loads? ensures HasLastClass(files, i) {
        assert i in at;
        var k :| 0 <= k < |at| && at[k] == i;
        assert HasOwnClass(libs, k);
      }
    }
    if forall i: nat :: i < |files| && files[i].Loads? ==> HasLastClass(files, i) {
      forall k: nat | k < |libs| ensures HasOwnClass(libs, k) {
        assert files[at[k]].Loads?;
      }
    }
  }

  /** Of the classes in the files that load, those whose start returned 0 were started and
      stopped, once each, and no others. */
  ghost predicate StartedOnceStoppedOnce(files: seq<File>, start: string -> Outcome, log: seq<Event>) {
    forall name :: Count(log, Event(Started, name)) == Count(log, Event(Stopped, name)) ==
                   if Provided(files, name) && start(name) == Returned(0) then 1 else 0
  }

  ghost predicate UnloadedOnce(files: seq<File>, log: seq<Event>) {
    forall path :: Count(log, Event(Unloaded, path)) == if exists i: nat :: UnloadsFile(files, i, path) then 1 else 0
  }

  /** From the loaded libraries back to the files. */
  lemma LifeOverFiles(files: seq<File>, libs: seq<Library>, at: seq<nat>, start: string -> Outcome, log: seq<Event>)
    requires GoodFiles(files, at) && LibrariesAt(libs, files, at) && DifferentPaths(files)
    requires StartedAreStopped(libs, start, log) && ListedAreUnloaded(libs, log)
    ensures StartedOnceStoppedOnce(files, start, log) && UnloadedOnce(files, log)
  {
    forall name
      ensures Count(log, Event(Started, name)) == Count(log, Event(Stopped, name)) ==
              if Provided(files, name) && start(name) == Returned(0) then 1 else 0
    {
      FoundIsProvided(files, libs, at, name);
    }
    forall path
      ensures Count(log, Event(Unloaded, path)) == if exists i: nat :: UnloadsFile(files, i, path) then 1 else 0
    {
      ListedIsLast(files, libs, at, path);
    }
  }

  /** The life of the container in `main`: load, start, unload. All starts come before
      all stops, these before all unloads, and nothing stays loaded exactly when each library has a class that no later
      one has. */
  method Life(files: seq<File>, start: string -> Outcome) returns (log: seq<Event>, left: seq<Library>)
    requires DifferentPaths(files)
    ensures StartedOnceStoppedOnce(files, start, log)
    ensures UnloadedOnce(files, log)
    ensures CallsInOrder(log)
    ensures left == [] <==> forall i: nat :: i < |files| && files[i].Loads? ==> HasLastClass(files, i)
  {
    ghost var libs := LoadedFrom(files);
    ghost var at := LoadedMeaning(files);
    PathsAreDistinct(files, libs, at);
    var container := new Container();
    container.LoadPlugins(files);
    ghost var starts := container.StartPlugins(start);
    ghost var loaded := container.loadedPlugins;
    ghost var unloads := container.UnloadPlugins();
    log, left := container.log, container.loader;
    LifeLog(libs, start, left, starts, loaded, unloads, log);
    LifeOverFiles(files, libs, at, start, log);
    AllOwnIsAllLast(files, libs, at);
  }
}
