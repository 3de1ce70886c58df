/** PluginRegistry of src/core/plugin_registry.cpp: which factory each plugin type gets, and from which library. */
module Registry {
  import opened Options
  import opened Config
  import opened Acquisition
  import St = Startup

  datatype Category = Drivers | Processors | Publishers | Sources

  function CategoryName(c: Category): string {
    match c
    case Drivers => "driver"
    case Processors => "processor"
    case Publishers => "event_publisher"
    case Sources => "device_control_source"
  }

  function SourceKey(c: Category, kind: string): string {
    CategoryName(c) + ":" + kind
  }

  /** Different categories or types never share a key. */
  lemma {:induction false} SourceKeyInjective(c: Category, kind: string, d: Category, other: string)
    requires SourceKey(c, kind) == SourceKey(d, other)
    ensures c == d && kind == other
  {
    var k, l := SourceKey(c, kind), SourceKey(d, other);
    assert k[0] == CategoryName(c)[0] && l[0] == CategoryName(d)[0];
    assert k[1] == CategoryName(c)[1] && l[1] == CategoryName(d)[1];
    assert kind == k[|CategoryName(c)| + 1..] && other == l[|CategoryName(d)| + 1..];
  }

  /** A plugin the configuration asks for. */
  datatype Want = Want(category: Category, id: string, spec: Spec)

  function Key(w: Want): string {
    SourceKey(w.category, w.spec.kind)
  }

  /** Where a factory came from. */
  datatype Factory = BuiltIn | FromLibrary(library: string)

  /** What the operating system says about a library file. */
  datatype Library = Library(opens: bool, exportsBoth: bool)

  datatype LoadError =
    | CalledTwice | NotRegistered | SeveralLibraries | DuplicateType
    | NotAFilename | LibraryTaken | CannotOpen | NoSymbol | EmptyType

  function LastIndexOf(s: string, c: char): (i: int)
    ensures -1 <= i < |s|
    ensures 0 <= i ==> s[i] == c
    ensures forall k | i < k < |s| :: s[k] != c
  {
    if s == [] then -1 else if s[|s| - 1] == c then |s| - 1 else LastIndexOf(s[..|s| - 1], c)
  }

  /** A complete filename with a suffix, on a POSIX system. */
  predicate ValidFilename(path: string) {
    var name := path[LastIndexOf(path, '/') + 1..];
    name != "" && name != ".." && 0 < LastIndexOf(name, '.')
  }

  datatype Made = Made(id: string, spec: Spec, factory: Factory)
  datatype Instances = Instances(drivers: seq<Made>, processors: seq<Made>, publishers: seq<Made>, sources: seq<Made>)

  // ----- what the configuration wants, in its own order -----

  function DriverWants(devices: seq<Device>): seq<Want> {
    seq(|devices|, i requires 0 <= i < |devices| => Want(Drivers, devices[i].id, devices[i].driver))
  }

  function PluginWants(category: Category, plugins: seq<Plugin>): seq<Want> {
    var on := St.Enabled(plugins);
    seq(|on|, i requires 0 <= i < |on| => Want(category, on[i].id, on[i].spec))
  }

  function Wants(c: Application): seq<Want> {
    DriverWants(c.devices) + PluginWants(Processors, c.processors)
    + PluginWants(Publishers, c.publishers) + PluginWants(Sources, c.sources)
  }

  // ----- the maps -----

  ghost predicate Inverse(sources: map<string, string>, owners: map<string, string>) {
    && (forall k | k in sources :: sources[k] in owners && owners[sources[k]] == k)
    && (forall p | p in owners :: owners[p] in sources && sources[owners[p]] == p)
  }

  ghost predicate OpenedOnce(loaded: seq<string>, owners: map<string, string>) {
    && (forall i, j | 0 <= i < j < |loaded| :: loaded[i] != loaded[j])
    && (forall p :: p in loaded <==> p in owners)
  }

  /** Assigning a new library to a new key keeps the maps inverse and the library list in step. */
  lemma {:induction false} Assigned(sources: map<string, string>, owners: map<string, string>, key: string,
                                    library: string, loaded: seq<string>)
    requires Inverse(sources, owners) && OpenedOnce(loaded, owners) && key !in sources
    requires library in owners ==> owners[library] == key
    ensures library !in owners && library !in loaded
    ensures Inverse(sources[key := library], owners[library := key])
    ensures OpenedOnce(loaded + [library], owners[library := key])
  {}

  /** The maps after a library was claimed and then could not be used: it is the only one without a source. */
  ghost predicate Dangling(sources: map<string, string>, owners: map<string, string>, loaded: seq<string>,
                           path: string) {
    && path in owners && owners[path] !in sources
    && Inverse(sources, owners - {path})
    && (OpenedOnce(loaded, owners) || OpenedOnce(loaded, owners - {path}))
  }

  lemma {:induction false} Claimed(sources: map<string, string>, owners: map<string, string>, key: string, path: string,
                                   loaded: seq<string>)
    requires Inverse(sources, owners) && OpenedOnce(loaded, owners) && key !in sources && path !in owners
    ensures Dangling(sources, owners[path := key], loaded, path)
    ensures Dangling(sources, owners[path := key], loaded + [path], path)
  {
    assert owners[path := key] - {path} == owners;
  }

  // ----- when a whole configuration can be loaded -----

  predicate Named(w: Want) {
    w.spec.library != ""
  }

  predicate SameType(v: Want, w: Want) {
    v.category == w.category && v.spec.kind == w.spec.kind
  }

  function LibraryAt(libraries: map<string, Library>, path: string): Library {
    if path in libraries then libraries[path] else Library(false, false)
  }

  /** One of the first i plugins names a library for the same type. */
  ghost predicate TypeNamedBefore(wants: seq<Want>, i: nat, w: Want)
    requires i <= |wants|
  {
    exists j :: 0 <= j < i && Named(wants[j]) && SameType(wants[j], w)
  }

  ghost predicate LibraryNamedBefore(wants: seq<Want>, i: nat, path: string)
    requires i <= |wants|
  {
    exists j :: 0 <= j < i && Named(wants[j]) && wants[j].spec.library == path
  }

  ghost predicate BuiltInHas(builtIn: map<(Category, string), Factory>, w: Want) {
    (w.category, w.spec.kind) in builtIn
  }

  /** The i-th plugin can be loaded after the ones before it. Without a library its type must be built in or named
      before. With one, the type must not be built in, the file must be usable, and type and library must go together
      as they did before. */
  ghost predicate Suits(wants: seq<Want>, i: nat, builtIn: map<(Category, string), Factory>,
                        libraries: map<string, Library>)
    requires i < |wants|
  {
    var w := wants[i];
    if !Named(w) then BuiltInHas(builtIn, w) || TypeNamedBefore(wants, i, w)
    else
      && !BuiltInHas(builtIn, w) && w.spec.kind != "" && ValidFilename(w.spec.library)
      && LibraryAt(libraries, w.spec.library) == Library(true, true)
      && forall j | 0 <= j < i && Named(wants[j]) :: SameType(wants[j], w) <==> wants[j].spec.library == w.spec.library
  }

  ghost predicate AllSuit(wants: seq<Want>, n: nat, builtIn: map<(Category, string), Factory>,
                          libraries: map<string, Library>)
    requires n <= |wants|
  {
    forall i | 0 <= i < n :: Suits(wants, i, builtIn, libraries)
  }

  /** Why the i-th plugin, the first that cannot be loaded, is refused. */
  ghost predicate RefusedAt(wants: seq<Want>, i: nat, builtIn: map<(Category, string), Factory>,
                            libraries: map<string, Library>, e: LoadError)
    requires i < |wants|
  {
    var w := wants[i];
    var path := w.spec.library;
    var isNew := Named(w) && !TypeNamedBefore(wants, i, w) && !BuiltInHas(builtIn, w);
    var usable := isNew && !LibraryNamedBefore(wants, i, path) && ValidFilename(path);
    match e
    case CalledTwice => false
    case NotRegistered => !Named(w) && !TypeNamedBefore(wants, i, w) && !BuiltInHas(builtIn, w)
    case SeveralLibraries =>
      Named(w) && exists j :: 0 <= j < i && Named(wants[j]) && SameType(wants[j], w) && wants[j].spec.library != path
    case DuplicateType => Named(w) && !TypeNamedBefore(wants, i, w) && BuiltInHas(builtIn, w)
    case LibraryTaken => isNew && LibraryNamedBefore(wants, i, path)
    case NotAFilename => isNew && !LibraryNamedBefore(wants, i, path) && !ValidFilename(path)
    case CannotOpen => usable && !LibraryAt(libraries, path).opens
    case NoSymbol => usable && LibraryAt(libraries, path).opens && !LibraryAt(libraries, path).exportsBoth
    case EmptyType => usable && LibraryAt(libraries, path) == Library(true, true) && w.spec.kind == ""
  }

  lemma {:induction false} Consistent(wants: seq<Want>, n: nat, builtIn: map<(Category, string), Factory>,
                                      libraries: map<string, Library>, j: nat, k: nat)
    requires n <= |wants| && AllSuit(wants, n, builtIn, libraries)
    requires j < n && k < n && Named(wants[j]) && Named(wants[k])
    ensures SameType(wants[j], wants[k]) <==> wants[j].spec.library == wants[k].spec.library
  {
    if j < k {
      assert Suits(wants, k, builtIn, libraries);
      GoesWith(wants, j, k, builtIn, libraries);
    } else if k < j {
      assert Suits(wants, j, builtIn, libraries);
      GoesWith(wants, k, j, builtIn, libraries);
    }
  }

  lemma {:induction false} GoesWith(wants: seq<Want>, j: nat, k: nat, builtIn: map<(Category, string), Factory>,
                                    libraries: map<string, Library>)
    requires j < k < |wants| && Suits(wants, k, builtIn, libraries) && Named(wants[j]) && Named(wants[k])
    ensures SameType(wants[j], wants[k]) <==> wants[j].spec.library == wants[k].spec.library
  {}

  /** A type named before must keep its library. */
  lemma {:induction false} SuitsAgain(wants: seq<Want>, n: nat, builtIn: map<(Category, string), Factory>,
                                      libraries: map<string, Library>, j: nat)
    requires n < |wants| && AllSuit(wants, n, builtIn, libraries) && Named(wants[n])
    requires j < n && Named(wants[j]) && SameType(wants[j], wants[n])
    ensures Suits(wants, n, builtIn, libraries) <==> wants[j].spec.library == wants[n].spec.library
  {
    assert Suits(wants, j, builtIn, libraries);
    forall k | 0 <= k < n && Named(wants[k])
      ensures SameType(wants[k], wants[n]) <==> wants[k].spec.library == wants[j].spec.library
    {
      Consistent(wants, n, builtIn, libraries, j, k);
    }
  }

  /** Loading these plugins fails with that error. */
  ghost predicate StopsIn(wants: seq<Want>, builtIn: map<(Category, string), Factory>, libraries: map<string, Library>,
                          e: LoadError)
  {
    exists i :: 0 <= i < |wants| && AllSuit(wants, i, builtIn, libraries) && !Suits(wants, i, builtIn, libraries)
                && RefusedAt(wants, i, builtIn, libraries, e)
  }

  /** The types with a factory once the first n plugins have been loaded on top of the built-in factories. */
  ghost predicate FactoriesAre(builtIn: map<(Category, string), Factory>, wants: seq<Want>, n: nat,
                               factories: map<(Category, string), Factory>)
    requires n <= |wants|
  {
    forall w: Want ::
      (w.category, w.spec.kind) in factories <==> BuiltInHas(builtIn, w) || TypeNamedBefore(wants, n, w)
  }

  /** And the library of each type that has one. */
  ghost predicate SourcesAre(wants: seq<Want>, n: nat, sources: map<string, string>)
    requires n <= |wants|
  {
    && (forall j | 0 <= j < n && Named(wants[j]) ::
          Key(wants[j]) in sources && sources[Key(wants[j])] == wants[j].spec.library)
    && (forall key | key in sources :: exists j :: 0 <= j < n && Named(wants[j]) && Key(wants[j]) == key)
  }

  lemma {:induction false} NamedNext(wants: seq<Want>, n: nat, w: Want)
    requires n < |wants|
    ensures TypeNamedBefore(wants, n + 1, w)
        <==> TypeNamedBefore(wants, n, w) || (Named(wants[n]) && SameType(wants[n], w))
  {}

  lemma {:induction false} FactoriesNew(builtIn: map<(Category, string), Factory>, wants: seq<Want>, n: nat,
                                        factories: map<(Category, string), Factory>, f: Factory)
    requires n < |wants| && FactoriesAre(builtIn, wants, n, factories) && Named(wants[n])
    ensures FactoriesAre(builtIn, wants, n + 1, factories[(wants[n].category, wants[n].spec.kind) := f])
  {
    forall w: Want
      ensures TypeNamedBefore(wants, n + 1, w) <==> TypeNamedBefore(wants, n, w) || SameType(wants[n], w)
    {
      NamedNext(wants, n, w);
    }
  }

  lemma {:induction false} FactoriesAgain(builtIn: map<(Category, string), Factory>, wants: seq<Want>, n: nat,
                                          factories: map<(Category, string), Factory>)
    requires n < |wants| && FactoriesAre(builtIn, wants, n, factories)
    requires (wants[n].category, wants[n].spec.kind) in factories
    ensures FactoriesAre(builtIn, wants, n + 1, factories)
  {
    forall w: Want
      ensures (w.category, w.spec.kind) in factories
          <==> BuiltInHas(builtIn, w) || TypeNamedBefore(wants, n + 1, w)
    {
      NamedNext(wants, n, w);
    }
  }

  lemma {:induction false} SourcesNew(wants: seq<Want>, n: nat, sources: map<string, string>)
    requires n < |wants| && SourcesAre(wants, n, sources) && Named(wants[n]) && Key(wants[n]) !in sources
    ensures SourcesAre(wants, n + 1, sources[Key(wants[n]) := wants[n].spec.library])
  {
    var k := Key(wants[n]);
    var more := sources[k := wants[n].spec.library];
    forall j | 0 <= j < n + 1 && Named(wants[j])
      ensures Key(wants[j]) in more && more[Key(wants[j])] == wants[j].spec.library
    {
      assert j < n ==> Key(wants[j]) in sources;
    }
    forall key | key in more
      ensures exists j :: 0 <= j < n + 1 && Named(wants[j]) && Key(wants[j]) == key
    {
      if key == k {
        assert Named(wants[n]) && Key(wants[n]) == key;
      } else {
        var j :| 0 <= j < n && Named(wants[j]) && Key(wants[j]) == key;
      }
    }
  }

  lemma {:induction false} SourcesAgain(wants: seq<Want>, n: nat, sources: map<string, string>)
    requires n < |wants| && SourcesAre(wants, n, sources)
    requires Named(wants[n]) ==> Key(wants[n]) in sources && sources[Key(wants[n])] == wants[n].spec.library
    ensures SourcesAre(wants, n + 1, sources)
  {}

  class PluginRegistry {
    /** The four factory maps, under category and type. */
    var factories: map<(Category, string), Factory>
    var sources: map<string, string>  // key to library
    var owners: map<string, string>   // library to key
    var loaded: seq<string>
    var called: bool

    ghost predicate Valid() reads this {
      && Inverse(sources, owners) && OpenedOnce(loaded, owners)
      && (forall c, kind :: SourceKey(c, kind) in sources ==>
            (c, kind) in factories && factories[(c, kind)] == FromLibrary(sources[SourceKey(c, kind)]))
      && (!called ==> sources == map[] && owners == map[] && loaded == [])
    }

    constructor ()
      ensures Valid() && !called && factories == map[] && loaded == []
    {
      factories, sources, owners, loaded, called := map[], map[], map[], [], false;
    }

    /** register_factory; an empty type, an empty factory and a type registered before throw. */
    method Register(category: Category, kind: string, callable: bool) returns (ok: bool)
      requires Valid()
      modifies this`factories
      ensures ok <==> kind != "" && callable && (category, kind) !in old(factories)
      ensures factories == if ok then old(factories)[(category, kind) := BuiltIn] else old(factories)
      ensures Valid()
    {
      ok := kind != "" && callable && (category, kind) !in factories;
      if ok {
        factories := factories[(category, kind) := BuiltIn];
      }
    }

    method FindOrOpen(path: string, library: Library) returns (error: Option<LoadError>)
      modifies this`loaded
      ensures error.None? ==> loaded == (if path in old(loaded) then old(loaded) else old(loaded) + [path])
      ensures error.Some? ==> loaded == old(loaded)
      ensures error.None? <==> ValidFilename(path) && (path in old(loaded) || library.opens)
      ensures error.Some? ==> error.value == if ValidFilename(path) then CannotOpen else NotAFilename
    {
      if !ValidFilename(path) {
        return Some(NotAFilename);
      }
      var i := 0;
      while i < |loaded|
        invariant 0 <= i <= |loaded| && path !in loaded[..i]
      {
        if loaded[i] == path {
          return None;
        }
        i := i + 1;
      }
      assert loaded[..|loaded|] == loaded;
      if !library.opens {
        return Some(CannotOpen);
      }
      loaded := loaded + [path];
      error := None;
    }

    /** The library is in use by no other type. */
    ghost predicate Free(w: Want) reads this`owners {
      w.spec.library !in owners || owners[w.spec.library] == Key(w)
    }

    ghost predicate Opens(w: Want, library: Library) reads this`loaded {
      w.spec.library in loaded || library.opens
    }

    /** The type is new and comes from a library. */
    ghost predicate Fresh(w: Want) reads this`sources, this`factories {
      Named(w) && Key(w) !in sources && !Has(w)
    }

    ghost predicate Loadable(w: Want, library: Library) reads this {
      if !Named(w) then Has(w)
      else if Key(w) in sources then sources[Key(w)] == w.spec.library
      else !Has(w) && Free(w) && ValidFilename(w.spec.library) && Opens(w, library) && library.exportsBoth
           && w.spec.kind != ""
    }

    /** Why a plugin is refused. */
    ghost predicate Refused(w: Want, library: Library, e: LoadError) reads this {
      var usable := Fresh(w) && Free(w) && ValidFilename(w.spec.library);
      match e
      case CalledTwice => false
      case NotRegistered => !Named(w) && !Has(w)
      case SeveralLibraries => Named(w) && Key(w) in sources && sources[Key(w)] != w.spec.library
      case DuplicateType => Named(w) && Key(w) !in sources && Has(w)
      case LibraryTaken => Fresh(w) && !Free(w)
      case NotAFilename => Fresh(w) && Free(w) && !ValidFilename(w.spec.library)
      case CannotOpen => usable && !Opens(w, library)
      case NoSymbol => usable && Opens(w, library) && !library.exportsBoth
      case EmptyType => usable && Opens(w, library) && library.exportsBoth && w.spec.kind == ""
    }

    /** Claims a library that is not in use yet, opens it and registers its factory. */
    method LoadNew(w: Want, library: Library) returns (error: Option<LoadError>)
      requires Valid() && called && Fresh(w)
      modifies this`factories, this`sources, this`owners, this`loaded
      ensures error.None? <==> old(Loadable(w, library))
      ensures error.Some? ==> old(Refused(w, library, error.value))
      ensures error.None? ==> factories == old(factories)[(w.category, w.spec.kind) := FromLibrary(w.spec.library)]
      ensures error.None? ==> sources == old(sources)[Key(w) := w.spec.library]
      ensures error.None? ==> Inverse(sources, owners) && OpenedOnce(loaded, owners)
      ensures error.Some? ==> factories == old(factories) && sources == old(sources) && (Valid() || Broken(w))
    {
      var key, path := Key(w), w.spec.library;
      if path in owners && owners[path] != key {
        return Some(LibraryTaken);
      }
      Assigned(sources, owners, key, path, loaded);
      Claimed(sources, owners, key, path, loaded);
      owners := owners[path := key];
      error := FindOrOpen(path, library);
      if error.Some? {
        return;
      }
      if !library.exportsBoth {
        return Some(NoSymbol);
      }
      if w.spec.kind == "" {
        return Some(EmptyType);
      }
      factories := factories[(w.category, w.spec.kind) := FromLibrary(path)];
      sources := sources[key := path];
    }

    /** load_driver and its three siblings. */
    method LoadOne(w: Want, library: Library) returns (error: Option<LoadError>)
      requires Valid() && called
      modifies this`factories, this`sources, this`owners, this`loaded
      ensures error.None? <==> old(Loadable(w, library))
      ensures error.Some? ==> old(Refused(w, library, error.value))
      ensures error.None? ==> Valid() && Provides(w)
      ensures error.None? && old(Fresh(w)) ==>
                && factories == old(factories)[(w.category, w.spec.kind) := FromLibrary(w.spec.library)]
                && sources == old(sources)[Key(w) := w.spec.library]
      ensures error.None? && !old(Fresh(w)) ==> factories == old(factories) && sources == old(sources)
      ensures error.Some? ==> Valid() || Broken(w)
      ensures Grown(old(factories)) && Kept(old(sources))
    {
      var key, kind := Key(w), (w.category, w.spec.kind);
      if w.spec.library == "" {
        return if kind in factories then None else Some(NotRegistered);
      }
      if key in sources {
        return if sources[key] == w.spec.library then None else Some(SeveralLibraries);
      }
      if kind in factories {
        return Some(DuplicateType);
      }
      error := LoadNew(w, library);
      KeysApart(w.category, w.spec.kind);
    }

    /** Loading stopped at this plugin: its library is claimed, and whatever came before it is intact. */
    ghost predicate Broken(w: Want) reads this {
      && Dangling(sources, owners, loaded, w.spec.library)
      && (forall c, kind :: SourceKey(c, kind) in sources ==>
            (c, kind) in factories && factories[(c, kind)] == FromLibrary(sources[SourceKey(c, kind)]))
    }

    ghost predicate BrokenIn(wants: seq<Want>) reads this {
      exists w :: w in wants && Broken(w)
    }

    ghost predicate Has(w: Want) reads this`factories {
      (w.category, w.spec.kind) in factories
    }

    /** Nothing registered before was lost or replaced. */
    ghost predicate Grown(was: map<(Category, string), Factory>) reads this {
      forall k | k in was :: k in factories && factories[k] == was[k]
    }

    /** There is a factory for what is wanted, from the library that is wanted, if one is. */
    ghost predicate Provides(w: Want) reads this`factories, this`sources {
      && Has(w)
      && (w.spec.library != "" ==> Key(w) in sources && sources[Key(w)] == w.spec.library)
    }

    /** The registry after the first n plugins have been loaded on top of the built-in factories. */
    ghost predicate LoadedFrom(builtIn: map<(Category, string), Factory>, wants: seq<Want>, n: nat)
      requires n <= |wants|
      reads this
    {
      Valid() && FactoriesAre(builtIn, wants, n, factories) && SourcesAre(wants, n, sources)
    }

    lemma {:induction false} LibrariesOf(wants: seq<Want>, n: nat, path: string)
      requires n <= |wants| && Valid() && SourcesAre(wants, n, sources)
      ensures path in owners <==> LibraryNamedBefore(wants, n, path)
    {
      if path in owners {
        var j :| 0 <= j < n && Named(wants[j]) && Key(wants[j]) == owners[path];
        assert wants[j].spec.library == path;
      }
    }

    lemma {:induction false} KeysOf(wants: seq<Want>, n: nat, w: Want)
      requires n <= |wants| && SourcesAre(wants, n, sources)
      ensures Key(w) in sources <==> TypeNamedBefore(wants, n, w)
    {
      if Key(w) in sources {
        var j :| 0 <= j < n && Named(wants[j]) && Key(wants[j]) == Key(w);
        SourceKeyInjective(wants[j].category, wants[j].spec.kind, w.category, w.spec.kind);
      }
    }

    /** Whether the next plugin can be loaded is settled by the configuration alone. */
    lemma {:induction false} NextSuits(builtIn: map<(Category, string), Factory>, wants: seq<Want>, n: nat,
                                       libraries: map<string, Library>)
      requires n < |wants| && LoadedFrom(builtIn, wants, n) && AllSuit(wants, n, builtIn, libraries)
      ensures Loadable(wants[n], LibraryAt(libraries, wants[n].spec.library)) <==> Suits(wants, n, builtIn, libraries)
    {
      var w := wants[n];
      KeysOf(wants, n, w);
      if Named(w) && Key(w) in sources {
        var j :| 0 <= j < n && Named(wants[j]) && SameType(wants[j], w);
        SuitsAgain(wants, n, builtIn, libraries, j);
      } else if Named(w) {
        LibrariesOf(wants, n, w.spec.library);
      }
    }

    lemma {:induction false} NextRefused(builtIn: map<(Category, string), Factory>, wants: seq<Want>, n: nat,
                                         libraries: map<string, Library>, e: LoadError)
      requires n < |wants| && LoadedFrom(builtIn, wants, n)
      requires Refused(wants[n], LibraryAt(libraries, wants[n].spec.library), e)
      ensures RefusedAt(wants, n, builtIn, libraries, e)
    {
      LibrariesOf(wants, n, wants[n].spec.library);
      KeysOf(wants, n, wants[n]);
    }

    lemma {:induction false} AnyRefused(builtIn: map<(Category, string), Factory>, wants: seq<Want>, n: nat,
                                        libraries: map<string, Library>)
      requires n < |wants| && LoadedFrom(builtIn, wants, n)
      ensures forall e | Refused(wants[n], LibraryAt(libraries, wants[n].spec.library), e) ::
                RefusedAt(wants, n, builtIn, libraries, e)
    {
      forall e | Refused(wants[n], LibraryAt(libraries, wants[n].spec.library), e)
        ensures RefusedAt(wants, n, builtIn, libraries, e)
      {
        NextRefused(builtIn, wants, n, libraries, e);
      }
    }

    /** After the next plugin has been loaded. */
    lemma {:induction false} LoadedNext(builtIn: map<(Category, string), Factory>, wants: seq<Want>, n: nat,
                                        f: map<(Category, string), Factory>, was: map<string, string>, isNew: bool)
      requires n < |wants| && FactoriesAre(builtIn, wants, n, f) && SourcesAre(wants, n, was)
      requires Valid() && Provides(wants[n])
      requires isNew ==> Named(wants[n]) && Key(wants[n]) !in was
      requires isNew ==> sources == was[Key(wants[n]) := wants[n].spec.library]
      requires isNew ==>
                 factories == f[(wants[n].category, wants[n].spec.kind) := FromLibrary(wants[n].spec.library)]
      requires !isNew ==> factories == f && sources == was
      ensures LoadedFrom(builtIn, wants, n + 1)
    {
      if isNew {
        FactoriesNew(builtIn, wants, n, f, FromLibrary(wants[n].spec.library));
        SourcesNew(wants, n, was);
      } else {
        FactoriesAgain(builtIn, wants, n, f);
        SourcesAgain(wants, n, was);
      }
    }

    /** The first n plugins have been loaded, which only happens when they all suit. */
    ghost predicate Progress(all: seq<Want>, n: nat, builtIn: map<(Category, string), Factory>,
                             libraries: map<string, Library>)
      requires n <= |all|
      reads this
    {
      called && LoadedFrom(builtIn, all, n) && AllSuit(all, n, builtIn, libraries)
    }

    /** Then each of them has its factory, from its library if it names one. */
    lemma {:induction false} AllProvided(all: seq<Want>, builtIn: map<(Category, string), Factory>,
                                         libraries: map<string, Library>)
      requires Progress(all, |all|, builtIn, libraries)
      ensures ProvidesAll(all)
    {
      forall k | 0 <= k < |all|
        ensures Provides(all[k])
      {
        assert Suits(all, k, builtIn, libraries);
        assert TypeNamedBefore(all, k, all[k]) ==> TypeNamedBefore(all, |all|, all[k]);
      }
    }

    /** One turn of a loop of load_dynamic_plugins. */
    method LoadNext(w: Want, library: Library, ghost all: seq<Want>, ghost n: nat,
                    ghost builtIn: map<(Category, string), Factory>, ghost libraries: map<string, Library>)
      returns (error: Option<LoadError>)
      requires n < |all| && w == all[n] && library == LibraryAt(libraries, w.spec.library)
      requires Progress(all, n, builtIn, libraries)
      modifies this`factories, this`sources, this`owners, this`loaded
      ensures error.None? ==> Progress(all, n + 1, builtIn, libraries)
      ensures error.Some? ==> StopsIn(all, builtIn, libraries, error.value) && (Valid() || BrokenIn(all))
      ensures Grown(old(factories)) && Kept(old(sources))
    {
      ghost var f, was, isNew := factories, sources, Fresh(w);
      NextSuits(builtIn, all, n, libraries);
      AnyRefused(builtIn, all, n, libraries);
      error := LoadOne(w, library);
      if error.None? {
        LoadedNext(builtIn, all, n, f, was, isNew);
      } else {
        assert w in all;
      }
    }

    /** One loop of load_dynamic_plugins: the plugins from the n-th on, after the first n. */
    method LoadAll(wants: seq<Want>, libraries: map<string, Library>, ghost all: seq<Want>, ghost n: nat,
                   ghost builtIn: map<(Category, string), Factory>)
      returns (error: Option<LoadError>)
      requires n + |wants| <= |all| && wants == all[n..n + |wants|] && Progress(all, n, builtIn, libraries)
      modifies this`factories, this`sources, this`owners, this`loaded
      ensures error.None? ==> Progress(all, n + |wants|, builtIn, libraries)
      ensures error.Some? ==> StopsIn(all, builtIn, libraries, error.value) && (Valid() || BrokenIn(all))
      ensures Grown(old(factories)) && Kept(old(sources))
    {
      var i := 0;
      ghost var k := n;
      while i < |wants|
        invariant 0 <= i <= |wants| && k == n + i && Grown(old(factories)) && Kept(old(sources))
        invariant Progress(all, k, builtIn, libraries)
      {
        error := LoadNext(wants[i], LibraryAt(libraries, wants[i].spec.library), all, k, builtIn, libraries);
        if error.Some? {
          return;
        }
        i, k := i + 1, k + 1;
      }
      error := None;
    }

    /** load_dynamic_plugins: once per registry, in the order of the configuration. It succeeds exactly when every
        plugin suits; otherwise the first that does not decides the error. */
    method LoadDynamicPlugins(c: Application, libraries: map<string, Library>) returns (error: Option<LoadError>)
      requires Valid()
      modifies this
      ensures called && (old(called) ==> error == Some(CalledTwice) && factories == old(factories))
      ensures error.None? <==> !old(called) && AllSuit(Wants(c), |Wants(c)|, old(factories), libraries)
      ensures error.Some? && !old(called) ==> StopsIn(Wants(c), old(factories), libraries, error.value)
      ensures error.None? ==> Valid() && ProvidesAll(Wants(c))
      ensures error.Some? ==> Valid() || BrokenIn(Wants(c))
      ensures Grown(old(factories)) && Kept(old(sources))
    {
      if called {
        return Some(CalledTwice);
      }
      called := true;
      FlatFour(DriverWants(c.devices), PluginWants(Processors, c.processors),
               PluginWants(Publishers, c.publishers), PluginWants(Sources, c.sources));
      error := LoadPlugins([DriverWants(c.devices), PluginWants(Processors, c.processors),
                            PluginWants(Publishers, c.publishers), PluginWants(Sources, c.sources)], libraries);
    }

    /** The four loops, one after the other. */
    method LoadPlugins(lists: seq<seq<Want>>, libraries: map<string, Library>) returns (error: Option<LoadError>)
      requires Valid() && called && sources == map[]
      modifies this`factories, this`sources, this`owners, this`loaded
      ensures error.None? ==> Valid() && ProvidesAll(Flat(lists))
      ensures error.None? ==> AllSuit(Flat(lists), |Flat(lists)|, old(factories), libraries)
      ensures error.Some? ==> StopsIn(Flat(lists), old(factories), libraries, error.value)
      ensures error.Some? ==> Valid() || BrokenIn(Flat(lists))
      ensures Grown(old(factories)) && Kept(old(sources))
    {
      ghost var all, builtIn, n := Flat(lists), factories, 0;
      NoneLoaded(all, libraries);
      var k := 0;
      while k < |lists|
        invariant 0 <= k <= |lists| && n == |Flat(lists[..k])| <= |all|
        invariant Progress(all, n, builtIn, libraries) && Grown(builtIn) && Kept(old(sources))
      {
        FlatSlice(lists, k);
        error := LoadAll(lists[k], libraries, all, n, builtIn);
        if error.Some? {
          return;
        }
        n, k := n + |lists[k]|, k + 1;
      }
      assert lists[..k] == lists;
      AllProvided(all, builtIn, libraries);
      error := None;
    }

    lemma {:induction false} NoneLoaded(all: seq<Want>, libraries: map<string, Library>)
      requires Valid() && called && sources == map[]
      ensures Progress(all, 0, factories, libraries)
    {}

    method FindFactory(category: Category, kind: string) returns (r: Option<Factory>)
      ensures r.Some? <==> (category, kind) in factories
      ensures r.Some? ==> r.value == factories[(category, kind)]
    {
      r := if (category, kind) in factories then Some(factories[(category, kind)]) else None;
    }

    /** One loop of create: an instance for each plugin, in order. `fails` are the ones whose factory throws or
        returns null. */
    method CreateAll(wants: seq<Want>, fails: set<Want>) returns (r: Result<seq<Made>>)
      ensures r.Ok? ==> MadeFor(wants, r.value)
      ensures r.Err? ==> exists i :: 0 <= i < |wants| && (!Has(wants[i]) || wants[i] in fails)
      ensures ProvidesAll(wants) && (forall i | 0 <= i < |wants| :: wants[i] !in fails) ==> r.Ok?
      ensures ProvidesAll(wants) ==> r != Err(Unknown)
    {
      var made: seq<Made> := [];
      while |made| < |wants|
        invariant |made| <= |wants| && MadeFor(wants[..|made|], made)
        decreases |wants| - |made|
      {
        var w := wants[|made|];
        var factory := FindFactory(w.category, w.spec.kind);
        if factory.None? {
          return Err(Unknown);
        }
        if w in fails {
          return Err(Missing);
        }
        made := made + [Made(w.id, w.spec, factory.value)];
      }
      assert wants[..|made|] == wants;
      r := Ok(made);
    }

    ghost predicate MadeFor(wants: seq<Want>, made: seq<Made>) reads this {
      && |made| == |wants|
      && forall i | 0 <= i < |made| ::
           && made[i].id == wants[i].id && made[i].spec == wants[i].spec
           && Has(wants[i]) && made[i].factory == factories[(wants[i].category, wants[i].spec.kind)]
    }

    ghost predicate ProvidesAll(wants: seq<Want>) reads this {
      forall i | 0 <= i < |wants| :: Provides(wants[i])
    }

    ghost predicate Kept(was: map<string, string>) reads this {
      forall k | k in was :: k in sources && sources[k] == was[k]
    }

    /** create: one driver per device and one instance per enabled plugin, each in the order of the
        configuration. With every plugin provided for, as after loading, no type is ever unknown. */
    method Create(c: Application, fails: set<Want>) returns (r: Result<Instances>)
      ensures r.Ok? ==> MadeFor(DriverWants(c.devices), r.value.drivers)
      ensures r.Ok? ==> MadeFor(PluginWants(Processors, c.processors), r.value.processors)
      ensures r.Ok? ==> MadeFor(PluginWants(Publishers, c.publishers), r.value.publishers)
      ensures r.Ok? ==> MadeFor(PluginWants(Sources, c.sources), r.value.sources)
      ensures ProvidesAll(Wants(c)) ==> r != Err(Unknown)
      ensures ProvidesAll(Wants(c)) && fails == {} ==> r.Ok?
    {
      ghost var all := Wants(c);
      ProvidesParts(DriverWants(c.devices), PluginWants(Processors, c.processors),
                    PluginWants(Publishers, c.publishers), PluginWants(Sources, c.sources));
      var drivers := CreateAll(DriverWants(c.devices), fails);
      if drivers.Err? {
        return Err(drivers.error);
      }
      var processors := CreateAll(PluginWants(Processors, c.processors), fails);
      if processors.Err? {
        return Err(processors.error);
      }
      var publishers := CreateAll(PluginWants(Publishers, c.publishers), fails);
      if publishers.Err? {
        return Err(publishers.error);
      }
      var sources := CreateAll(PluginWants(Sources, c.sources), fails);
      if sources.Err? {
        return Err(sources.error);
      }
      r := Ok(Instances(drivers.value, processors.value, publishers.value, sources.value));
    }

    lemma ProvidesParts(a: seq<Want>, b: seq<Want>, c: seq<Want>, d: seq<Want>)
      ensures ProvidesAll(a + b + c + d) <==> ProvidesAll(a) && ProvidesAll(b) && ProvidesAll(c) && ProvidesAll(d)
    {
      var all := a + b + c + d;
      assert forall i | 0 <= i < |a| :: all[i] == a[i];
      assert forall i | 0 <= i < |b| :: all[|a| + i] == b[i];
      assert forall i | 0 <= i < |c| :: all[|a| + |b| + i] == c[i];
      assert forall i | 0 <= i < |d| :: all[|a| + |b| + |c| + i] == d[i];
    }
  }

  lemma {:induction false} KeysApart(c: Category, kind: string)
    ensures forall d, other :: SourceKey(d, other) == SourceKey(c, kind) ==> d == c && other == kind
  {
    forall d, other | SourceKey(d, other) == SourceKey(c, kind)
      ensures d == c && other == kind
    {
      SourceKeyInjective(d, other, c, kind);
    }
  }

  ghost function Flat(lists: seq<seq<Want>>): seq<Want> {
    if lists == [] then [] else Flat(lists[..|lists| - 1]) + lists[|lists| - 1]
  }

  lemma {:induction false} FlatPrefix(lists: seq<seq<Want>>, k: nat)
    requires k <= |lists|
    ensures Flat(lists[..k]) <= Flat(lists)
  {
    if k < |lists| {
      var most := lists[..|lists| - 1];
      FlatPrefix(most, k);
      assert most[..k] == lists[..k];
    } else {
      assert lists[..k] == lists;
    }
  }

  /** Where the k-th list stands in all of them. */
  lemma {:induction false} FlatSlice(lists: seq<seq<Want>>, k: nat)
    requires k < |lists|
    ensures var n := |Flat(lists[..k])|;
            && n + |lists[k]| == |Flat(lists[..k + 1])| <= |Flat(lists)|
            && Flat(lists)[n..n + |lists[k]|] == lists[k]
  {
    var upTo := lists[..k + 1];
    assert upTo[..|upTo| - 1] == lists[..k];
    FlatPrefix(lists, k + 1);
  }

  lemma {:induction false} FlatFour(a: seq<Want>, b: seq<Want>, c: seq<Want>, d: seq<Want>)
    ensures Flat([a, b, c, d]) == a + b + c + d
  {
    FlatMore([], a);
    FlatMore([a], b);
    FlatMore([a, b], c);
    FlatMore([a, b, c], d);
    assert [] + [a] == [a] && [a] + [b] == [a, b] && [a, b] + [c] == [a, b, c] && [a, b, c] + [d] == [a, b, c, d];
  }

  lemma {:induction false} FlatMore(lists: seq<seq<Want>>, list: seq<Want>)
    ensures Flat(lists + [list]) == Flat(lists) + list
  {
    assert (lists + [list])[..|lists|] == lists;
  }

  // ----- from the registry to the runtime -----

  function AsDrivers(made: seq<Made>, mode: Made -> Mode): seq<St.Driver> {
    seq(|made|, i requires 0 <= i < |made| => St.Driver(made[i].id, true, mode(made[i])))
  }

  function AsPublishers(made: seq<Made>): seq<St.Publisher> {
    seq(|made|, i requires 0 <= i < |made| => St.Publisher(made[i].id, true))
  }

  /** What create returns for a configuration the parser accepted is what the runtime expects: its validation
      can only object to a group polled from a device whose driver pushes. */
  lemma {:induction false} CreatedSuitsRuntime(root: Json, c: Application, r: PluginRegistry, made: Instances,
                                               mode: Made -> Mode)
    requires ConfigIs(root, c)
    requires r.MadeFor(DriverWants(c.devices), made.drivers)
    requires r.MadeFor(PluginWants(Publishers, c.publishers), made.publishers)
    ensures var drivers, publishers := AsDrivers(made.drivers, mode), AsPublishers(made.publishers);
            !St.RuntimeFits(c, drivers, publishers) <==>
            exists i :: 0 <= i < |c.groups| && St.OwnedByPush(c.groups[i], drivers)
  {
    St.AcceptedIsTotal(root, c, AsDrivers(made.drivers, mode), AsPublishers(made.publishers), 0);
  }
}
