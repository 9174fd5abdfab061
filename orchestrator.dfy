/** fetch_runtimes and fetch_all: walk the catalog, keep the versions the age
    filter allows, download each installer, and unpack it into
    <destination>/vcruntime_<version> by the strategy its major version picks. */
module Orchestrator {
  import opened Wrappers
  import opened Paths
  import opened Versions
  import opened Errors
  import opened Os
  import opened Externals
  import opened Downloader
  import opened Extractors

  /** A catalog entry: a dotted version and the URI of its x64 installer. */
  datatype Entry = Entry(version: string, uri: string)

  /** What fetch_runtimes yields: the version and the downloaded installer. */
  datatype Runtime = Runtime(version: string, installer: Path)

  /** How fetch_all leaves one catalog entry. */
  datatype Fate =
    | Excluded                                    // dropped by the age filter
    | AlreadyHave                                 // the output directory was not empty
    | CannotExtract                               // version 10, skipped
    | Unpacked(strategy: Strategy, cabs: seq<Path>)  // the cabinets expanded into the output directory

  /** The catalog the program ships with today; every other entry of its
      table is commented out. */
  const RuntimeDownloads: seq<Entry> := [
    Entry("14.42.34438.0",
          "https://download.visualstudio.microsoft.com/download/pr/285b28c7-3cf9-47fb-9be8-01cf5323a8df/8F9FB1B3CFE6E5092CF1225ECD6659DAB7CE50B8BF935CB79BFEDE1F3C895240/VC_redist.x64.exe")
  ]

  /** <destination>/Downloads, which must exist before a run. */
  function DownloadDirectory(base: string): Path { Child(Root(base), "Downloads") }

  /** <destination>/vcruntime_<version>. */
  function OutputDirectory(base: string, version: string): Path { Child(Root(base), "vcruntime_" + version) }

  /** The cache file name of an installer: version + '_' + basename(uri). */
  function InstallerName(e: Entry): Name { e.version + "_" + LastSegment(e.uri) }

  /** The age filter of fetch_runtimes, evaluated as Python's `and` does:
      the version is parsed only when old versions are not wanted. */
  function Admitted(version: string, includeOld: bool): Result<bool, Error>
  {
    if includeOld then Ok(true)
    else match Major(version)
      case None => Err(BadVersion(version))
      case Some(major) => Ok(major >= OldestCurrentMajor)
  }

  /** The entries the age filter keeps. */
  predicate Selects(e: Entry, includeOld: bool)
  {
    includeOld || (Major(e.version).Some? && Major(e.version).value >= OldestCurrentMajor)
  }

  /** The kept entries of a catalog, in catalog order. */
  function Selected(catalog: seq<Entry>, includeOld: bool): seq<Entry>
  {
    if catalog == [] then []
    else (if Selects(catalog[0], includeOld) then [catalog[0]] else []) + Selected(catalog[1..], includeOld)
  }

  /** What fetch_runtimes yields for the kept entries. */
  function Yields(downloads: Path, entries: seq<Entry>): seq<Runtime>
  {
    if entries == [] then []
    else [Runtime(entries[0].version, Child(downloads, InstallerName(entries[0])))] + Yields(downloads, entries[1..])
  }

  /** One turn of the loop in fetch_runtimes: the filter, then the download;
      Some(runtime) when it yields. */
  function RuntimeFetched(d: Disk, w: World, downloads: Path, includeOld: bool, e: Entry): (o: Outcome<Option<Runtime>>)
    ensures Extends(d, o.disk) && o.disk.dirs == d.dirs && o.disk.temps == d.temps
    ensures o.result.Ok? ==> (o.result.value.Some? <==> Selects(e, includeOld))
    ensures o.result.Ok? && o.result.value.Some? ==>
      && o.result.value.value == Runtime(e.version, Child(downloads, InstallerName(e)))
      && Child(downloads, InstallerName(e)) in o.disk.files
  {
    match Admitted(e.version, includeOld)
    case Err(err) => Outcome(Err(err), d)
    case Ok(keep) =>
      if !keep then Outcome(Ok(None), d)
      else
        var got := Downloaded(d, w, e.uri, Child(downloads, InstallerName(e)));
        if got.result.Err? then Outcome(Err(got.result.error), got.disk)
        else Outcome(Ok(Some(Runtime(e.version, got.result.value))), got.disk)
  }

  /** What one kept or dropped entry adds to what fetch_runtimes yields. */
  lemma YieldsStep(downloads: Path, includeOld: bool, entries: seq<Entry>, yielded: seq<Runtime>)
    requires entries != []
    ensures Selects(entries[0], includeOld) ==>
      yielded + Yields(downloads, Selected(entries, includeOld))
        == (yielded + [Runtime(entries[0].version, Child(downloads, InstallerName(entries[0])))])
           + Yields(downloads, Selected(entries[1..], includeOld))
    ensures !Selects(entries[0], includeOld) ==>
      yielded + Yields(downloads, Selected(entries, includeOld))
        == yielded + Yields(downloads, Selected(entries[1..], includeOld))
  {
    var e := entries[0];
    var rest := Selected(entries[1..], includeOld);
    if Selects(e, includeOld) {
      assert Selected(entries, includeOld) == [e] + rest;
      YieldsCons(downloads, e, rest);
      SeqAssociative(yielded, [Runtime(e.version, Child(downloads, InstallerName(e)))], Yields(downloads, rest));
    } else {
      assert Selected(entries, includeOld) == [] + rest;
      assert [] + rest == rest;
    }
  }

  lemma YieldsCons(downloads: Path, e: Entry, rest: seq<Entry>)
    ensures Yields(downloads, [e] + rest) == [Runtime(e.version, Child(downloads, InstallerName(e)))] + Yields(downloads, rest)
  {
    assert ([e] + rest)[0] == e && ([e] + rest)[1..] == rest;
  }

  lemma SeqAssociative<T>(a: seq<T>, b: seq<T>, c: seq<T>)
    ensures (a + b) + c == a + (b + c)
  {
  }

  /** The rest of fetch_runtimes from `entries` on, with `yielded` so far. */
  function RuntimesFrom(d: Disk, w: World, downloads: Path, includeOld: bool, entries: seq<Entry>, yielded: seq<Runtime>): (o: Outcome<seq<Runtime>>)
    ensures Extends(d, o.disk) && o.disk.dirs == d.dirs && o.disk.temps == d.temps
    ensures o.result.Ok? ==> o.result.value == yielded + Yields(downloads, Selected(entries, includeOld))
    ensures o.result.Ok? ==> forall e :: e in Selected(entries, includeOld) ==> Child(downloads, InstallerName(e)) in o.disk.files
    decreases |entries|
  {
    if entries == [] then Outcome(Ok(yielded), d)
    else
      var o := RuntimeFetched(d, w, downloads, includeOld, entries[0]);
      YieldsStep(downloads, includeOld, entries, yielded);
      match o.result
      case Err(err) => Outcome(Err(err), o.disk)
      case Ok(None) => RuntimesFrom(o.disk, w, downloads, includeOld, entries[1..], yielded)
      case Ok(Some(rt)) => RuntimesFrom(o.disk, w, downloads, includeOld, entries[1..], yielded + [rt])
  }

  /** fetch_runtimes(downloads, include_old_versions) over `catalog`, consumed to the end. */
  function RuntimesFetched(d: Disk, w: World, downloads: Path, includeOld: bool, catalog: seq<Entry>): Outcome<seq<Runtime>>
  {
    RuntimesFrom(d, w, downloads, includeOld, catalog, [])
  }

  method FetchRuntime(fs: FileSystem, w: World, downloads: Path, includeOld: bool, e: Entry) returns (r: Result<Option<Runtime>, Error>)
    modifies fs
    ensures Outcome(r, fs.State()) == RuntimeFetched(old(fs.State()), w, downloads, includeOld, e)
  {
    if !includeOld {
      var major := Major(e.version);
      if major.None? {
        return Err(BadVersion(e.version));
      }
      if major.value < OldestCurrentMajor {
        return Ok(None);
      }
    }
    var destination := DownloadFile(fs, w, e.uri, Child(downloads, InstallerName(e)));
    if destination.Err? {
      return Err(destination.error);
    }
    return Ok(Some(Runtime(e.version, destination.value)));
  }

  method FetchRuntimes(fs: FileSystem, w: World, downloads: Path, includeOld: bool, catalog: seq<Entry>) returns (r: Result<seq<Runtime>, Error>)
    modifies fs
    ensures Outcome(r, fs.State()) == RuntimesFetched(old(fs.State()), w, downloads, includeOld, catalog)
  {
    var yielded := [];
    for i := 0 to |catalog|
      invariant RuntimesFrom(fs.State(), w, downloads, includeOld, catalog[i..], yielded)
             == RuntimesFetched(old(fs.State()), w, downloads, includeOld, catalog)
    {
      assert catalog[i..][0] == catalog[i] && catalog[i..][1..] == catalog[i + 1..];
      var step := FetchRuntime(fs, w, downloads, includeOld, catalog[i]);
      if step.Err? {
        return Err(step.error);
      }
      if step.value.Some? {
        yielded := yielded + [step.value.value];
      }
    }
    return Ok(yielded);
  }

  /** The paths of the entries os.listdir gives for a directory. */
  function Children(directory: Path, names: seq<Name>): seq<Path>
  {
    seq(|names|, i requires 0 <= i < |names| => Child(directory, names[i]))
  }

  /** The legacy branch of fetch_all: fetch 7-Zip, pull the cabinets out of
      the installer, expand each listed cabinet into the output directory. */
  function LegacyUnpacked(d: Disk, w: World, downloads: Path, installer: Path, output: Path): (o: Outcome<Fate>)
    requires output in d.dirs
    ensures Extends(d, o.disk) && output in o.disk.dirs
    ensures o.result.Ok? ==> o.result.value.Unpacked?
  {
    var tools := SevenZipFetched(d, w, downloads);
    if tools.result.Err? then Outcome(Err(tools.result.error), tools.disk)
    else
      var extracted := OldInstallerExtracted(tools.disk, w, installer);
      if extracted.result.Err? then Outcome(Err(extracted.result.error), extracted.disk)
      else
        var cabDirectory := extracted.result.value;
        assert output in extracted.disk.dirs;
        var cabs := Children(cabDirectory, extracted.disk.dirs[cabDirectory]);
        Outcome(Ok(Unpacked(Legacy, cabs)), CabsExtracted(extracted.disk, w, cabs, output))
  }

  /** The bundle branch of fetch_all: unpack with dark.exe, expand every
      cabinet find_cabs yields into the output directory. */
  function BundleUnpacked(d: Disk, w: World, installer: Path, output: Path): (o: Outcome<Fate>)
    requires output in d.dirs
    ensures Extends(d, o.disk) && output in o.disk.dirs
    ensures o.result.Ok? ==> o.result.value.Unpacked?
  {
    var unpacked := BurnBundleExtracted(d, w, installer);
    match CabsFound(unpacked, Temp(d.temps))
    case Err(err) => Outcome(Err(err), unpacked)
    case Ok(cabs) => Outcome(Ok(Unpacked(Bundle, cabs)), CabsExtracted(unpacked, w, cabs, output))
  }

  /** The disk once fetch_all has made sure the output directory exists. */
  function OutputMade(d: Disk, output: Path): Disk
  {
    if output in d.dirs then d else MakeDir(d, output)
  }

  /** The body of fetch_all's loop for a runtime fetch_runtimes yielded. */
  function RuntimeHandled(d: Disk, w: World, base: string, rt: Runtime): (o: Outcome<Fate>)
    ensures Extends(d, o.disk)
    ensures o.result.Ok? ==> OutputDirectory(base, rt.version) in o.disk.dirs
    ensures OutputDirectory(base, rt.version) in d.dirs || OutputDirectory(base, rt.version) !in d.files ==>
      OutputDirectory(base, rt.version) in o.disk.dirs
    ensures o.result.Ok? ==> !o.result.value.Excluded?
  {
    var output := OutputDirectory(base, rt.version);
    if output !in d.dirs && output in d.files then Outcome(Err(FileExists(output)), d)
    else
      var made := OutputMade(d, output);
      match Major(rt.version)
      case None => Outcome(Err(BadVersion(rt.version)), made)
      case Some(major) =>
        if made.dirs[output] != [] then Outcome(Ok(AlreadyHave), made)
        else match StrategyFor(major)
          case Unsupported => Outcome(Ok(CannotExtract), made)
          case Legacy => LegacyUnpacked(made, w, DownloadDirectory(base), rt.installer, output)
          case Bundle => BundleUnpacked(made, w, rt.installer, output)
  }

  /** One catalog entry of fetch_all: the generator's turn, then the loop body. */
  function EntryHandled(d: Disk, w: World, base: string, includeOld: bool, e: Entry): (o: Outcome<Fate>)
    ensures Extends(d, o.disk)
    ensures o.result.Ok? ==> (o.result.value.Excluded? <==> !Selects(e, includeOld))
    ensures o.result.Ok? && Selects(e, includeOld) ==> OutputDirectory(base, e.version) in o.disk.dirs
  {
    var fetched := RuntimeFetched(d, w, DownloadDirectory(base), includeOld, e);
    match fetched.result
    case Err(err) => Outcome(Err(err), fetched.disk)
    case Ok(None) => Outcome(Ok(Excluded), fetched.disk)
    case Ok(Some(rt)) => RuntimeHandled(fetched.disk, w, base, rt)
  }

  /** The fates after one more entry line up with the entries as before. */
  lemma FatesStep(fates: seq<Fate>, fate: Fate, after: seq<Fate>, entries: seq<Entry>, includeOld: bool)
    requires entries != []
    requires fate.Excluded? <==> !Selects(entries[0], includeOld)
    requires |after| == |fates + [fate]| + |entries[1..]| && after[..|fates + [fate]|] == fates + [fate]
    requires forall i :: |fates + [fate]| <= i < |after| ==>
      (after[i].Excluded? <==> !Selects(entries[1..][i - |fates + [fate]|], includeOld))
    ensures |after| == |fates| + |entries| && after[..|fates|] == fates
    ensures forall i :: |fates| <= i < |after| ==> (after[i].Excluded? <==> !Selects(entries[i - |fates|], includeOld))
  {
    assert |fates + [fate]| == |fates| + 1;
    assert after[..|fates|] == after[..|fates| + 1][..|fates|];
    assert after[|fates|] == after[..|fates| + 1][|fates|] == fate;
  }

  /** The rest of fetch_all's loop from `entries` on, with `fates` so far. */
  function EntriesHandled(d: Disk, w: World, base: string, includeOld: bool, entries: seq<Entry>, fates: seq<Fate>): (o: Outcome<seq<Fate>>)
    ensures Extends(d, o.disk)
    ensures o.result.Ok? ==>
      && |o.result.value| == |fates| + |entries| && o.result.value[..|fates|] == fates
      && (forall i :: |fates| <= i < |o.result.value| ==>
            (o.result.value[i].Excluded? <==> !Selects(entries[i - |fates|], includeOld)))
      && (forall e :: e in entries && Selects(e, includeOld) ==> OutputDirectory(base, e.version) in o.disk.dirs)
    decreases |entries|
  {
    if entries == [] then Outcome(Ok(fates), d)
    else
      var o := EntryHandled(d, w, base, includeOld, entries[0]);
      match o.result
      case Err(err) => Outcome(Err(err), o.disk)
      case Ok(fate) =>
        var rest := EntriesHandled(o.disk, w, base, includeOld, entries[1..], fates + [fate]);
        if rest.result.Err? then rest
        else
          FatesStep(fates, fate, rest.result.value, entries, includeOld);
          assert forall e :: e in entries ==> e == entries[0] || e in entries[1..];
          rest
  }

  /** fetch_all(base, include_old_versions) over `catalog`. */
  function AllFetched(d: Disk, w: World, base: string, includeOld: bool, catalog: seq<Entry>): Outcome<seq<Fate>>
  {
    var downloads := DownloadDirectory(base);
    if downloads !in d.dirs then Outcome(Err(MissingDownloadDirectory(downloads)), d)
    else
      var wix := WixFetched(d, w, downloads);
      if wix.result.Err? then Outcome(Err(wix.result.error), wix.disk)
      else EntriesHandled(wix.disk, w, base, includeOld, catalog, [])
  }

  method HandleRuntime(fs: FileSystem, w: World, base: string, rt: Runtime) returns (r: Result<Fate, Error>)
    modifies fs
    ensures Outcome(r, fs.State()) == RuntimeHandled(old(fs.State()), w, base, rt)
  {
    var output := OutputDirectory(base, rt.version);
    if !fs.IsDir(output) {
      var made := fs.MakeDirs(output);
      if !made {
        return Err(FileExists(output));
      }
    }
    var major := Major(rt.version);
    if major.None? {
      return Err(BadVersion(rt.version));
    }
    var listing := fs.ListDir(output);
    if listing.value != [] {
      return Ok(AlreadyHave);
    }
    if major.value == 10 {
      return Ok(CannotExtract);
    }
    if major.value < 11 {
      r := UnpackLegacy(fs, w, DownloadDirectory(base), rt.installer, output);
    } else {
      r := UnpackBundle(fs, w, rt.installer, output);
    }
  }

  method UnpackLegacy(fs: FileSystem, w: World, downloads: Path, installer: Path, output: Path) returns (r: Result<Fate, Error>)
    requires output in fs.dirs
    modifies fs
    ensures Outcome(r, fs.State()) == LegacyUnpacked(old(fs.State()), w, downloads, installer, output)
  {
    var sevenZip := FetchSevenZip(fs, w, downloads);
    if sevenZip.Err? {
      return Err(sevenZip.error);
    }
    var cabDirectory := ExtractOldInstaller(fs, w, installer);
    if cabDirectory.Err? {
      return Err(cabDirectory.error);
    }
    var names := fs.ListDir(cabDirectory.value);
    var cabs := Children(cabDirectory.value, names.value);
    ExtractCabs(fs, w, cabs, output);
    return Ok(Unpacked(Legacy, cabs));
  }

  method UnpackBundle(fs: FileSystem, w: World, installer: Path, output: Path) returns (r: Result<Fate, Error>)
    requires output in fs.dirs
    modifies fs
    ensures Outcome(r, fs.State()) == BundleUnpacked(old(fs.State()), w, installer, output)
  {
    var unpacked := ExtractBurnBundle(fs, w, installer);
    var cabs := FindCabs(fs, unpacked);
    if cabs.Err? {
      return Err(cabs.error);
    }
    ExtractCabs(fs, w, cabs.value, output);
    return Ok(Unpacked(Bundle, cabs.value));
  }

  method FetchAll(fs: FileSystem, w: World, base: string, includeOld: bool, catalog: seq<Entry>) returns (r: Result<seq<Fate>, Error>)
    modifies fs
    ensures Outcome(r, fs.State()) == AllFetched(old(fs.State()), w, base, includeOld, catalog)
    ensures DownloadDirectory(base) !in old(fs.dirs) ==>
      r == Err(MissingDownloadDirectory(DownloadDirectory(base))) && fs.State() == old(fs.State())
  {
    var downloads := DownloadDirectory(base);
    if !fs.IsDir(downloads) {
      return Err(MissingDownloadDirectory(downloads));
    }
    var wix := FetchWix(fs, w, downloads);
    if wix.Err? {
      return Err(wix.error);
    }
    var fates := [];
    for i := 0 to |catalog|
      invariant EntriesHandled(fs.State(), w, base, includeOld, catalog[i..], fates)
             == AllFetched(old(fs.State()), w, base, includeOld, catalog)
    {
      assert catalog[i..][0] == catalog[i] && catalog[i..][1..] == catalog[i + 1..];
      var fetched := FetchRuntime(fs, w, downloads, includeOld, catalog[i]);
      if fetched.Err? {
        return Err(fetched.error);
      }
      if fetched.value.None? {
        fates := fates + [Excluded];
      } else {
        var fate := HandleRuntime(fs, w, base, fetched.value.value);
        if fate.Err? {
          return Err(fate.error);
        }
        fates := fates + [fate.value];
      }
    }
    return Ok(fates);
  }
}
