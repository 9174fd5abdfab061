/** The helpers fetch_all calls around the external tools: fetch_7zip,
    extract_old_installer, fetch_wix, extract_burn_bundle, find_cabs and
    extract_cab. */
module Extractors {
  import opened Wrappers
  import opened Paths
  import opened Errors
  import opened Os
  import opened Externals
  import opened Downloader

  const SevenZipConsoleUri: string := "https://7-zip.org/a/7zr.exe"
  const SevenZipExtraUri: string := "https://7-zip.org/a/7z2301-extra.7z"
  const WixUri: string := "https://github.com/wixtoolset/wix3/releases/download/wix3111rtm/wix311-binaries.zip"

  /** Where fetch_7zip unpacks the 7-Zip tools, and the executable it returns. */
  function SevenZipTools(downloads: Path): Path { Child(downloads, "_7z") }
  function SevenZipExe(downloads: Path): Path { Child(SevenZipTools(downloads), "7za.exe") }

  /** Where fetch_wix unpacks the WiX toolset, the path it returns. */
  function WixTools(downloads: Path): Path { Child(downloads, "__wix") }

  /** The directory find_cabs lists inside an unpacked bundle. */
  function PackagesDir(directory: Path): Path { Child(Child(directory, "AttachedContainer"), "packages") }

  /** The cabinet find_cabs yields for a package directory called `name`. */
  function CabOf(packages: Path, name: Name): Path { Child(Child(packages, name), "cab1.cab") }

  /** fetch_7zip: both 7-Zip downloads, then `7zr x` into _7z unless that is
      already a directory; 7zr cannot make it where a file has the path. */
  function SevenZipFetched(d: Disk, w: World, downloads: Path): (o: Outcome<Path>)
    ensures Extends(d, o.disk) && o.disk.temps == d.temps
    ensures forall p :: p in d.dirs ==> o.disk.dirs[p] == d.dirs[p]
    ensures o.result.Ok? ==>
      && o.result.value == SevenZipExe(downloads)
      && Child(downloads, "__7zr.exe") in o.disk.files
      && Child(downloads, "7z2301-extra.7z") in o.disk.files
  {
    var console := Downloaded(d, w, SevenZipConsoleUri, Child(downloads, "__7zr.exe"));
    if console.result.Err? then Outcome(Err(console.result.error), console.disk)
    else
      var extra := Downloaded(console.disk, w, SevenZipExtraUri, Child(downloads, "7z2301-extra.7z"));
      if extra.result.Err? then Outcome(Err(extra.result.error), extra.disk)
      else
        var tools := SevenZipTools(downloads);
        var e := extra.disk;
        Outcome(Ok(SevenZipExe(downloads)), if tools in e.dirs || tools in e.files then e else MakeDir(e, tools))
  }

  method FetchSevenZip(fs: FileSystem, w: World, downloads: Path) returns (r: Result<Path, Error>)
    modifies fs
    ensures Outcome(r, fs.State()) == SevenZipFetched(old(fs.State()), w, downloads)
  {
    var console := Child(downloads, "__7zr.exe");
    if !fs.IsFile(console) {
      var got := DownloadFile(fs, w, SevenZipConsoleUri, console);
      if got.Err? {
        return Err(got.error);
      }
    }
    var extra := Child(downloads, "7z2301-extra.7z");
    if !fs.IsFile(extra) {
      var got := DownloadFile(fs, w, SevenZipExtraUri, extra);
      if got.Err? {
        return Err(got.error);
      }
    }
    var tools := SevenZipTools(downloads);
    if !fs.IsDir(tools) {
      var made := fs.MakeDirs(tools);
    }
    return Ok(SevenZipExe(downloads));
  }

  /** extract_old_installer: 7-Zip pulls the cabinets out of the installer
      into a fresh temporary directory, which is returned; ValueError exactly
      when that directory is empty afterwards. */
  function OldInstallerExtracted(d: Disk, w: World, installer: Path): (o: Outcome<Path>)
    ensures Extends(d, o.disk) && o.disk.temps == d.temps + 1 && o.disk.files == d.files
    ensures forall p :: p in d.dirs && p != Temp(d.temps) ==> o.disk.dirs[p] == d.dirs[p]
    ensures Temp(d.temps) in o.disk.dirs
    ensures o.result.Err? <==> o.disk.dirs[Temp(d.temps)] == []
    ensures o.result.Err? ==> o.result.error == NoCabinet(installer)
    ensures o.result.Ok? ==> o.result.value == Temp(d.temps) && o.disk.dirs[Temp(d.temps)] == w.sevenZip(installer)
  {
    var tmp := Temp(d.temps);
    var e := Fill(NewTemp(d), tmp, w.sevenZip(installer));
    if w.sevenZip(installer) == [] then Outcome(Err(NoCabinet(installer)), e) else Outcome(Ok(tmp), e)
  }

  method ExtractOldInstaller(fs: FileSystem, w: World, installer: Path) returns (r: Result<Path, Error>)
    modifies fs
    ensures Outcome(r, fs.State()) == OldInstallerExtracted(old(fs.State()), w, installer)
  {
    var output := fs.MakeTemp();
    fs.FillDir(output, w.sevenZip(installer));
    var listing := fs.ListDir(output);
    if listing.value == [] {
      return Err(NoCabinet(installer));
    }
    return Ok(output);
  }

  /** fetch_wix: download the toolset archive unless it is already a file,
      then unpack it into __wix, which raises where __wix is a file. */
  function WixFetched(d: Disk, w: World, downloads: Path): (o: Outcome<Path>)
    ensures Extends(d, o.disk) && o.disk.temps == d.temps
    ensures forall p :: p in d.dirs ==> o.disk.dirs[p] == d.dirs[p]
    ensures o.result.Ok? ==>
      && o.result.value == WixTools(downloads) && WixTools(downloads) in o.disk.dirs
      && Child(downloads, "__wix.zip") in o.disk.files
  {
    var archive := Downloaded(d, w, WixUri, Child(downloads, "__wix.zip"));
    if archive.result.Err? then Outcome(Err(archive.result.error), archive.disk)
    else
      var tools := WixTools(downloads);
      var e := archive.disk;
      if tools in e.files then Outcome(Err(NotADirectory(tools)), e)
      else Outcome(Ok(tools), if tools in e.dirs then e else MakeDir(e, tools))
  }

  method FetchWix(fs: FileSystem, w: World, downloads: Path) returns (r: Result<Path, Error>)
    modifies fs
    ensures Outcome(r, fs.State()) == WixFetched(old(fs.State()), w, downloads)
  {
    var archive := Child(downloads, "__wix.zip");
    if !fs.IsFile(archive) {
      var got := DownloadFile(fs, w, WixUri, archive);
      if got.Err? {
        return Err(got.error);
      }
    }
    var tools := WixTools(downloads);
    if fs.IsFile(tools) {
      return Err(NotADirectory(tools));
    }
    if !fs.IsDir(tools) {
      var made := fs.MakeDirs(tools);
    }
    return Ok(tools);
  }

  /** extract_burn_bundle: dark.exe unpacks the bundle into a fresh temporary
      directory, Temp(d.temps), which the caller receives. */
  function BurnBundleExtracted(d: Disk, w: World, bundle: Path): (e: Disk)
    ensures Extends(d, e) && e.temps == d.temps + 1 && e.files == d.files
    ensures Temp(d.temps) in e.dirs
    ensures w.dark(bundle).Some? ==> PackagesDir(Temp(d.temps)) in e.dirs && e.dirs[PackagesDir(Temp(d.temps))] == w.dark(bundle).value
    ensures forall p :: p in d.dirs && p != Temp(d.temps) && p != PackagesDir(Temp(d.temps)) ==> e.dirs[p] == d.dirs[p]
  {
    var e := NewTemp(d);
    match w.dark(bundle)
    case None => e
    case Some(names) => Fill(e, PackagesDir(Temp(d.temps)), names)
  }

  method ExtractBurnBundle(fs: FileSystem, w: World, bundle: Path) returns (output: Path)
    modifies fs
    ensures output == Temp(old(fs.temps))
    ensures fs.State() == BurnBundleExtracted(old(fs.State()), w, bundle)
  {
    output := fs.MakeTemp();
    match w.dark(bundle)
    case None =>
    case Some(names) => fs.FillDir(PackagesDir(output), names);
  }

  /** The cabinets find_cabs yields for a listing of the packages directory,
      in listing order. */
  function AmdCabs(packages: Path, names: seq<Name>): seq<Path>
  {
    if names == [] then []
    else
      var last := names[|names| - 1];
      AmdCabs(packages, names[..|names| - 1]) + (if EndsWith(last, "_amd64") then [CabOf(packages, last)] else [])
  }

  /** find_cabs yields a path for exactly the listed names ending in _amd64,
      each the cab1.cab inside that package directory. */
  lemma {:induction false} AmdCabsExactly(packages: Path, names: seq<Name>, p: Path)
    ensures p in AmdCabs(packages, names) <==>
      exists i :: 0 <= i < |names| && EndsWith(names[i], "_amd64") && p == CabOf(packages, names[i])
  {
    if names != [] {
      var init := names[..|names| - 1];
      AmdCabsExactly(packages, init, p);
      if p in AmdCabs(packages, init) {
        var i :| 0 <= i < |init| && EndsWith(init[i], "_amd64") && p == CabOf(packages, init[i]);
        assert names[i] == init[i];
      }
      if exists i :: 0 <= i < |names| && EndsWith(names[i], "_amd64") && p == CabOf(packages, names[i]) {
        var i :| 0 <= i < |names| && EndsWith(names[i], "_amd64") && p == CabOf(packages, names[i]);
        if i < |init| {
          assert init[i] == names[i];
        }
      }
    }
  }

  /** find_cabs keeps the listing's order: the cabinets for a listing split in
      two are those of the first part followed by those of the second. */
  lemma {:induction false} AmdCabsInOrder(packages: Path, first: seq<Name>, second: seq<Name>)
    ensures AmdCabs(packages, first + second) == AmdCabs(packages, first) + AmdCabs(packages, second)
  {
    if second != [] {
      var all := first + second;
      assert all[..|all| - 1] == first + second[..|second| - 1];
      assert all[|all| - 1] == second[|second| - 1];
      AmdCabsInOrder(packages, first, second[..|second| - 1]);
    } else {
      assert first + second == first;
    }
  }

  /** find_cabs(directory), consumed to the end: the cabinets, or the
      FileNotFoundError of os.listdir when the packages directory is missing. */
  function CabsFound(d: Disk, directory: Path): Result<seq<Path>, Error>
  {
    var packages := PackagesDir(directory);
    if packages in d.dirs then Ok(AmdCabs(packages, d.dirs[packages])) else Err(NoPackages(packages))
  }

  method FindCabs(fs: FileSystem, directory: Path) returns (r: Result<seq<Path>, Error>)
    ensures r == CabsFound(fs.State(), directory)
  {
    var packages := PackagesDir(directory);
    var listing := fs.ListDir(packages);
    if listing.None? {
      return Err(NoPackages(packages));
    }
    var names := listing.value;
    var cabs := [];
    for i := 0 to |names|
      invariant cabs == AmdCabs(packages, names[..i])
    {
      assert names[..i + 1][..i] == names[..i];
      if EndsWith(names[i], "_amd64") {
        cabs := cabs + [CabOf(packages, names[i])];
      }
    }
    assert names[..|names|] == names;
    return Ok(cabs);
  }

  /** The names expand.exe writes for each cabinet, in the order they are expanded. */
  function Expanded(w: World, cabs: seq<Path>): seq<Name>
  {
    if cabs == [] then [] else Expanded(w, cabs[..|cabs| - 1]) + w.expand(cabs[|cabs| - 1])
  }

  /** extract_cab(cab, destination) for each cabinet in turn, into the
      output directory fetch_all has made. */
  function CabsExtracted(d: Disk, w: World, cabs: seq<Path>, destination: Path): Disk
    requires destination in d.dirs
  {
    AddEntries(d, destination, Expanded(w, cabs))
  }

  /** extract_cab: expand.exe -F:* writes the cabinet's files into the destination. */
  method ExtractCab(fs: FileSystem, w: World, cab: Path, destination: Path)
    requires destination in fs.dirs
    modifies fs
    ensures fs.State() == AddEntries(old(fs.State()), destination, w.expand(cab))
  {
    fs.AddToDir(destination, w.expand(cab));
  }

  /** The loops `for cab in ...: extract_cab(cab, output_directory)` of fetch_all. */
  method ExtractCabs(fs: FileSystem, w: World, cabs: seq<Path>, destination: Path)
    requires destination in fs.dirs
    modifies fs
    ensures fs.State() == CabsExtracted(old(fs.State()), w, cabs, destination)
  {
    assert fs.dirs[destination] + [] == fs.dirs[destination];
    assert fs.dirs[destination := fs.dirs[destination] + []] == fs.dirs;
    for i := 0 to |cabs|
      invariant destination in fs.dirs
      invariant fs.State() == CabsExtracted(old(fs.State()), w, cabs[..i], destination)
    {
      ghost var listing := fs.dirs[destination];
      assert cabs[..i + 1][..i] == cabs[..i];
      assert Expanded(w, cabs[..i + 1]) == Expanded(w, cabs[..i]) + w.expand(cabs[i]);
      ExtractCab(fs, w, cabs[i], destination);
      assert listing == Listing(old(fs.State()), destination) + Expanded(w, cabs[..i]);
      assert fs.dirs[destination] == Listing(old(fs.State()), destination) + Expanded(w, cabs[..i + 1]);
    }
    assert cabs[..|cabs|] == cabs;
  }
}
