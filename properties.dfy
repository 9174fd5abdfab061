/** What the program promises about a run, proved of the functions that
    model fetch_runtimes and fetch_all. */
module FetchProperties {
  import opened Wrappers
  import opened Paths
  import opened Versions
  import opened Errors
  import opened Os
  import opened Externals
  import opened Extractors
  import opened Orchestrator

  // ---- The age filter ------------------------------------------------------

  /** Without --include-old-versions an entry is kept exactly when its major
      version parses and is at least 14; with it, every entry is kept. */
  lemma {:induction false} SelectedExactly(catalog: seq<Entry>, includeOld: bool, e: Entry)
    ensures e in Selected(catalog, includeOld) <==> e in catalog && Selects(e, includeOld)
    ensures Selects(e, includeOld) <==>
      includeOld || (Major(e.version).Some? && Major(e.version).value >= 14)
  {
    if catalog != [] {
      SelectedExactly(catalog[1..], includeOld, e);
      assert catalog == [catalog[0]] + catalog[1..];
    }
  }

  /** With --include-old-versions nothing is dropped. */
  lemma {:induction false} SelectedEverything(catalog: seq<Entry>)
    ensures Selected(catalog, true) == catalog
  {
    if catalog != [] {
      SelectedEverything(catalog[1..]);
      assert catalog == [catalog[0]] + catalog[1..];
    }
  }

  /** The filter keeps catalog order: the kept entries of a catalog split in
      two are those of the first part followed by those of the second. */
  lemma {:induction false} SelectedInOrder(first: seq<Entry>, second: seq<Entry>, includeOld: bool)
    ensures Selected(first + second, includeOld) == Selected(first, includeOld) + Selected(second, includeOld)
  {
    if first == [] {
      assert first + second == second;
    } else {
      var head := if Selects(first[0], includeOld) then [first[0]] else [];
      assert (first + second)[0] == first[0] && (first + second)[1..] == first[1..] + second;
      SelectedInOrder(first[1..], second, includeOld);
      SeqAssociative(head, Selected(first[1..], includeOld), Selected(second, includeOld));
    }
  }

  // ---- fetch_runtimes ------------------------------------------------------

  /** The installer cache name is the version, '_', and the last segment of the URI. */
  lemma InstallerNameOfUri(version: string, site: string, file: string)
    requires '/' !in file
    ensures InstallerName(Entry(version, site + "/" + file)) == version + "_" + file
  {
    LastSegmentOfJoined(site, file);
  }

  /** The catalog as shipped: its one entry is version 14, kept without
      --include-old-versions. */
  lemma ShippedCatalogIsCurrent()
    ensures |RuntimeDownloads| == 1
    ensures Major(RuntimeDownloads[0].version) == Some(14) && Selects(RuntimeDownloads[0], false)
  {
    MajorOf2022();
  }

  // ---- The body of fetch_all's loop ----------------------------------------

  /** The output directory can be used: it is a directory, or nothing is there. */
  predicate Usable(d: Disk, output: Path)
  {
    output in d.dirs || output !in d.files
  }

  /** The output directory is usable and empty (or about to be made). */
  predicate Empty(d: Disk, output: Path)
  {
    Usable(d, output) && Listing(d, output) == []
  }

  /** The output directory exists after each runtime is handled, and a file in
      its place makes os.makedirs raise before anything else happens. */
  lemma OutputAlwaysMade(d: Disk, w: World, base: string, rt: Runtime)
    ensures var output := OutputDirectory(base, rt.version);
      var o := RuntimeHandled(d, w, base, rt);
      && (Usable(d, output) ==> output in o.disk.dirs)
      && (!Usable(d, output) ==> o == Outcome(Err(FileExists(output)), d))
  {
  }

  /** A non-empty output directory means "already have it": no extraction and
      no change, whatever the major version, 10 included. */
  lemma FullOutputSkips(d: Disk, w: World, base: string, rt: Runtime)
    requires OutputDirectory(base, rt.version) in d.dirs && d.dirs[OutputDirectory(base, rt.version)] != []
    requires Major(rt.version).Some?
    ensures RuntimeHandled(d, w, base, rt) == Outcome(Ok(AlreadyHave), d)
  {
  }

  /** Version 10 with an empty output directory is skipped: the directory is
      made if need be and stays empty, and nothing else changes. */
  lemma Version10LeftEmpty(d: Disk, w: World, base: string, rt: Runtime)
    requires Major(rt.version) == Some(10)
    requires Empty(d, OutputDirectory(base, rt.version))
    ensures var output := OutputDirectory(base, rt.version);
      RuntimeHandled(d, w, base, rt) == Outcome(Ok(CannotExtract), d.(dirs := d.dirs[output := []]))
  {
    var output := OutputDirectory(base, rt.version);
    if output in d.dirs {
      assert d.dirs[output := []] == d.dirs;
    }
  }

  /** The 7-Zip path on its own: once 7-Zip is in place it fails exactly when
      the installer holds no cabinet; otherwise the cabinets are the entries
      of the fresh temporary directory, and what expand.exe writes for them
      is appended to the output directory in cabinet order. */
  lemma LegacyUnpackedExactly(d: Disk, w: World, downloads: Path, installer: Path, output: Path)
    requires output in d.dirs && output != Temp(d.temps)
    ensures var o := LegacyUnpacked(d, w, downloads, installer, output);
      var tools := SevenZipFetched(d, w, downloads);
      var cabs := Children(Temp(d.temps), w.sevenZip(installer));
      && (tools.result.Err? ==> o.result == Err(tools.result.error))
      && (tools.result.Ok? && w.sevenZip(installer) == [] ==> o.result == Err(NoCabinet(installer)))
      && (tools.result.Ok? && w.sevenZip(installer) != [] ==>
            && o.result == Ok(Unpacked(Legacy, cabs))
            && o.disk.dirs[output] == d.dirs[output] + Expanded(w, cabs))
  {
    var tools := SevenZipFetched(d, w, downloads);
    if tools.result.Ok? {
      var extracted := OldInstallerExtracted(tools.disk, w, installer);
      assert extracted.disk.dirs[output] == d.dirs[output];
    }
  }

  /** Below 11 (and not 10) the legacy path runs on the empty output directory. */
  lemma LegacyPath(d: Disk, w: World, base: string, rt: Runtime)
    requires Major(rt.version).Some? && Major(rt.version).value < 11 && Major(rt.version).value != 10
    requires Empty(d, OutputDirectory(base, rt.version))
    ensures var output := OutputDirectory(base, rt.version);
      RuntimeHandled(d, w, base, rt) == LegacyUnpacked(OutputMade(d, output), w, DownloadDirectory(base), rt.installer, output)
    ensures var output := OutputDirectory(base, rt.version);
      OutputMade(d, output).dirs[output] == [] && OutputMade(d, output).temps == d.temps
  {
  }

  /** The bundle path on its own: when dark.exe leaves a packages directory,
      the cabinets are its _amd64 packages in listing order and what
      expand.exe writes for them is appended to the output directory; when it
      leaves none, listing the packages directory raises. */
  lemma BundleUnpackedExactly(d: Disk, w: World, installer: Path, output: Path)
    requires output in d.dirs && output != Temp(d.temps) && output != PackagesDir(Temp(d.temps))
    ensures var o := BundleUnpacked(d, w, installer, output);
      var packages := PackagesDir(Temp(d.temps));
      && (w.dark(installer).Some? ==>
            var cabs := AmdCabs(packages, w.dark(installer).value);
            && o.result == Ok(Unpacked(Bundle, cabs))
            && o.disk.dirs[output] == d.dirs[output] + Expanded(w, cabs))
      && (w.dark(installer).None? && packages !in d.dirs ==> o.result == Err(NoPackages(packages)))
  {
    var unpacked := BurnBundleExtracted(d, w, installer);
    assert unpacked.dirs[output] == d.dirs[output];
    if w.dark(installer).None? {
      assert unpacked.dirs.Keys == d.dirs.Keys + {Temp(d.temps)};
    }
  }

  /** From 11 on the bundle path runs on the empty output directory. */
  lemma BundlePath(d: Disk, w: World, base: string, rt: Runtime)
    requires Major(rt.version).Some? && Major(rt.version).value >= 11
    requires Empty(d, OutputDirectory(base, rt.version))
    ensures var output := OutputDirectory(base, rt.version);
      RuntimeHandled(d, w, base, rt) == BundleUnpacked(OutputMade(d, output), w, rt.installer, output)
    ensures var output := OutputDirectory(base, rt.version);
      OutputMade(d, output).dirs[output] == [] && OutputMade(d, output).temps == d.temps
      && OutputMade(d, output).dirs.Keys == d.dirs.Keys + {output}
  {
  }

  // ---- A second run --------------------------------------------------------

  /** An entry a finished run leaves behind: its version parses, and when it is
      kept its installer is cached and its output directory is not empty. */
  predicate Settled(d: Disk, base: string, includeOld: bool, e: Entry)
  {
    && Major(e.version).Some?
    && (Selects(e, includeOld) ==>
          && Child(DownloadDirectory(base), InstallerName(e)) in d.files
          && OutputDirectory(base, e.version) in d.dirs
          && d.dirs[OutputDirectory(base, e.version)] != [])
  }

  /** What a run reports for settled entries: "already have" or dropped. */
  function Recorded(entries: seq<Entry>, includeOld: bool): (fates: seq<Fate>)
    ensures |fates| == |entries|
    ensures forall i :: 0 <= i < |entries| ==>
      fates[i] == (if Selects(entries[i], includeOld) then AlreadyHave else Excluded)
  {
    if entries == [] then []
    else [if Selects(entries[0], includeOld) then AlreadyHave else Excluded] + Recorded(entries[1..], includeOld)
  }

  /** A settled entry is handled without any download, extraction or change. */
  lemma SettledEntryUntouched(d: Disk, w: World, base: string, includeOld: bool, e: Entry)
    requires Settled(d, base, includeOld, e)
    ensures EntryHandled(d, w, base, includeOld, e)
         == Outcome(Ok(if Selects(e, includeOld) then AlreadyHave else Excluded), d)
  {
    if Selects(e, includeOld) {
      var rt := Runtime(e.version, Child(DownloadDirectory(base), InstallerName(e)));
      assert RuntimeFetched(d, w, DownloadDirectory(base), includeOld, e) == Outcome(Ok(Some(rt)), d);
      FullOutputSkips(d, w, base, rt);
    }
  }

  /** A turn of fetch_all's loop that leaves the disk alone moves on to the next entry. */
  lemma UnchangedTurn(d: Disk, w: World, base: string, includeOld: bool, entries: seq<Entry>, fates: seq<Fate>, fate: Fate)
    requires entries != [] && EntryHandled(d, w, base, includeOld, entries[0]) == Outcome(Ok(fate), d)
    ensures EntriesHandled(d, w, base, includeOld, entries, fates)
         == EntriesHandled(d, w, base, includeOld, entries[1..], fates + [fate])
  {
  }

  /** The loop of fetch_all over settled entries changes nothing. */
  lemma {:induction false} SettledEntriesUntouched(d: Disk, w: World, base: string, includeOld: bool,
                                                     entries: seq<Entry>, fates: seq<Fate>)
    requires forall e :: e in entries ==> Settled(d, base, includeOld, e)
    ensures EntriesHandled(d, w, base, includeOld, entries, fates) == Outcome(Ok(fates + Recorded(entries, includeOld)), d)
    decreases |entries|
  {
    if entries == [] {
      assert fates + [] == fates;
    } else {
      var fate := if Selects(entries[0], includeOld) then AlreadyHave else Excluded;
      SettledEntryUntouched(d, w, base, includeOld, entries[0]);
      assert forall e :: e in entries[1..] ==> e in entries;
      UnchangedTurn(d, w, base, includeOld, entries, fates, fate);
      SettledEntriesUntouched(d, w, base, includeOld, entries[1..], fates + [fate]);
      var later := Recorded(entries[1..], includeOld);
      assert Recorded(entries, includeOld) == [fate] + later;
      SeqAssociative(fates, [fate], later);
    }
  }

  /** Running fetch_all again once everything is in place downloads no
      installer and unpacks none, whatever the network and the tools would do:
      every kept entry is reported as already there and the modelled disk is
      unchanged. The WiX archive is unpacked over __wix again, whose contents
      are not modelled. */
  lemma RerunChangesNothing(d: Disk, w: World, base: string, includeOld: bool, catalog: seq<Entry>)
    requires DownloadDirectory(base) in d.dirs
    requires Child(DownloadDirectory(base), "__wix.zip") in d.files
    requires WixTools(DownloadDirectory(base)) in d.dirs && WixTools(DownloadDirectory(base)) !in d.files
    requires forall e :: e in catalog ==> Settled(d, base, includeOld, e)
    ensures AllFetched(d, w, base, includeOld, catalog) == Outcome(Ok(Recorded(catalog, includeOld)), d)
  {
    SettledEntriesUntouched(d, w, base, includeOld, catalog, []);
    assert [] + Recorded(catalog, includeOld) == Recorded(catalog, includeOld);
  }
}
