# vcredist-extractor in Dafny

`fetch_vcdist.py` downloads Microsoft Visual C++ x64 redistributable
installers from a fixed catalog of (version, URL) pairs and unpacks the
runtime DLLs of each one into `<destination>/vcruntime_<version>`. Older
self-extracting installers (below major version 11) are opened with 7-Zip;
newer WiX Burn bundles are opened with WiX's `dark.exe`; either way the
resulting `.cab` files are expanded with `expand.exe`.

This project models the decision and bookkeeping logic around those tools:

- `download_file` and its cache rule (`Downloader`);
- `fetch_runtimes`: the age filter on the major version and the installer
  file names (`Orchestrator.RuntimeFetched`, `RuntimesFrom`, `FetchRuntimes`);
- `find_cabs`, the empty check of `extract_old_installer`, and the other
  helpers as far as they touch the filesystem (`Extractors`);
- the per-entry control flow of `fetch_all` (`Orchestrator.RuntimeHandled`,
  `EntriesHandled`, `FetchAll`).

The modules:

- `Wrappers`: `Option` and `Result`.
- `Paths`: paths as a tree (`Root(destination)`, `Temp(k)` for the k-th
  `tempfile.mkdtemp` directory of a run, `Child(parent, name)`) and
  `os.path.basename` on URIs.
- `Versions`: `str.partition`, `int()` on the text before the first `.`,
  and the dispatch on the major version.
- `Errors`: every exception the core can raise, one constructor each.
- `Os`: the filesystem as a value (`Disk`: file contents, directory
  listings, the number of temporary directories made so far) and as the
  class `FileSystem`, whose methods are the `os` calls the program makes.
- `Externals`: what the network and the external tools do, as a `World`
  value: the chunks an HTTP GET yields (or that the host is unreachable),
  the names 7-Zip leaves in a directory, the package listing `dark.exe`
  leaves, the names `expand.exe` writes.
- `Downloader`, `Extractors`, `Orchestrator`: one pure function per source
  function, stating the outcome and the new `Disk`, and one method over a
  `FileSystem` proved to behave exactly as that function says.
- `FetchProperties`: the properties of a run.

The 7-Zip tools directory is `Downloads/_7z` (`fetch_vcdist.py:281`).

## Model

| member | source | states |
|---|---|---|
| Paths.LastSegment | fetch_vcdist.py:257 | `os.path.basename` of a URI: the longest suffix with no `/`, preceded by a `/` unless it is the whole string |
| Paths.LastSegmentOfJoined | fetch_vcdist.py:257 | the basename of `site + "/" + file` is `file` when `file` has no `/` |
| Versions.Partition | fetch_vcdist.py:253 | `str.partition`: the head holds no separator; with a separator, head + separator + tail is the input; without one, the head is the whole input and the tail is empty |
| Versions.ParseDecimalOfDecimal | fetch_vcdist.py:253 | `int()` of a number's decimal text gives the number back |
| Versions.PartitionAtFirst | fetch_vcdist.py:253 | partition splits at the first separator, whatever follows |
| Versions.MajorOfDigits | fetch_vcdist.py:360 | the major version is `int()` of the digits before the first `.`, or of the whole string when there is none; leading zeros allowed (`"014.0"` gives 14) |
| Versions.MajorOfDotted | fetch_vcdist.py:253 | the major version of a version starting with a number's decimal text and a `.` (or with no `.`) is that number |
| Versions.KnownVersionsRouted | fetch_vcdist.py:366-382 | versions 9, 10, 12 and 14 of the catalog parse to those majors: 9 takes the 7-Zip path, 10 is skipped, 12 and 14 take the bundle path; 9 and 12 are older than the age limit, 14 is not |
| Os.FileSystem.ListDir | fetch_vcdist.py:299 | `os.listdir` answers exactly for directories, with their listing |
| Os.FileSystem.MakeDirs | fetch_vcdist.py:358 | `os.makedirs` succeeds exactly when nothing is at the path, and then adds an empty directory |
| Os.FileSystem.MakeTemp | fetch_vcdist.py:294 | `tempfile.mkdtemp` returns the next temporary directory, empty |
| Os.FileSystem.Open | fetch_vcdist.py:37 | `open(dest, 'wb')` fails exactly on a directory, and otherwise truncates the file |
| Os.FileSystem.Write | fetch_vcdist.py:40 | `f.write` appends the bytes to the file |
| Os.FileSystem.FillDir | fetch_vcdist.py:295-297 | the 7-Zip extraction (and `dark.exe` at line 330) leaves exactly the given names in the directory it fills |
| Os.FileSystem.AddToDir | fetch_vcdist.py:342 | a tool that writes into a directory appends the given names to its listing |
| Downloader.NonEmpty | fetch_vcdist.py:39 | the keep-alive filter: only non-empty chunks remain |
| Downloader.KeepAliveChunksCarryNothing | fetch_vcdist.py:38-40 | dropping empty chunks does not change the bytes written: the file is the concatenation of all chunks received |
| Downloader.Downloaded | fetch_vcdist.py:31-41 | on success the result is `dest` and `dest` is a file; only `dest` can be added or changed; directories untouched |
| Downloader.DownloadCacheRule | fetch_vcdist.py:33-41 | an existing `dest` is returned with nothing changed; otherwise `dest` holds the in-order concatenation of the chunks, or the run fails on an unreachable host or when `dest` is a directory, with nothing written |
| Downloader.DownloadFile | fetch_vcdist.py:31-41 | the method's result and new filesystem are those of `Downloaded` |
| Downloader.WriteChunks | fetch_vcdist.py:38-40 | writing the chunks one by one leaves the file equal to the concatenation of the non-empty chunks, every other file and directory unchanged |
| Extractors.SevenZipFetched | fetch_vcdist.py:262-285 | on success both 7-Zip downloads are files and the result is `_7z/7za.exe`; no existing directory listing changes |
| Extractors.FetchSevenZip | fetch_vcdist.py:262-285 | the method matches `SevenZipFetched` |
| Extractors.OldInstallerExtracted | fetch_vcdist.py:288-303 | one new temporary directory; the call fails with the installer named exactly when that directory is empty, and otherwise returns it holding what 7-Zip extracted |
| Extractors.ExtractOldInstaller | fetch_vcdist.py:288-303 | the method matches `OldInstallerExtracted` |
| Extractors.WixFetched | fetch_vcdist.py:306-320 | on success `__wix.zip` is a file and `__wix` a directory, which is the result |
| Extractors.FetchWix | fetch_vcdist.py:306-320 | the method matches `WixFetched` |
| Extractors.BurnBundleExtracted | fetch_vcdist.py:323-331 | one new temporary directory; when `dark.exe` unpacks the bundle its packages directory lists what it left; no other directory changes |
| Extractors.ExtractBurnBundle | fetch_vcdist.py:323-331 | the method returns the new temporary directory and matches `BurnBundleExtracted` |
| Extractors.AmdCabsExactly | fetch_vcdist.py:334-338 | a path is yielded exactly when it is `<packages>/<name>/cab1.cab` for a listed name ending in `_amd64` |
| Extractors.AmdCabsInOrder | fetch_vcdist.py:334-338 | the cabinets follow listing order: those of a split listing are those of each part, concatenated |
| Extractors.FindCabs | fetch_vcdist.py:334-338 | the loop yields the `_amd64` cabinets of the packages listing, or fails when there is no packages directory |
| Extractors.ExtractCab | fetch_vcdist.py:341-342 | `expand.exe` adds the cabinet's files to the destination listing |
| Extractors.ExtractCabs | fetch_vcdist.py:377-383 | expanding the cabinets in turn appends their files to the destination, in cabinet order |
| Orchestrator.RuntimeFetched | fetch_vcdist.py:252-259 | an entry is yielded exactly when the filter keeps it, with its own version and the installer `Downloads/<version>_<basename(uri)>`, which exists afterwards |
| Orchestrator.FetchRuntime | fetch_vcdist.py:252-259 | the method matches `RuntimeFetched` |
| Orchestrator.YieldsStep | fetch_vcdist.py:252-259 | one catalog entry contributes its runtime to the yielded sequence when kept, nothing when dropped |
| Orchestrator.RuntimesFrom | fetch_vcdist.py:252-259 | when the generator runs to the end it yields the kept entries in catalog order, each with its installer path, and every one of those installers is a file afterwards |
| Orchestrator.FetchRuntimes | fetch_vcdist.py:252-259 | the loop matches `RuntimesFetched` |
| Orchestrator.LegacyUnpacked | fetch_vcdist.py:372-380 | the 7-Zip path keeps the output directory and, on success, reports the cabinets it expanded |
| Orchestrator.BundleUnpacked | fetch_vcdist.py:382-383 | the bundle path keeps the output directory and, on success, reports the cabinets it expanded |
| Orchestrator.RuntimeHandled | fetch_vcdist.py:355-383 | when it succeeds the output directory exists afterwards, and a yielded runtime is never reported as dropped |
| Orchestrator.EntryHandled | fetch_vcdist.py:353-383 | an entry is reported as dropped exactly when the filter drops it; a kept entry that succeeds has its output directory |
| Orchestrator.FatesStep | fetch_vcdist.py:353-383 | the reports after one more entry still line up with the entries |
| Orchestrator.EntriesHandled | fetch_vcdist.py:353-383 | a completed loop reports once per catalog entry, in order, dropped exactly for entries the filter drops, and every kept entry's output directory exists at the end |
| Orchestrator.UnpackLegacy | fetch_vcdist.py:375-380 | the method matches `LegacyUnpacked` |
| Orchestrator.UnpackBundle | fetch_vcdist.py:382-383 | the method matches `BundleUnpacked` |
| Orchestrator.HandleRuntime | fetch_vcdist.py:355-383 | the method matches `RuntimeHandled` |
| Orchestrator.FetchAll | fetch_vcdist.py:345-383 | the method matches `AllFetched`; without `Downloads` it fails before any download or extraction, leaving the filesystem as it was |
| FetchProperties.SelectedExactly | fetch_vcdist.py:252-255 | without the old-versions flag an entry is kept exactly when its major version parses and is at least 14; with it every entry is kept |
| FetchProperties.SelectedEverything | fetch_vcdist.py:252-255 | with the old-versions flag the kept entries are the whole catalog |
| FetchProperties.SelectedInOrder | fetch_vcdist.py:252-255 | the filter keeps catalog order |
| FetchProperties.InstallerNameOfUri | fetch_vcdist.py:257 | the installer is named `<version>_<last URI segment>` |
| FetchProperties.ShippedCatalogIsCurrent | fetch_vcdist.py:54-59 | the shipped catalog has one entry, of major version 14, kept without the old-versions flag |
| FetchProperties.OutputAlwaysMade | fetch_vcdist.py:355-358 | after a runtime is handled its output directory exists, unless a file is in the way, which fails the run with nothing changed |
| FetchProperties.FullOutputSkips | fetch_vcdist.py:362-364 | a non-empty output directory means "already have": nothing changes, whatever the major version |
| FetchProperties.Version10LeftEmpty | fetch_vcdist.py:366-370 | version 10 with an empty output directory is skipped; the directory exists and stays empty; nothing else changes |
| FetchProperties.LegacyPath | fetch_vcdist.py:355-376 | below 11 (and not 10), with an empty output directory, the run takes the 7-Zip path on that empty directory |
| FetchProperties.LegacyUnpackedExactly | fetch_vcdist.py:375-380 | once 7-Zip is in place the 7-Zip path fails exactly when the installer holds no cabinet; otherwise the cabinets are the temporary directory's entries and the output directory gains what they expand to, in order |
| FetchProperties.BundlePath | fetch_vcdist.py:355-383 | from 11 on, with an empty output directory, the run takes the bundle path on that empty directory |
| FetchProperties.BundleUnpackedExactly | fetch_vcdist.py:382-383 | when `dark.exe` leaves a packages directory the cabinets are its `_amd64` packages in order and the output directory gains what they expand to; with no packages directory the run fails |
| FetchProperties.SettledEntryUntouched | fetch_vcdist.py:353-364 | an entry whose installer is cached and whose output directory is not empty is handled without any change |
| FetchProperties.SettledEntriesUntouched | fetch_vcdist.py:353-364 | the loop over such entries changes nothing and reports each as already there or dropped |
| FetchProperties.RerunChangesNothing | fetch_vcdist.py:345-383 | a second run over a finished destination downloads no installer and unpacks none, whatever the network and the tools would do: every kept entry is reported as already there and the modelled disk is unchanged |

## Left out

- HTTP through `requests` (`fetch_vcdist.py:36-38`): a response is either unreachable or a finite list of chunks; HTTP status codes, redirects, and a stream that breaks part-way (which leaves a truncated file behind) are not modelled.
- The external programs 7zr/7za, `dark.exe` and `expand.exe`: their effect is a function of their input path in `World`; their return codes, which the program ignores, are not modelled, and neither is a missing executable (`FileNotFoundError` from `subprocess.call`).
- Extractors.SevenZipFetched: does not model the files 7zr unpacks into `_7z` (only that the directory is made), and the 7-Zip path does not depend on the executable it returns.
- Extractors.WixFetched: the contents of the zip archive and a corrupt archive (`zipfile.BadZipFile`) are not modelled; unpacking only makes sure `__wix` is a directory.
- `tempfile.mkdtemp` naming: temporary directories are `Temp(0)`, `Temp(1)`, … in the order they are made; they are never deleted, as in the program.
- Directory listings are kept only for directories the program lists; downloads into `Downloads` and `makedirs` of missing parents do not update any listing, and parents are not tracked.
- Paths: `os.path.join` and `os.path.basename` use `/` only; backslashes and drive letters are not modelled, and names are taken to hold no separator.
- Versions.Major: `int()` is modelled on ASCII digits only; the sign, surrounding whitespace, underscores and non-ASCII digits that Python also accepts are treated as a parse failure.
- The catalog is a parameter of every function; only the one active entry of the shipped list is given as `RuntimeDownloads`, without the commented-out entries.
- Command-line parsing, the default destination and the wording of the printed messages (`fetch_vcdist.py:363`, `fetch_vcdist.py:369`, `fetch_vcdist.py:386-401`): each printed message is a `Fate` in the result instead.
- FetchProperties.RerunChangesNothing: `fetch_wix` unpacks the WiX archive into `__wix` on every run (`fetch_vcdist.py:317-318`); the second run does that again, and "unchanged" holds only because the contents of `__wix` are not modelled.
- Os.Disk: nothing keeps paths under `Temp(k)` with `k` at or above the count of temporary directories out of the disk, and nothing keeps files and directories apart. A leftover `AttachedContainer/packages` under the next temporary directory would let `BundleUnpacked` succeed where the fresh `mkdtemp` directory makes `find_cabs` raise; `BundleUnpackedExactly` therefore states the failure only when that path is absent.
