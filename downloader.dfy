/** download_file: fetch a URI to a destination unless the destination is
    already a file, writing the non-empty chunks of the body in order. */
module Downloader {
  import opened Wrappers
  import opened Paths
  import opened Errors
  import opened Os
  import opened Externals

  /** The bytes of the chunks, in order. */
  function Concat(chunks: seq<Bytes>): Bytes
  {
    if chunks == [] then [] else Concat(chunks[..|chunks| - 1]) + chunks[|chunks| - 1]
  }

  /** The chunks that `if chunk:` lets through, in order. */
  function NonEmpty(chunks: seq<Bytes>): (r: seq<Bytes>)
    ensures forall i :: 0 <= i < |r| ==> r[i] != []
    ensures |r| <= |chunks|
  {
    if chunks == [] then []
    else if chunks[|chunks| - 1] == [] then NonEmpty(chunks[..|chunks| - 1])
    else NonEmpty(chunks[..|chunks| - 1]) + [chunks[|chunks| - 1]]
  }

  /** Dropping the keep-alive chunks loses no bytes of the body. */
  lemma {:induction false} KeepAliveChunksCarryNothing(chunks: seq<Bytes>)
    ensures Concat(NonEmpty(chunks)) == Concat(chunks)
  {
    if chunks != [] {
      var init, last := chunks[..|chunks| - 1], chunks[|chunks| - 1];
      KeepAliveChunksCarryNothing(init);
      if last != [] {
        var r := NonEmpty(init) + [last];
        assert r[..|r| - 1] == NonEmpty(init);
      }
    }
  }

  /** download_file(uri, dest) run on disk `d` in world `w`. */
  function Downloaded(d: Disk, w: World, uri: string, dest: Path): (o: Outcome<Path>)
    ensures o.result.Ok? ==> o.result.value == dest && dest in o.disk.files
    ensures o.disk.dirs == d.dirs && o.disk.temps == d.temps
    ensures o.disk.files.Keys == d.files.Keys + (if o.result.Ok? then {dest} else {})
    ensures forall p :: p in d.files && p != dest ==> o.disk.files[p] == d.files[p]
  {
    if dest in d.files then Outcome(Ok(dest), d)
    else match w.net(uri)
      case Unreachable => Outcome(Err(ConnectionFailed(uri)), d)
      case Body(chunks) =>
        if dest in d.dirs then Outcome(Err(IsADirectory(dest)), d)
        else Outcome(Ok(dest), d.(files := d.files[dest := Concat(NonEmpty(chunks))]))
  }

  /** The cache rule: an existing destination is returned untouched; otherwise
      a fetched body becomes the destination's whole content; a failed fetch
      or a directory in the way raises and changes nothing. */
  lemma DownloadCacheRule(d: Disk, w: World, uri: string, dest: Path)
    ensures dest in d.files ==> Downloaded(d, w, uri, dest) == Outcome(Ok(dest), d)
    ensures dest !in d.files && w.net(uri).Body? && dest !in d.dirs ==>
      Downloaded(d, w, uri, dest)
        == Outcome(Ok(dest), d.(files := d.files[dest := Concat(w.net(uri).chunks)]))
    ensures dest !in d.files && w.net(uri).Unreachable? ==>
      Downloaded(d, w, uri, dest) == Outcome(Err(ConnectionFailed(uri)), d)
    ensures dest !in d.files && w.net(uri).Body? && dest in d.dirs ==>
      Downloaded(d, w, uri, dest) == Outcome(Err(IsADirectory(dest)), d)
  {
    if w.net(uri).Body? {
      KeepAliveChunksCarryNothing(w.net(uri).chunks);
    }
  }

  /** download_file, on the live filesystem. */
  method DownloadFile(fs: FileSystem, w: World, uri: string, dest: Path) returns (r: Result<Path, Error>)
    modifies fs
    ensures Outcome(r, fs.State()) == Downloaded(old(fs.State()), w, uri, dest)
  {
    if fs.IsFile(dest) {
      return Ok(dest);
    }
    var response := w.net(uri);
    if response.Unreachable? {
      return Err(ConnectionFailed(uri));
    }
    var writable := fs.Open(dest);
    if !writable {
      return Err(IsADirectory(dest));
    }
    var chunks := response.chunks;
    WriteChunks(fs, dest, chunks);
    ghost var d := old(fs.State());
    assert fs.State() == d.(files := d.files[dest := Concat(NonEmpty(chunks))]);
    return Ok(dest);
  }

  /** The loop `for chunk in r.iter_content(...): if chunk: f.write(chunk)`
      on a file just opened for writing. */
  method WriteChunks(fs: FileSystem, dest: Path, chunks: seq<Bytes>)
    requires dest in fs.files && fs.files[dest] == []
    modifies fs
    ensures fs.State() == old(fs.State()).(files := old(fs.files)[dest := Concat(NonEmpty(chunks))])
  {
    for i := 0 to |chunks|
      invariant dest in fs.files && fs.files[dest] == Concat(NonEmpty(chunks[..i]))
      invariant fs.files == old(fs.files)[dest := fs.files[dest]]
      invariant fs.dirs == old(fs.dirs) && fs.temps == old(fs.temps)
    {
      assert chunks[..i + 1][..i] == chunks[..i];
      if chunks[i] != [] {
        fs.Write(dest, chunks[i]);
      }
    }
    assert chunks[..|chunks|] == chunks;
  }
}
