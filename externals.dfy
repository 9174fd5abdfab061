/** Everything outside the program that it calls without seeing inside: the
    HTTP server behind requests.get and the executables it runs through
    subprocess.call. Each is a fixed function of its input, so a run is
    determined by the filesystem it starts from and this world. */
module Externals {
  import opened Wrappers
  import opened Paths
  import opened Os

  /** What requests.get(uri, stream=True) gives: an exception before anything
      is written, or the body as iter_content(chunk_size=1024) yields it,
      empty keep-alive chunks included. A non-success status still has a body. */
  datatype Response = Unreachable | Body(chunks: seq<Bytes>)

  datatype World = World(
    /** the server's answer to each URI */
    net: string -> Response,
    /** what `7za x -o<dir> <installer> -i!*.cab` leaves in the fresh directory */
    sevenZip: Path -> seq<Name>,
    /** the listing of AttachedContainer/packages after `dark.exe -x <dir> <bundle>`,
        or None where dark.exe does not make that directory */
    dark: Path -> Option<seq<Name>>,
    /** the names `expand.exe -F:* <cab> <dir>` writes into the directory */
    expand: Path -> seq<Name>)
}
