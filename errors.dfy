/** The exceptions that end a run, each named after the call that raises it. */
module Errors {
  import opened Paths

  datatype Error =
    | MissingDownloadDirectory(path: Path)  // SystemError: <destination>/Downloads is not a directory
    | BadVersion(version: string)           // ValueError: int() of the text before the first '.'
    | ConnectionFailed(uri: string)         // requests.get could not fetch the URI
    | IsADirectory(path: Path)              // open(dest, 'wb') where dest is a directory
    | FileExists(path: Path)                // os.makedirs where a file already has the path
    | NotADirectory(path: Path)             // zip extraction below a path that is a file
    | NoCabinet(archive: Path)              // ValueError: 7-Zip left no cabinet file behind
    | NoPackages(path: Path)                // os.listdir of a missing AttachedContainer/packages
}
