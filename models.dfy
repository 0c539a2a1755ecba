/** Option and Result, the failure channel used instead of Python exceptions. */
module Results {

  datatype Option<+T> = None | Some(value: T)

  datatype Result<+T, +E> = Success(value: T) | Failure(error: E)
}

/**
 * The patch document produced by the parser and consumed by the applier:
 * an ordered list of hunks, each adding, deleting or updating one file.
 * Paths are kept as the text the patch declares.
 */
module Models {
  import opened Results

  /** One localized change inside an Update hunk. */
  datatype UpdateFileChunk = UpdateFileChunk(
    oldLines: seq<string>,
    newLines: seq<string>,
    changeContext: Option<string>,
    isEndOfFile: bool)

  datatype Hunk =
    | AddFile(path: string, content: string)
    | DeleteFile(path: string)
    | UpdateFile(path: string, moveTo: Option<string>, chunks: seq<UpdateFileChunk>)

  datatype Patch = Patch(hunks: seq<Hunk>)

  /** The parser's `ValueError`s; a line number is a 1-based line of the patch text. */
  datatype ParseError =
    | EmptyPatch
    | NoFilesModified
    | InvalidHunkHeader(line: nat, text: string)
    | EmptyUpdateHunk(line: nat, path: string)
    | MissingContextMarker(line: nat, text: string)
    | EmptyChunk(line: nat)
}
