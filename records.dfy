/** The entities shared by the batch pipeline, the formatting helpers and the
    mode state: a selected file, a decoded image, and one batch entry. */
module Records {
  import opened Classification

  /** The properties of a browser `File` that the front end reads: the name,
      byte size and modification time used as a fingerprint, and the MIME type. */
  datatype FileInfo = FileInfo(name: string, size: nat, lastModified: int, mimeType: string)

  /** A decoded image; which pixels it holds is determined by its file. */
  datatype Image = Image(file: FileInfo)

  /** One entry of the batch result list: a complete classification, or the
      message of the error that stopped this file. */
  datatype BatchItem =
    | Classified(filename: string, file: FileInfo, classifications: Triple)
    | Failed(filename: string, file: FileInfo, error: string)
}
