/** The upload ledger's value types: where an uploaded artefact lives and
    which dataset or model owns the upload. */
module UploadTypes {
  import opened Common

  /** The storage back end that holds a file: an open string type, of which
      the program spells two values. */
  type Provider = string

  const ProviderUnknown: Provider := "unknown"
  const ProviderFileSystem: Provider := "filesystem"

  /** One stored file: the file lives at `Join(path, fileName)` on `provider`. */
  datatype FileRef = FileRef(provider: Provider, fileName: string, path: string)

  /** An upload: artefact name to file, plus at most one owning dataset or model
      (`nil` in Go is `None` here). */
  datatype Upload = Upload(
    id: string,
    files: map<string, FileRef>,
    datasetId: Option<string>,
    modelId: Option<string>)

  /** `fmt.Sprintf("%s", file)` on a FileRef struct: its fields in declaration
      order, space separated, in braces. */
  function FormatFileRef(f: FileRef): string {
    "{" + f.provider + " " + f.fileName + " " + f.path + "}"
  }
}
