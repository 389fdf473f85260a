/** Small types shared by the whole model. */
module Types {

  datatype Option<+T> = None | Some(value: T)

  /** Hex digest of a source file's bytes; it stands for the bytes. */
  type FileHash = string

  type JobId = string

  /** `doc_key` under one configuration: the file and whether the LLM is used (see Keys). */
  datatype DocKey = DocKey(file: FileHash, llm: bool)

  /** A page range, end exclusive; end -1 is the whole file. */
  datatype PageRange = PageRange(start: int, end: int)
}
