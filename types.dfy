/** The shared record of the system: the file operation a provider
    proposes. */
module Types {
  /** One proposed operation. `action` is one of "read", "write", "create",
      "scan"; `mode` one of "replace", "insert", "append" for writes. An
      absent JSON field is the empty string or 0, as in Go. */
  datatype FileOperation = FileOperation(
    action: string,
    path: string,
    content: string,
    mode: string,
    oldText: string,
    offset: int)

  /** The zero value `types.FileOperation{}`. */
  const EmptyOperation := FileOperation("", "", "", "", "", 0)
}
