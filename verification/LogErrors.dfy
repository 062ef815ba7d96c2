/** Errors of the write-ahead log (`engine/src/wal/error.rs`). Their texts, file
    system errors and the missing parent directory are left out. */
module LogErrors {
  import opened Bytes

  datatype WalError =
    | InvalidPayload
    | UnexpectedEof
    | CorruptEntry(position: nat)
    | InvalidHeader
    | UnsupportedVersion(found: byte)

  datatype Result<+T> = Ok(value: T) | Err(error: WalError)
}
