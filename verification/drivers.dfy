/** The values the file operations exchange with a storage driver: the
    account record, the driver's addition seen through the two optional
    root-folder capabilities, listed file entries, links and errors.
    A driver itself is a record of the account, the addition and two pure
    functions standing for its `List` and `Link` calls. */
module Drivers {

  /** An instant or a duration, in nanoseconds. */
  type Time = int

  datatype Option<+T> = None | Some(value: T)

  /** The errors the operations produce or pass on. `WithMessage` keeps the
      cause and adds a context tag, as errors.WithMessage does. */
  datatype Error =
    | ObjectNotFound
    | BackendError(reason: string)
    | WithMessage(cause: Error, message: string)

  datatype Result<+T> = Ok(value: T) | Err(error: Error)

  /** The part of an account's configuration the operations read: the
      mount point and the last-modified instant. */
  datatype Account = Account(virtualPath: string, modified: Time)

  /** A driver's addition: whether it implements the root-folder-id
      capability and the root-folder-path capability, with the value each
      one reports. */
  datatype Addition = Addition(rootFolderId: Option<string>, rootFolderPath: Option<string>)

  datatype File = File(name: string, size: int, modified: Time, isFolder: bool)

  /** A listed object: a plain file record, or one that also carries an id. */
  datatype FileInfo = Plain(file: File) | WithId(id: string, file: File)
  {
    function Name(): string { file.name }
  }

  datatype LinkArgs = LinkArgs(ip: string, header: map<string, seq<string>>)

  /** A resolved link; `expiration` is how long it stays valid, if the
      driver says. */
  datatype Link = Link(url: string, header: map<string, seq<string>>, expiration: Option<Time>)

  /** A configured storage: its account, its addition, and what its `List`
      and `Link` calls return for each argument. */
  datatype Driver = Driver(
    account: Account,
    addition: Addition,
    list: string -> Result<seq<FileInfo>>,
    link: (string, LinkArgs) -> Result<Link>)
}
