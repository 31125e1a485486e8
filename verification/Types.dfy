/** Identities and values shared by every part of the relay model. */
module RelayTypes {

  datatype Option<+T> = None | Some(value: T)

  type Tenant = string
  type Token = string
  type JobId = string
  type Path = string
  type Time = int  // milliseconds

  /** An index root of a tenant. The lifecycle tool uses the root id as workspace id. */
  datatype Root = Root(tenant: Tenant, name: string)

  /** What the relay stores about one file; upstream content is identified by it. */
  datatype Entry = Entry(hash: string, size: int)

  type Snapshot = map<Path, Entry>
}
