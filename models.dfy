/** The persisted records the core reads. The relational store itself is not modelled:
    handlers receive the rows they would have queried, keyed by primary key. */
module Models {
  import opened Common

  /** A managed device row. `port`, `osType` and `managementProtocol` are nullable columns. */
  datatype Device = Device(
    id: int,
    name: string,
    vendor: string,
    isActive: bool,
    host: string,
    username: string,
    password: string,
    port: Option<int>,
    managementProtocol: Option<string>,
    osType: Option<string>)

  /** A role with the names of the permissions granted to it. */
  datatype Role = Role(name: string, permissions: set<string>)

  /** A platform user; `role` and `managerId` are nullable. */
  datatype User = User(
    id: int,
    username: string,
    isActive: bool,
    role: Option<Role>,
    managerId: Option<int>)
}
