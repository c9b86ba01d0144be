/** The record types of Models/LineInfo.cs, Models/User.cs and Models/ConnectionLogEntry.cs. */
module Models {
  import opened Wrappers

  /** A GUID as its 128-bit value; `EmptyGuid` is `Guid.Empty`, the value of an unset `Id`. */
  type Guid = x: nat | x < 0x1_0000_0000_0000_0000_0000_0000_0000_0000

  const EmptyGuid: Guid := 0

  /** One named network endpoint. `isDefault` is the flag of which at most one record should be true. */
  datatype LineInfo = LineInfo(id: Guid, name: string, ipAddress: string, portnumber: int, isDefault: bool)

  /** The nine members of `AutherizationLevel`, in declaration order. */
  datatype AuthLevel = Admin | Foreman | Maintenance | Supervisor | Engineer | Operator | Designer | Manager | View

  /** What `Enum.GetValues<AutherizationLevel>()` returns. */
  const AuthLevels: seq<AuthLevel> := [Admin, Foreman, Maintenance, Supervisor, Engineer, Operator, Designer, Manager, View]

  datatype User = User(userId: Guid, userName: string, password: string, authLevel: AuthLevel)

  /**
   * One connection outcome for the log. `timestamp` is already the text `yyyy-MM-dd HH:mm:ss`;
   * `None` stands for a null `Message` or `Exception`.
   */
  datatype ConnectionLogEntry = ConnectionLogEntry(
    ipAddress: string,
    port: int,
    remoteEndPoint: string,
    message: Option<string>,
    timestamp: string,
    success: bool,
    exception: Option<string>)
}
