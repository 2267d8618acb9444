/** Shared vocabulary: optional values, results carrying the Python exception
    that the source would raise, and the four roles of a cluster. */
module Common {

  datatype Option<T> = None | Some(value: T)

  /** The exception classes the modelled code raises or lets propagate. */
  datatype ErrorKind =
    | ValueError
    | FileNotFoundError
    | TypeError
    | AttributeError
    | IndexError
    | KeyError
    | ZeroDivisionError
    | AwsError        // a boto3 call raised
    | RemoteError     // an SSH connection or a remote command failed
    | DeployError     // a plain `Exception(...)` raised by the orchestration code

  datatype Error = Error(kind: ErrorKind, message: string)

  datatype Result<T> = Ok(value: T) | Err(error: Error)

  /** What indexing an empty list (`nodes[0]`) raises. */
  const IndexOutOfRange := Error(IndexError, "list index out of range")

  /** The roles of a DolphinScheduler cluster, as `config['cluster']` keys. */
  datatype Role = Master | Worker | Api | Alert

  function RoleName(r: Role): (s: string)
    ensures |s| > 0
  {
    match r
    case Master => "master"
    case Worker => "worker"
    case Api => "api"
    case Alert => "alert"
  }

  /** The role order used wherever the source loops over
      `['master', 'worker', 'api', 'alert']`. */
  const RoleOrder: seq<Role> := [Master, Worker, Api, Alert]

  /** The order lists every role, each exactly once. */
  lemma RoleOrderCoversAllRoles(r: Role)
    ensures r in RoleOrder
    ensures forall i, j :: 0 <= i < j < |RoleOrder| ==> RoleOrder[i] != RoleOrder[j]
  {
  }
}
