/** The closed enumerations of the protocol and their policy tables. */
module Tables {
  import opened Base

  datatype Version = Version(major: nat, minor: nat)

  /** Lexicographic order on (major, minor). */
  predicate Before(a: Version, b: Version) {
    a.major < b.major || (a.major == b.major && a.minor < b.minor)
  }

  const MINIMUM_VERSION := Version(1, 0)
  const CURRENT_VERSION := Version(1, 3)
  const WINDOWS_HELLO_VERSION := Version(1, 1)
  const PASSKEY_PROVIDER_VERSION := Version(1, 2)
  const BROWSER_FILL_VERSION := Version(1, 3)

  const FEATURE_WINDOWS_HELLO: nat := 1
  const FEATURE_PASSKEY_PROVIDER: nat := 2
  const FEATURE_BROWSER_FILL: nat := 3

  const MAX_PAYLOAD_BYTES: nat := 65536
  const MIN_NEGOTIATED_PAYLOAD_BYTES: nat := 21
  const MAX_IN_FLIGHT_PER_CONNECTION: nat := 4
  const MAX_IN_FLIGHT_GLOBAL: nat := 32
  const MAX_CONNECTIONS: nat := 8

  datatype ClientRole = Desktop | NativeHost | PasskeyProvider

  datatype AgentState = Starting | NoVault | Locked | Unlocking | Unlocked | Updating | ShuttingDown

  datatype OperationCode =
    | Status | CreateVault | UnlockMasterPassword | Lock
    | ListAccountSummaries | GetAccount | AddAccount | UpdateAccount | DeleteAccount
    | EnrollWindowsHello | RemoveWindowsHello | UnlockWindowsHello
    | ExactOriginMatches | GetSelectedCredential | CaptureCredential | UpdateCredential
    | MakePasskey | GetPasskeyAssertion | DeletePasskey | ListPasskeysForAssertion | ListPasskeys
    | RollbackPasskeyCreation | ConfirmPasskeyCreation

  datatype ErrorCode =
    | InvalidRequest | UnauthorizedOperation | VaultLocked | NotFound | Conflict | Busy
    | RequestCancelled | DeadlineExceeded | AgentUnavailable | Incompatible | OperationFailed

  datatype RetryCategory = Never | Reconnect | AfterUnlock | Backoff

  /** The wire number of an operation. */
  function Code(op: OperationCode): nat {
    match op
    case Status => 1
    case CreateVault => 2
    case UnlockMasterPassword => 3
    case Lock => 4
    case ListAccountSummaries => 5
    case GetAccount => 6
    case AddAccount => 7
    case UpdateAccount => 8
    case DeleteAccount => 9
    case EnrollWindowsHello => 10
    case RemoveWindowsHello => 11
    case UnlockWindowsHello => 12
    case ExactOriginMatches => 20
    case GetSelectedCredential => 21
    case CaptureCredential => 22
    case UpdateCredential => 23
    case MakePasskey => 30
    case GetPasskeyAssertion => 31
    case DeletePasskey => 32
    case ListPasskeysForAssertion => 33
    case ListPasskeys => 34
    case RollbackPasskeyCreation => 35
    case ConfirmPasskeyCreation => 36
  }

  function FromCode(n: nat): (r: Option<OperationCode>)
    ensures r.Some? <==> 1 <= n <= 12 || 20 <= n <= 23 || 30 <= n <= 36
    ensures r.Some? ==> Code(r.value) == n
  {
    match n
    case 1 => Some(Status)
    case 2 => Some(CreateVault)
    case 3 => Some(UnlockMasterPassword)
    case 4 => Some(Lock)
    case 5 => Some(ListAccountSummaries)
    case 6 => Some(GetAccount)
    case 7 => Some(AddAccount)
    case 8 => Some(UpdateAccount)
    case 9 => Some(DeleteAccount)
    case 10 => Some(EnrollWindowsHello)
    case 11 => Some(RemoveWindowsHello)
    case 12 => Some(UnlockWindowsHello)
    case 20 => Some(ExactOriginMatches)
    case 21 => Some(GetSelectedCredential)
    case 22 => Some(CaptureCredential)
    case 23 => Some(UpdateCredential)
    case 30 => Some(MakePasskey)
    case 31 => Some(GetPasskeyAssertion)
    case 32 => Some(DeletePasskey)
    case 33 => Some(ListPasskeysForAssertion)
    case 34 => Some(ListPasskeys)
    case 35 => Some(RollbackPasskeyCreation)
    case 36 => Some(ConfirmPasskeyCreation)
    case _ => None
  }

  predicate IsAuthorizedFor(op: OperationCode, role: ClientRole) {
    match role
    case Desktop =>
      op in {Status, CreateVault, UnlockMasterPassword, Lock, ListAccountSummaries, GetAccount,
             AddAccount, UpdateAccount, DeleteAccount, EnrollWindowsHello, RemoveWindowsHello,
             UnlockWindowsHello, DeletePasskey, ListPasskeys}
    case NativeHost =>
      op in {Status, ExactOriginMatches, GetSelectedCredential, CaptureCredential, UpdateCredential}
    case PasskeyProvider =>
      op in {Status, MakePasskey, GetPasskeyAssertion, ListPasskeysForAssertion,
             RollbackPasskeyCreation, ConfirmPasskeyCreation}
  }

  predicate RequiresIdempotencyKey(op: OperationCode) {
    op.CreateVault? || op.AddAccount? || op.UpdateAccount? || op.DeleteAccount?
    || op.EnrollWindowsHello? || op.RemoveWindowsHello? || op.CaptureCredential?
    || op.UpdateCredential? || op.MakePasskey? || op.GetPasskeyAssertion? || op.DeletePasskey?
    || op.RollbackPasskeyCreation? || op.ConfirmPasskeyCreation?
  }

  predicate RequiresUnlockedEpoch(op: OperationCode) {
    !(op.Status? || op.CreateVault? || op.UnlockMasterPassword? || op.Lock? || op.UnlockWindowsHello?)
  }

  function RequiredFeature(op: OperationCode): Option<nat> {
    match op
    case ExactOriginMatches | GetSelectedCredential => Some(FEATURE_BROWSER_FILL)
    case EnrollWindowsHello | RemoveWindowsHello | UnlockWindowsHello => Some(FEATURE_WINDOWS_HELLO)
    case MakePasskey | GetPasskeyAssertion | DeletePasskey | ListPasskeysForAssertion
       | ListPasskeys | RollbackPasskeyCreation | ConfirmPasskeyCreation => Some(FEATURE_PASSKEY_PROVIDER)
    case _ => None
  }

  /** The first protocol version that defines a feature's operations. */
  function FeatureVersion(feature: nat): Version {
    if feature == FEATURE_BROWSER_FILL then BROWSER_FILL_VERSION
    else if feature == FEATURE_PASSKEY_PROVIDER then PASSKEY_PROVIDER_VERSION
    else if feature == FEATURE_WINDOWS_HELLO then WINDOWS_HELLO_VERSION
    else MINIMUM_VERSION
  }

  datatype MessageKind = ClientHello | ServerHello | Request | Response | Cancel | Event

  /** One frame header. The 16-byte connection identifier is read as a number. */
  datatype FrameHeader = FrameHeader(
    kind: MessageKind, version: Version, payloadLength: nat, connectionId: nat, requestId: nat)

  datatype RequestEnvelope = RequestEnvelope(
    operation: OperationCode, unlockEpoch: nat, timeoutMs: nat,
    idempotencyKey: Option<seq<byte>>, body: seq<byte>)
}
