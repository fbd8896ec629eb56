/** Values shared by the pairing modules: permission scopes, device records, peer
    identities and the messages two endpoints exchange. */
module PairingTypes {
  import opened Wrappers

  /** The permission bits of KPermissionScope; a KPermissionScopes value is a set of them. */
  datatype Scope = ViewScreen | InputControl | Clipboard | Terminal | FileTransfer

  type Scopes = set<Scope>

  /** A request (transaction) identifier. Zero stands for every string that QUuid reads as
      null; the order on the other values is the order of the identifier strings. */
  type RequestId = nat

  /** A device identifier, zero when absent. */
  type DeviceId = nat

  /** An opaque SHA-256 digest: only equality is used. */
  type Digest = nat

  datatype CommitState = Pending | Mutual

  datatype Device = Device(
    deviceId: DeviceId,
    spki: Digest,
    certificate: Digest,
    alias: string,
    advertisedName: string,
    permissionLimit: Scopes,
    pairedAt: int,
    lastAuthenticatedAt: int,
    revoked: bool,
    commitState: CommitState,
    transactionId: RequestId)

  /** The TLS peer identity; `valid` is the value of KTlsPeerIdentity::isValid. */
  datatype Peer = Peer(deviceId: DeviceId, spki: Digest, certificate: Digest, valid: bool)

  datatype Reason =
    | AuthenticationTimeout | PairingRejected | DeviceKeyChanged | DeviceRevoked
    | ChannelBindingUnavailable | ProtocolIncompatible | IdentityUnavailable | Cancelled
    | NewAuthentication

  datatype Message =
    | Hello(requestId: RequestId, deviceId: DeviceId, deviceName: string, standardMethod: bool,
            trustCommitId: RequestId, permissions: Scopes)
    | Decision(requestId: RequestId, deviceId: DeviceId, accepted: bool, permissions: Scopes)
    | Ready(requestId: RequestId, deviceId: DeviceId, permissions: Scopes)
    | Committed(requestId: RequestId, deviceId: DeviceId, permissions: Scopes)
    | Rejected(requestId: RequestId, reason: Reason)

  datatype MessageType = HelloType | DecisionType | ReadyType | CommittedType | RejectedType

  function TypeOf(m: Message): MessageType {
    match m
    case Hello(_, _, _, _, _, _) => HelloType
    case Decision(_, _, _, _) => DecisionType
    case Ready(_, _, _) => ReadyType
    case Committed(_, _, _) => CommittedType
    case Rejected(_, _) => RejectedType
  }

  /** KTlsPairingMessageCodec::isValidRejectReason; a reason outside the list travels as
      `Cancelled`. */
  function WireReason(reason: Reason): Reason {
    if reason.IdentityUnavailable? || reason.NewAuthentication? then Cancelled else reason
  }
}
