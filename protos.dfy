/**
 * The protocol-buffer messages shared by the clients, reduced to the fields
 * the client code reads or writes. A proto3 string that was never set reads
 * as "", which is how unset strings appear here.
 */
module Protos {
  import opened Wrappers
  import opened JavaLang

  /** `Key.Level`: the privilege tier of a signing key. */
  datatype KeyLevel = Privileged | Standard | Low

  datatype Key = Key(id: string, level: KeyLevel, publicKey: string)

  datatype Alias = Alias(aliasType: string, value: string, realm: string)

  /** A member as the gateway reports it; updates are chained to `lastHash`. */
  datatype Member = Member(id: string, lastHash: string)

  /** `MemberOperation`: one change to a member's keys, aliases or recovery agent. */
  datatype MemberOperation =
    | AddKey(key: Key)
    | RemoveKey(keyId: string)
    | AddAlias(alias: Alias)
    | RemoveAlias(alias: Alias)
    | RecoveryAgent(agentId: string)

  datatype MemberOperationMetadata = AddAliasMetadata(alias: Alias)

  /** `Signature`; a builder that never sets `memberId` leaves it "". */
  datatype Signature = Signature(memberId: string, keyId: string, signature: string)

  /** `Page`: an opaque offset (an unset offset reads as "") and a record limit. */
  datatype Page = Page(offset: string, limit: int32)

  datatype SecurityMetadata = SecurityMetadata(ipAddress: string, geoLocation: string, deviceFingerprint: string)

  /** `SecurityMetadata.getDefaultInstance()`. */
  const DefaultSecurityMetadata := SecurityMetadata("", "", "")

  /** What the gateway provider is given with every call of the authenticated client. */
  datatype AuthenticationContext = AuthenticationContext(
    onBehalfOf: Option<string>,
    customerInitiated: bool,
    keyLevel: KeyLevel,
    securityMetadata: SecurityMetadata)
}
