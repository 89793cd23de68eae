/**
 * The authenticated client of the older SDK: an on-behalf-of access token
 * kept in a field and copied into the process-wide authentication context
 * before account-data reads, member updates carrying one operation each,
 * pages whose offset is a decimal numeral, and requests signed with the
 * client's secret key.
 */
module LegacyRpcClient {
  import opened Wrappers
  import opened JavaLang
  import opened Protos

  /** The process-wide `AuthenticationContext` holder; its on-behalf-of value is static state in the SDK. */
  class AuthenticationContextHolder {
    var onBehalfOf: Option<string>

    constructor()
      ensures onBehalfOf.None?
    {
      onBehalfOf := None;
    }
  }

  datatype Token = Token(id: string, payload: string)

  datatype TokenAction = Endorsed | Cancelled

  /** A member-update operation of the older protocol: one per update. */
  datatype LegacyOperation =
    | AddKeyOperation(publicKey: string, level: KeyLevel)
    | RemoveKeyOperation(keyId: string)
    | AddAliasOperation(alias: string)
    | RemoveAliasOperation(alias: string)

  datatype LegacyMemberUpdate = LegacyMemberUpdate(memberId: string, prevHash: string, operation: LegacyOperation)

  /** What the secret key signs. */
  datatype Signable =
    | TokenSignable(token: Token, action: TokenAction)
    | PaymentSignable(payment: string)
    | AddressSignable(address: string)
    | UpdateSignable(update: LegacyMemberUpdate)

  /** `SecretKey`: its id, and `Crypto.sign` with it. */
  datatype SecretKey = SecretKey(id: string, sign: Signable -> string)

  /** The public calls of the older client. */
  datatype LegacyCall =
    | GetMember
    | AddKey(keyMember: Member, level: KeyLevel, publicKey: seq<bv8>)
    | RemoveKey(keyMember: Member, keyId: string)
    | AliasExists(existingAlias: string)
    | AddAlias(aliasMember: Member, alias: string)
    | RemoveAlias(aliasMember: Member, alias: string)
    | SubscribeDevice(provider: string, notificationUri: string, platform: string, tags: seq<string>)
    | UnsubscribeDevice(provider: string, notificationUri: string)
    | LinkAccounts(bankId: string, accountLinkPayload: string)
    | GetAccount(accountId: string)
    | GetAccounts
    | SetAccountName(accountId: string, accountName: string)
    | CreatePaymentToken(tokenPayload: string)
    | CreateAccessToken(tokenPayload: string)
    | GetPaymentToken(tokenId: string)
    | GetPaymentTokens(offset: int32, limit: int32)
    | EndorsePaymentToken(token: Token)
    | CancelPaymentToken(token: Token)
    | RedeemPaymentToken(payment: string)
    | GetBalance(accountId: string)
    | GetPayment(paymentId: string)
    | GetPayments(offset: int32, limit: int32, paymentTokenId: Option<string>)
    | GetTransaction(accountId: string, transactionId: string)
    | GetTransactions(accountId: string, offset: int32, limit: int32)
    | AddAddress(name: string, address: string)
    | GetAddress(addressId: string)
    | GetAddresses
    | DeleteAddress(addressId: string)
  {
    /** The account-data reads, which first propagate the on-behalf-of token. */
    predicate SetsAuthenticationContext() {
      GetAccount? || GetAccounts? || GetBalance? || GetTransaction? || GetTransactions?
      || GetAddress? || GetAddresses?
    }

    predicate UpdatesMember() {
      AddKey? || RemoveKey? || AddAlias? || RemoveAlias?
    }

    /** The member whose update an update call chains to. */
    function UpdatedMember(): (m: Member)
      requires UpdatesMember()
    {
      if AddKey? || RemoveKey? then keyMember else aliasMember
    }
  }

  /**
   * The gateway request each call sends. The requests whose shape the
   * client decides are spelled out; every other call forwards its arguments
   * field for field.
   */
  datatype Request =
    | UpdateMemberRequest(update: LegacyMemberUpdate, updateSignature: Signature)
    | GetPaymentTokensRequest(page: Page)
    | GetPaymentsRequest(page: Page, tokenId: string)
    | GetTransactionsRequest(accountId: string, page: Page)
    | EndorsePaymentTokenRequest(tokenId: string, signature: Signature)
    | CancelPaymentTokenRequest(tokenId: string, signature: Signature)
    | RedeemPaymentTokenRequest(payload: string, payloadSignature: Signature)
    | AddAddressRequest(name: string, data: string, dataSignature: Signature)
    | Forwarded(call: LegacyCall)
  {
    predicate Signed() {
      UpdateMemberRequest? || EndorsePaymentTokenRequest? || CancelPaymentTokenRequest?
      || RedeemPaymentTokenRequest? || AddAddressRequest?
    }

    function SignatureOf(): (s: Signature)
      requires Signed()
    {
      match this
      case UpdateMemberRequest(_, s) => s
      case EndorsePaymentTokenRequest(_, s) => s
      case CancelPaymentTokenRequest(_, s) => s
      case RedeemPaymentTokenRequest(_, s) => s
      case AddAddressRequest(_, _, s) => s
    }

    predicate Paged() {
      GetPaymentTokensRequest? || GetPaymentsRequest? || GetTransactionsRequest?
    }
  }

  /** `io.token.rpc.Client` of the older SDK. */
  class LegacyClient {
    const key: SecretKey
    var onBehalfOf: Option<string>

    constructor(key: SecretKey)
      ensures this.key == key && onBehalfOf.None?
    {
      this.key := key;
      onBehalfOf := None;
    }

    /** `useAccessToken(id)`. */
    method UseAccessToken(accessTokenId: string)
      modifies this`onBehalfOf
      ensures onBehalfOf == Some(accessTokenId)
    {
      onBehalfOf := Some(accessTokenId);
    }

    /** `clearAccessToken()`. */
    method ClearAccessToken()
      modifies this`onBehalfOf
      ensures onBehalfOf.None?
    {
      onBehalfOf := None;
    }

    /** `setAuthenticationContext()`: copies the token into the global context only when one is set. */
    method SetAuthenticationContext(context: AuthenticationContextHolder)
      modifies context`onBehalfOf
      ensures onBehalfOf.Some? ==> context.onBehalfOf == onBehalfOf
      ensures onBehalfOf.None? ==> context.onBehalfOf == old(context.onBehalfOf)
    {
      if onBehalfOf.Some? {
        context.onBehalfOf := onBehalfOf;
      }
    }

    /** The signature this client puts on what it signs: its key id and `Crypto.sign`; no member id. */
    function SignatureFor(payload: Signable): (s: Signature) {
      Signature("", key.id, key.sign(payload))
    }

    /** The page of the older API: `Integer.toString(offset)` and the limit. */
    static function DecimalPage(offset: int32, limit: int32): (page: Page)
      ensures page.offset == IntegerToString(offset)
      ensures ParseDecimal(page.offset) == Some(offset as int)
      ensures page.limit == limit
    {
      IntegerToStringRoundTrip(offset);
      Page(IntegerToString(offset), limit)
    }

    /** The operation an update call carries; `encode` is `ByteEncoding.serialize`. */
    static function OperationFor(call: LegacyCall, encode: seq<bv8> -> string): (op: LegacyOperation)
      requires call.UpdatesMember()
      ensures call.AddKey? ==> op == AddKeyOperation(encode(call.publicKey), call.level)
      ensures call.RemoveKey? ==> op == RemoveKeyOperation(call.keyId)
      ensures call.AddAlias? ==> op == AddAliasOperation(call.alias)
      ensures call.RemoveAlias? ==> op == RemoveAliasOperation(call.alias)
    {
      match call
      case AddKey(_, level, publicKey) => AddKeyOperation(encode(publicKey), level)
      case RemoveKey(_, keyId) => RemoveKeyOperation(keyId)
      case AddAlias(_, alias) => AddAliasOperation(alias)
      case RemoveAlias(_, alias) => RemoveAliasOperation(alias)
    }

    /** The request a call sends to the gateway. */
    function RequestFor(call: LegacyCall, encode: seq<bv8> -> string): (r: Request)
      ensures r.Signed() ==> r.SignatureOf().keyId == key.id && r.SignatureOf().memberId == ""
      ensures call.UpdatesMember() <==> r.UpdateMemberRequest?
      ensures call.UpdatesMember() ==>
        r.update == LegacyMemberUpdate(call.UpdatedMember().id, call.UpdatedMember().lastHash, OperationFor(call, encode))
      ensures r.UpdateMemberRequest? ==> r.updateSignature.signature == key.sign(UpdateSignable(r.update))
      ensures call.GetPaymentTokens? || call.GetPayments? || call.GetTransactions? <==> r.Paged()
      ensures r.Paged() ==> ParseDecimal(r.page.offset) == Some(call.offset as int) && r.page.limit == call.limit
      ensures r.Paged() ==> r.page == DecimalPage(call.offset, call.limit)
      ensures call.GetPaymentTokens? ==> r.GetPaymentTokensRequest?
      ensures call.GetPayments? ==> r.GetPaymentsRequest?
      ensures call.GetPayments? && call.paymentTokenId.Some? ==> r.tokenId == call.paymentTokenId.value
      ensures call.GetPayments? && call.paymentTokenId.None? ==> r.tokenId == ""
      ensures call.GetTransactions? ==> r.GetTransactionsRequest? && r.accountId == call.accountId
      ensures call.EndorsePaymentToken? ==>
        r == EndorsePaymentTokenRequest(call.token.id, SignatureFor(TokenSignable(call.token, Endorsed)))
      ensures call.CancelPaymentToken? ==>
        r == CancelPaymentTokenRequest(call.token.id, SignatureFor(TokenSignable(call.token, Cancelled)))
      ensures call.RedeemPaymentToken? ==>
        r == RedeemPaymentTokenRequest(call.payment, SignatureFor(PaymentSignable(call.payment)))
      ensures call.AddAddress? ==>
        r == AddAddressRequest(call.name, call.address, SignatureFor(AddressSignable(call.address)))
    {
      if call.UpdatesMember() then UpdateRequest(call.UpdatedMember(), OperationFor(call, encode))
      else if call.GetPaymentTokens? then GetPaymentTokensRequest(DecimalPage(call.offset, call.limit))
      else if call.GetPayments? then
        GetPaymentsRequest(DecimalPage(call.offset, call.limit),
                           if call.paymentTokenId.Some? then call.paymentTokenId.value else "")
      else if call.GetTransactions? then GetTransactionsRequest(call.accountId, DecimalPage(call.offset, call.limit))
      else if call.EndorsePaymentToken? then
        EndorsePaymentTokenRequest(call.token.id, SignatureFor(TokenSignable(call.token, Endorsed)))
      else if call.CancelPaymentToken? then
        CancelPaymentTokenRequest(call.token.id, SignatureFor(TokenSignable(call.token, Cancelled)))
      else if call.RedeemPaymentToken? then
        RedeemPaymentTokenRequest(call.payment, SignatureFor(PaymentSignable(call.payment)))
      else if call.AddAddress? then
        AddAddressRequest(call.name, call.address, SignatureFor(AddressSignable(call.address)))
      else Forwarded(call)
    }

    /** The private `updateMember(update)`: the update, signed with this client's key. */
    function UpdateRequest(member: Member, operation: LegacyOperation): (r: Request)
      ensures r.UpdateMemberRequest? && r.update == LegacyMemberUpdate(member.id, member.lastHash, operation)
      ensures r.updateSignature.keyId == key.id && r.updateSignature.memberId == ""
      ensures r.updateSignature.signature == key.sign(UpdateSignable(r.update))
    {
      var update := LegacyMemberUpdate(member.id, member.lastHash, operation);
      UpdateMemberRequest(update, SignatureFor(UpdateSignable(update)))
    }

    /**
     * Issuing a call: account-data reads first propagate the on-behalf-of
     * token; then the call's request goes to the gateway.
     */
    method Send(call: LegacyCall, encode: seq<bv8> -> string, context: AuthenticationContextHolder)
      returns (request: Request)
      modifies context`onBehalfOf
      ensures request == RequestFor(call, encode)
      ensures call.SetsAuthenticationContext() && onBehalfOf.Some? ==> context.onBehalfOf == onBehalfOf
      ensures !(call.SetsAuthenticationContext() && onBehalfOf.Some?) ==> context.onBehalfOf == old(context.onBehalfOf)
    {
      if call.SetsAuthenticationContext() {
        SetAuthenticationContext(context);
      }
      request := RequestFor(call, encode);
    }
  }

  /**
   * Clearing the token does not clear the global context: after a read with
   * a token and `clearAccessToken`, the next read leaves the earlier token
   * in place. Only this client's own writes to the context are modelled; no
   * other reader or writer of it runs in between.
   */
  method ReadAfterClear(client: LegacyClient, context: AuthenticationContextHolder,
                        accessTokenId: string, accountId: string, encode: seq<bv8> -> string)
    returns (request: Request)
    modifies client, context
    ensures client.onBehalfOf.None?
    ensures context.onBehalfOf == Some(accessTokenId)
    ensures request == Forwarded(GetAccount(accountId))
  {
    client.UseAccessToken(accessTokenId);
    var first := client.Send(GetAccount(accountId), encode, context);
    client.ClearAccessToken();
    request := client.Send(GetAccount(accountId), encode, context);
  }
}
