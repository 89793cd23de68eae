/**
 * The authenticated client of the current SDK: the authentication context
 * it hands to the gateway with each call, the tracking metadata it carries,
 * the member-update request it signs, and the mapping of gateway responses
 * to values or step-up errors. Each gateway call is a function from
 * (context, request) to response supplied by the caller.
 */
module RpcClient {
  import opened Wrappers
  import opened JavaLang
  import opened Protos

  datatype RequestStatus = InvalidRequest | SuccessfulRequest | MoreSignaturesNeeded

  datatype Money = Money(currency: string, value: string)
  datatype Balance = Balance(accountId: string, current: Money, available: Money)
  datatype Transaction = Transaction(id: string, amount: Money, description: string)

  datatype GetBalanceRequest = GetBalanceRequest(accountId: string)
  datatype GetBalancesRequest = GetBalancesRequest(accountIds: seq<string>)
  datatype GetTransactionRequest = GetTransactionRequest(accountId: string, transactionId: string)
  datatype GetTransactionsRequest = GetTransactionsRequest(accountId: string, page: Page)

  datatype GetBalanceResponse = GetBalanceResponse(balance: Balance, status: RequestStatus)
  datatype GetBalancesResponse = GetBalancesResponse(responses: seq<GetBalanceResponse>)
  datatype GetTransactionResponse = GetTransactionResponse(transaction: Transaction, status: RequestStatus)
  datatype GetTransactionsResponse = GetTransactionsResponse(transactions: seq<Transaction>, offset: string, status: RequestStatus)

  datatype PagedList<T> = PagedList(list: seq<T>, offset: string)

  /** A value, or the `StepUpRequiredException` raised when the key level did not suffice. */
  datatype StepUp<T> = Value(value: T) | StepUpRequired(message: string)

  /** The mapping in `getBalance`. */
  function BalanceResult(response: GetBalanceResponse): (r: StepUp<Balance>)
    ensures r.Value? <==> response.status == SuccessfulRequest
    ensures r.Value? ==> r.value == response.balance
    ensures r.StepUpRequired? ==> r.message == "Balance step up required."
  {
    if response.status == SuccessfulRequest then Value(response.balance)
    else StepUpRequired("Balance step up required.")
  }

  /** The mapping in `getTransaction`. */
  function TransactionResult(response: GetTransactionResponse): (r: StepUp<Transaction>)
    ensures r.Value? <==> response.status == SuccessfulRequest
    ensures r.Value? ==> r.value == response.transaction
    ensures r.StepUpRequired? ==> r.message == "Transaction step up required."
  {
    if response.status == SuccessfulRequest then Value(response.transaction)
    else StepUpRequired("Transaction step up required.")
  }

  /** The mapping in `getTransactions`: the page of transactions and the offset of the next page. */
  function TransactionsResult(response: GetTransactionsResponse): (r: StepUp<PagedList<Transaction>>)
    ensures r.Value? <==> response.status == SuccessfulRequest
    ensures r.Value? ==> r.value.list == response.transactions && r.value.offset == response.offset
    ensures r.StepUpRequired? ==> r.message == "Transactions step up required."
  {
    if response.status == SuccessfulRequest then Value(PagedList(response.transactions, response.offset))
    else StepUpRequired("Transactions step up required.")
  }

  /** The balances of the successful responses, in response order. */
  function SuccessfulBalances(responses: seq<GetBalanceResponse>): (balances: seq<Balance>) {
    if responses == [] then [] else Kept(responses[0]) + SuccessfulBalances(responses[1..])
  }

  /** What one response contributes to `getBalances`. */
  function Kept(response: GetBalanceResponse): (kept: seq<Balance>) {
    if response.status == SuccessfulRequest then [response.balance] else []
  }

  /** Filtering the concatenation of two response lists concatenates the filtered lists: order is kept. */
  lemma {:induction false} SuccessfulBalancesAppend(a: seq<GetBalanceResponse>, b: seq<GetBalanceResponse>)
    ensures SuccessfulBalances(a + b) == SuccessfulBalances(a) + SuccessfulBalances(b)
    decreases |a|
  {
    if a == [] {
      assert a + b == b;
    } else {
      var ab := a + b;
      assert ab[0] == a[0];
      assert ab[1..] == a[1..] + b;
      SuccessfulBalancesAppend(a[1..], b);
      assert SuccessfulBalances(ab) == Kept(a[0]) + (SuccessfulBalances(a[1..]) + SuccessfulBalances(b));
      assert Kept(a[0]) + (SuccessfulBalances(a[1..]) + SuccessfulBalances(b))
          == (Kept(a[0]) + SuccessfulBalances(a[1..])) + SuccessfulBalances(b);
    }
  }

  /** A balance is kept exactly when some successful response carries it. */
  lemma {:induction false} SuccessfulBalancesMembership(responses: seq<GetBalanceResponse>, b: Balance)
    ensures b in SuccessfulBalances(responses)
        <==> exists i :: 0 <= i < |responses| && responses[i].status == SuccessfulRequest && responses[i].balance == b
    decreases |responses|
  {
    if responses != [] {
      SuccessfulBalancesMembership(responses[1..], b);
      if b in SuccessfulBalances(responses[1..]) {
        var i :| 0 <= i < |responses[1..]| && responses[1..][i].status == SuccessfulRequest && responses[1..][i].balance == b;
        assert responses[i + 1] == responses[1..][i];
      }
      if exists i :: 0 <= i < |responses| && responses[i].status == SuccessfulRequest && responses[i].balance == b {
        var i :| 0 <= i < |responses| && responses[i].status == SuccessfulRequest && responses[i].balance == b;
        if i > 0 {
          assert responses[1..][i - 1] == responses[i];
        }
      }
    }
  }

  /** `getBalances` keeps exactly the responses `getBalance` would have turned into a value. */
  lemma {:induction false} SuccessfulBalancesAgreeWithGetBalance(responses: seq<GetBalanceResponse>)
    ensures |SuccessfulBalances(responses)| <= |responses|
    ensures (forall i :: 0 <= i < |responses| ==> BalanceResult(responses[i]).Value?)
        ==> SuccessfulBalances(responses) == seq(|responses|, i requires 0 <= i < |responses| => responses[i].balance)
    ensures (forall i :: 0 <= i < |responses| ==> BalanceResult(responses[i]).StepUpRequired?)
        ==> SuccessfulBalances(responses) == []
    decreases |responses|
  {
    if responses != [] {
      SuccessfulBalancesAgreeWithGetBalance(responses[1..]);
      assert forall i :: 0 <= i < |responses[1..]| ==> responses[1..][i] == responses[i + 1];
    }
  }

  /** The calls of the client that talk to the gateway with an authentication context. */
  datatype Call =
    | GetMember | UpdateMember | UseDefaultRecoveryRule
    | GetAccount | GetAccounts | ResolveTransferDestinations
    | GetBalance(balanceLevel: KeyLevel) | GetBalances(balancesLevel: KeyLevel)
    | GetTransaction(transactionLevel: KeyLevel) | GetTransactions(transactionsLevel: KeyLevel)
    | GetBankInfo | GetAliases | RetryVerification | GetDefaultAgent | VerifyAlias | DeleteMember
  {
    /** The account-data reads, which go through `onBehalfOf(...)`. */
    predicate ReadsAccountData() {
      GetAccount? || GetAccounts? || ResolveTransferDestinations?
      || GetBalance? || GetBalances? || GetTransaction? || GetTransactions?
    }

    /** The key level the call asks for: the caller's for balances and transactions, PRIVILEGED to delete, LOW otherwise. */
    function RequiredLevel(): (level: KeyLevel) {
      match this
      case GetBalance(level) => level
      case GetBalances(level) => level
      case GetTransaction(level) => level
      case GetTransactions(level) => level
      case DeleteMember => Privileged
      case _ => Low
    }
  }

  datatype MemberUpdate = MemberUpdate(memberId: string, prevHash: string, operations: seq<MemberOperation>)

  datatype UpdateMemberRequest = UpdateMemberRequest(
    update: MemberUpdate,
    updateSignature: Signature,
    metadata: seq<MemberOperationMetadata>)

  /** What `updateMember` does: answer at once with the member, or send a request under a context. */
  datatype UpdateCall = Immediate(member: Member) | Send(context: AuthenticationContext, request: UpdateMemberRequest)

  /** A signer of the crypto engine: its key id and its signature over an update. */
  datatype Signer = Signer(keyId: string, sign: MemberUpdate -> string)

  /** The member's crypto engine, reduced to the signer it creates for a key level. */
  datatype CryptoEngine = CryptoEngine(createSigner: KeyLevel -> Signer)

  /** `PageBuilder`: the limit always; the offset only when one is given. */
  function PageFor(offset: Option<string>, limit: int32): (page: Page)
    ensures page.limit == limit
    ensures offset.Some? ==> page.offset == offset.value
    ensures offset.None? ==> page.offset == ""
  {
    var page := Page("", limit);
    if offset.Some? then page.(offset := offset.value) else page
  }

  /** `io.token.rpc.Client` of the current SDK. */
  class Client {
    const memberId: string
    const crypto: CryptoEngine
    var customerInitiated: bool
    var securityMetadata: SecurityMetadata

    constructor(memberId: string, crypto: CryptoEngine)
      ensures this.memberId == memberId && this.crypto == crypto
      ensures !customerInitiated && securityMetadata == DefaultSecurityMetadata
    {
      this.memberId := memberId;
      this.crypto := crypto;
      customerInitiated := false;
      securityMetadata := DefaultSecurityMetadata;
    }

    /** `authenticationContext(level)`. */
    function AuthenticationContextAt(level: KeyLevel): (context: AuthenticationContext)
      reads this
      ensures context.onBehalfOf.None? && !context.customerInitiated
      ensures context.keyLevel == level && context.securityMetadata == securityMetadata
    {
      AuthenticationContext(None, false, level, securityMetadata)
    }

    /** `onBehalfOf(level)`. */
    function OnBehalfOf(level: KeyLevel): (context: AuthenticationContext)
      reads this
      ensures context == AuthenticationContextAt(level).(customerInitiated := customerInitiated)
    {
      AuthenticationContext(None, customerInitiated, level, securityMetadata)
    }

    /**
     * The context each call is made under: never on behalf of anyone, the
     * client's current tracking metadata, the customer-initiated flag only
     * for account-data reads, and the call's key level.
     */
    function ContextFor(call: Call): (context: AuthenticationContext)
      reads this
      ensures context.onBehalfOf.None?
      ensures context.securityMetadata == securityMetadata
      ensures context.customerInitiated <==> call.ReadsAccountData() && customerInitiated
      ensures context.keyLevel == call.RequiredLevel()
      ensures call == DeleteMember ==> context.keyLevel == Privileged
    {
      if call.ReadsAccountData() then OnBehalfOf(call.RequiredLevel())
      else AuthenticationContextAt(call.RequiredLevel())
    }

    /** `setTrackingMetadata(m)`: every later call carries `m`. */
    method SetTrackingMetadata(metadata: SecurityMetadata)
      modifies this`securityMetadata
      ensures securityMetadata == metadata
      ensures forall call :: ContextFor(call).securityMetadata == metadata
    {
      securityMetadata := metadata;
    }

    /** `clearTrackingMetadata()`: back to the default instance. */
    method ClearTrackingMetadata()
      modifies this`securityMetadata
      ensures securityMetadata == DefaultSecurityMetadata
      ensures forall call :: ContextFor(call).securityMetadata == DefaultSecurityMetadata
    {
      securityMetadata := DefaultSecurityMetadata;
    }

    /**
     * `updateMember(member, operations, metadata)`: nothing is sent for an
     * empty operation list; otherwise one update chained to the member's last
     * hash, signed by this member with its PRIVILEGED signer.
     */
    function UpdateMember(member: Member, operations: seq<MemberOperation>, metadata: seq<MemberOperationMetadata>): (r: UpdateCall)
      reads this
      ensures r.Immediate? <==> operations == []
      ensures r.Immediate? ==> r.member == member
      ensures r.Send? ==> r.context == ContextFor(Call.UpdateMember)
      ensures r.Send? ==> r.request.update == MemberUpdate(member.id, member.lastHash, operations)
      ensures r.Send? ==> r.request.metadata == metadata
      ensures r.Send? ==> r.request.updateSignature.memberId == memberId
      ensures r.Send? ==> r.request.updateSignature.keyId == crypto.createSigner(Privileged).keyId
      ensures r.Send? ==> r.request.updateSignature.signature == crypto.createSigner(Privileged).sign(r.request.update)
    {
      if operations == [] then Immediate(member)
      else
        var signer := crypto.createSigner(Privileged);
        var update := MemberUpdate(member.id, member.lastHash, operations);
        Send(AuthenticationContextAt(Low),
             UpdateMemberRequest(update, Signature(memberId, signer.keyId, signer.sign(update)), metadata))
    }

    /** `getBalance(accountId, level)`. */
    function GetBalance(accountId: string, keyLevel: KeyLevel,
                        gateway: (AuthenticationContext, GetBalanceRequest) -> GetBalanceResponse): (r: StepUp<Balance>)
      reads this
      ensures var response := gateway(ContextFor(Call.GetBalance(keyLevel)), GetBalanceRequest(accountId));
              (r.Value? <==> response.status == SuccessfulRequest) && (r.Value? ==> r.value == response.balance)
    {
      BalanceResult(gateway(OnBehalfOf(keyLevel), GetBalanceRequest(accountId)))
    }

    /** `getBalances(accountIds, level)`: the balances of the successful responses, in response order. */
    method GetBalances(accountIds: seq<string>, keyLevel: KeyLevel,
                       gateway: (AuthenticationContext, GetBalancesRequest) -> GetBalancesResponse)
      returns (balances: seq<Balance>)
      ensures balances == SuccessfulBalances(gateway(ContextFor(Call.GetBalances(keyLevel)), GetBalancesRequest(accountIds)).responses)
    {
      var responses := gateway(OnBehalfOf(keyLevel), GetBalancesRequest(accountIds)).responses;
      balances := [];
      var i := 0;
      while i < |responses|
        invariant 0 <= i <= |responses|
        invariant balances == SuccessfulBalances(responses[..i])
      {
        if responses[i].status == SuccessfulRequest {
          balances := balances + [responses[i].balance];
        }
        SuccessfulBalancesAppend(responses[..i], [responses[i]]);
        assert responses[..i + 1] == responses[..i] + [responses[i]];
        i := i + 1;
      }
      assert responses[..i] == responses;
    }

    /** `getTransaction(accountId, transactionId, level)`. */
    function GetTransaction(accountId: string, transactionId: string, keyLevel: KeyLevel,
                            gateway: (AuthenticationContext, GetTransactionRequest) -> GetTransactionResponse): (r: StepUp<Transaction>)
      reads this
      ensures var response := gateway(ContextFor(Call.GetTransaction(keyLevel)), GetTransactionRequest(accountId, transactionId));
              (r.Value? <==> response.status == SuccessfulRequest) && (r.Value? ==> r.value == response.transaction)
    {
      TransactionResult(gateway(OnBehalfOf(keyLevel), GetTransactionRequest(accountId, transactionId)))
    }

    /** `getTransactions(accountId, offset, limit, level)`. */
    function GetTransactions(accountId: string, offset: Option<string>, limit: int32, keyLevel: KeyLevel,
                             gateway: (AuthenticationContext, GetTransactionsRequest) -> GetTransactionsResponse)
      : (r: StepUp<PagedList<Transaction>>)
      reads this
      ensures var response := gateway(ContextFor(Call.GetTransactions(keyLevel)), GetTransactionsRequest(accountId, PageFor(offset, limit)));
              (r.Value? <==> response.status == SuccessfulRequest)
              && (r.Value? ==> r.value == PagedList(response.transactions, response.offset))
    {
      TransactionsResult(gateway(OnBehalfOf(keyLevel), GetTransactionsRequest(accountId, PageFor(offset, limit))))
    }

    /** `equals`: clients are equal exactly when their member ids are. */
    predicate Equals(other: Client?)
      ensures Equals(other) ==> other != null
      ensures other == this ==> Equals(other)
      ensures Equals(other) ==> other.HashCode() == HashCode()
    {
      other != null && memberId == other.memberId
    }

    /** `hashCode`: the member id's `String.hashCode`. */
    function HashCode(): (h: int32)
      ensures h == Wrap32(HashPolynomial(memberId))
    {
      StringHashCode(memberId)
    }
  }

  /** `equals` is an equivalence on clients and never holds for null. */
  lemma EqualsIsEquivalence(a: Client, b: Client, c: Client)
    ensures a.Equals(a)
    ensures a.Equals(b) <==> b.Equals(a)
    ensures a.Equals(b) && b.Equals(c) ==> a.Equals(c)
    ensures !a.Equals(null)
  {
  }
}
