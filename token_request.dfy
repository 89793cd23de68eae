/**
 * Token requests and their fluent builders. A builder accumulates a
 * `TokenRequestPayload` and `TokenRequestOptions` setter by setter; `Build`
 * stamps the callback state derived from the CSRF token and the OAuth state
 * and returns the two records as a `TokenRequest`.
 *
 * A nested record that a setter reaches through `getXBuilder()` is created
 * empty when it is absent, exactly as a protobuf sub-builder is.
 */
module TokenRequests {
  import opened Wrappers
  import opened Protos

  // Messages the builder stores without looking inside.
  datatype ResourceType = ResourceType(number: nat)
  datatype ChargeBearer = ChargeBearer(number: nat)
  datatype ActingAs = ActingAs(displayName: string, refId: string, logoUrl: string, secondaryName: string)
  datatype TransferEndpoint = TransferEndpoint(accountId: string, bankId: string)
  datatype TransferDestination = TransferDestination(descriptor: string)
  datatype ProviderTransferMetadata = ProviderTransferMetadata(descriptor: string)

  /** The payer/grantor (`from`) or payee/grantee (`to`) of a request. */
  datatype TokenMember = TokenMember(id: string, alias: Option<Alias>)

  /** `TransferInstructions.Metadata`. */
  datatype InstructionsMetadata = InstructionsMetadata(
    providerTransferMetadata: Option<ProviderTransferMetadata>,
    chargeBearer: ChargeBearer,
    ultimateCreditor: string,
    ultimateDebtor: string,
    purposeCode: string)

  datatype TransferInstructions = TransferInstructions(
    source: Option<TransferEndpoint>,
    transferDestinations: seq<TransferDestination>,
    metadata: Option<InstructionsMetadata>)

  datatype TransferBody = TransferBody(
    lifetimeAmount: string,
    currency: string,
    amount: string,
    executionDate: string,
    destinations: seq<TransferEndpoint>,
    instructions: Option<TransferInstructions>)

  datatype StandingOrderBody = StandingOrderBody(
    amount: string,
    currency: string,
    frequency: string,
    startDate: string,
    endDate: string,
    instructions: Option<TransferInstructions>)

  datatype AccessBody = AccessBody(types: seq<ResourceType>)

  datatype TokenRequestPayload = TokenRequestPayload(
    userRefId: string,
    customizationId: string,
    redirectUrl: string,
    refId: string,
    to: Option<TokenMember>,
    actingAs: Option<ActingAs>,
    description: string,
    callbackState: string,
    destinationCountry: string,
    accessBody: Option<AccessBody>,
    transferBody: Option<TransferBody>,
    standingOrderBody: Option<StandingOrderBody>)

  datatype TokenRequestOptions = TokenRequestOptions(
    bankId: string,
    from: Option<TokenMember>,
    sourceAccountId: string,
    receiptRequested: bool)

  /** The immutable value `build()` returns. */
  datatype TokenRequest = TokenRequest(tokenRequestPayload: TokenRequestPayload, tokenRequestOptions: TokenRequestOptions)

  /** `TokenRequestState`: what the callback state is serialized from. */
  datatype TokenRequestState = TokenRequestState(csrfTokenHash: string, state: string)

  const EmptyTokenMember := TokenMember("", None)
  const EmptyMetadata := InstructionsMetadata(None, ChargeBearer(0), "", "", "")
  const EmptyInstructions := TransferInstructions(None, [], None)
  const EmptyTransferBody := TransferBody("", "", "", "", [], None)
  const EmptyStandingOrderBody := StandingOrderBody("", "", "", "", "", None)
  const EmptyPayload := TokenRequestPayload("", "", "", "", None, None, "", "", "", None, None, None)
  const EmptyOptions := TokenRequestOptions("", None, "", false)

  /** `fromProtos`: a token request carrying exactly the given payload and options. */
  function FromProtos(payload: TokenRequestPayload, options: TokenRequestOptions): (r: TokenRequest)
    ensures r.tokenRequestPayload == payload && r.tokenRequestOptions == options
  {
    TokenRequest(payload, options)
  }

  // ---- reading nested records, absent ones as their empty instance ----

  function FromOf(o: TokenRequestOptions): (m: TokenMember) { o.from.GetOr(EmptyTokenMember) }
  function ToOf(p: TokenRequestPayload): (m: TokenMember) { p.to.GetOr(EmptyTokenMember) }
  function InstructionsOf(i: Option<TransferInstructions>): (r: TransferInstructions) { i.GetOr(EmptyInstructions) }
  function MetadataOf(i: TransferInstructions): (m: InstructionsMetadata) { i.metadata.GetOr(EmptyMetadata) }
  function TransferBodyOf(p: TokenRequestPayload): (b: TransferBody) { p.transferBody.GetOr(EmptyTransferBody) }
  function StandingOrderBodyOf(p: TokenRequestPayload): (b: StandingOrderBody) { p.standingOrderBody.GetOr(EmptyStandingOrderBody) }
  function TransferInstructionsOf(p: TokenRequestPayload): (i: TransferInstructions) { InstructionsOf(TransferBodyOf(p).instructions) }
  function StandingOrderInstructionsOf(p: TokenRequestPayload): (i: TransferInstructions) { InstructionsOf(StandingOrderBodyOf(p).instructions) }
  function TransferMetadataOf(p: TokenRequestPayload): (m: InstructionsMetadata) { MetadataOf(TransferInstructionsOf(p)) }
  function StandingOrderMetadataOf(p: TokenRequestPayload): (m: InstructionsMetadata) { MetadataOf(StandingOrderInstructionsOf(p)) }

  // ---- writing through sub-builders ----

  /** `getFromBuilder().setId(id)`: the one `from` record gets the id and keeps its alias. */
  function WithFromMemberId(o: TokenRequestOptions, id: string): (r: TokenRequestOptions)
    ensures r.from.Some? && r.from.value.id == id && r.from.value.alias == FromOf(o).alias
    ensures r.(from := o.from) == o
  {
    o.(from := Some(FromOf(o).(id := id)))
  }

  /** `getFromBuilder().setAlias(alias)`: the one `from` record gets the alias and keeps its id. */
  function WithFromAlias(o: TokenRequestOptions, alias: Alias): (r: TokenRequestOptions)
    ensures r.from.Some? && r.from.value.alias == Some(alias) && r.from.value.id == FromOf(o).id
    ensures r.(from := o.from) == o
  {
    o.(from := Some(FromOf(o).(alias := Some(alias))))
  }

  /** `getToBuilder().setId(id)`. */
  function WithToMemberId(p: TokenRequestPayload, id: string): (r: TokenRequestPayload)
    ensures r.to.Some? && r.to.value.id == id && r.to.value.alias == ToOf(p).alias
    ensures r.(to := p.to) == p
  {
    p.(to := Some(ToOf(p).(id := id)))
  }

  /** `getToBuilder().setAlias(alias)`. */
  function WithToAlias(p: TokenRequestPayload, alias: Alias): (r: TokenRequestPayload)
    ensures r.to.Some? && r.to.value.alias == Some(alias) && r.to.value.id == ToOf(p).id
    ensures r.(to := p.to) == p
  {
    p.(to := Some(ToOf(p).(alias := Some(alias))))
  }

  /** Setting the member id and the alias of `from`, in either order, keeps both. */
  lemma FromSettersShareRecord(o: TokenRequestOptions, id: string, alias: Alias)
    ensures WithFromAlias(WithFromMemberId(o, id), alias).from == Some(TokenMember(id, Some(alias)))
    ensures WithFromMemberId(WithFromAlias(o, alias), id).from == Some(TokenMember(id, Some(alias)))
  {
  }

  /** Setting the member id and the alias of `to`, in either order, keeps both. */
  lemma ToSettersShareRecord(p: TokenRequestPayload, id: string, alias: Alias)
    ensures WithToAlias(WithToMemberId(p, id), alias).to == Some(TokenMember(id, Some(alias)))
    ensures WithToMemberId(WithToAlias(p, alias), id).to == Some(TokenMember(id, Some(alias)))
  {
  }

  /** `getTransferBodyBuilder()` followed by a change to the body's fields other than the instructions. */
  function WithTransferBody(p: TokenRequestPayload, b: TransferBody): (r: TokenRequestPayload)
    ensures r.transferBody == Some(b)
    ensures r.(transferBody := p.transferBody) == p
  {
    p.(transferBody := Some(b))
  }

  /** `getTransferBodyBuilder().getInstructionsBuilder()` followed by a change. */
  function WithTransferInstructions(p: TokenRequestPayload, i: TransferInstructions): (r: TokenRequestPayload)
    ensures r.transferBody.Some? && TransferInstructionsOf(r) == i
    ensures TransferBodyOf(r).(instructions := None) == TransferBodyOf(p).(instructions := None)
    ensures r.(transferBody := p.transferBody) == p
  {
    p.(transferBody := Some(TransferBodyOf(p).(instructions := Some(i))))
  }

  /** `getStandingOrderBodyBuilder()` followed by a change to the body's fields other than the instructions. */
  function WithStandingOrderBody(p: TokenRequestPayload, b: StandingOrderBody): (r: TokenRequestPayload)
    ensures r.standingOrderBody == Some(b)
    ensures r.(standingOrderBody := p.standingOrderBody) == p
  {
    p.(standingOrderBody := Some(b))
  }

  /** `getStandingOrderBodyBuilder().getInstructionsBuilder()` followed by a change. */
  function WithStandingOrderInstructions(p: TokenRequestPayload, i: TransferInstructions): (r: TokenRequestPayload)
    ensures r.standingOrderBody.Some? && StandingOrderInstructionsOf(r) == i
    ensures StandingOrderBodyOf(r).(instructions := None) == StandingOrderBodyOf(p).(instructions := None)
    ensures r.(standingOrderBody := p.standingOrderBody) == p
  {
    p.(standingOrderBody := Some(StandingOrderBodyOf(p).(instructions := Some(i))))
  }

  /** `getTransferBodyBuilder().getInstructionsBuilder().getMetadataBuilder()` followed by a change. */
  function WithTransferMetadata(p: TokenRequestPayload, m: InstructionsMetadata): (r: TokenRequestPayload)
    ensures r.transferBody.Some? && TransferMetadataOf(r) == m
    ensures TransferInstructionsOf(r).(metadata := None) == TransferInstructionsOf(p).(metadata := None)
    ensures TransferBodyOf(r).(instructions := None) == TransferBodyOf(p).(instructions := None)
    ensures r.(transferBody := p.transferBody) == p
  {
    WithTransferInstructions(p, TransferInstructionsOf(p).(metadata := Some(m)))
  }

  /** `getStandingOrderBodyBuilder().getInstructionsBuilder().getMetadataBuilder()` followed by a change. */
  function WithStandingOrderMetadata(p: TokenRequestPayload, m: InstructionsMetadata): (r: TokenRequestPayload)
    ensures r.standingOrderBody.Some? && StandingOrderMetadataOf(r) == m
    ensures StandingOrderInstructionsOf(r).(metadata := None) == StandingOrderInstructionsOf(p).(metadata := None)
    ensures StandingOrderBodyOf(r).(instructions := None) == StandingOrderBodyOf(p).(instructions := None)
    ensures r.(standingOrderBody := p.standingOrderBody) == p
  {
    WithStandingOrderInstructions(p, StandingOrderInstructionsOf(p).(metadata := Some(m)))
  }

  // ---- destinations ----

  /** The transfer builder's `addDestination(TransferDestination)`: one destination appended to the transfer instructions. */
  function AddTransferDestination(p: TokenRequestPayload, d: TransferDestination): (r: TokenRequestPayload)
    ensures r.transferBody.Some? && TransferBodyOf(r).instructions.Some?
    ensures TransferInstructionsOf(r).transferDestinations == TransferInstructionsOf(p).transferDestinations + [d]
    ensures TransferInstructionsOf(r).(transferDestinations := []) == TransferInstructionsOf(p).(transferDestinations := [])
    ensures TransferBodyOf(r).(instructions := None) == TransferBodyOf(p).(instructions := None)
    ensures r.(transferBody := p.transferBody) == p
  {
    var i := TransferInstructionsOf(p);
    WithTransferInstructions(p, i.(transferDestinations := i.transferDestinations + [d]))
  }

  /** The standing-order builder's `addDestination`: one destination appended to the standing order's instructions. */
  function AddStandingOrderDestination(p: TokenRequestPayload, d: TransferDestination): (r: TokenRequestPayload)
    ensures r.standingOrderBody.Some? && StandingOrderBodyOf(r).instructions.Some?
    ensures StandingOrderInstructionsOf(r).transferDestinations == StandingOrderInstructionsOf(p).transferDestinations + [d]
    ensures StandingOrderInstructionsOf(r).(transferDestinations := []) == StandingOrderInstructionsOf(p).(transferDestinations := [])
    ensures StandingOrderBodyOf(r).(instructions := None) == StandingOrderBodyOf(p).(instructions := None)
    ensures r.(standingOrderBody := p.standingOrderBody) == p
  {
    var i := StandingOrderInstructionsOf(p);
    WithStandingOrderInstructions(p, i.(transferDestinations := i.transferDestinations + [d]))
  }

  /** A chain of transfer `addDestination` calls, in call order. */
  function AddTransferDestinations(p: TokenRequestPayload, ds: seq<TransferDestination>): (r: TokenRequestPayload)
    decreases |ds|
  {
    if ds == [] then p else AddTransferDestinations(AddTransferDestination(p, ds[0]), ds[1..])
  }

  /** Destinations added one call at a time end up after the earlier ones, in call order. */
  lemma {:induction false} TransferDestinationsInCallOrder(p: TokenRequestPayload, ds: seq<TransferDestination>)
    ensures TransferInstructionsOf(AddTransferDestinations(p, ds)).transferDestinations
         == TransferInstructionsOf(p).transferDestinations + ds
    ensures AddTransferDestinations(p, ds).(transferBody := p.transferBody) == p
    decreases |ds|
  {
    if ds != [] {
      var q := AddTransferDestination(p, ds[0]);
      TransferDestinationsInCallOrder(q, ds[1..]);
      assert [ds[0]] + ds[1..] == ds;
    }
  }

  // ---- the instructions metadata, as the setters write it ----

  /** `setUltimateCreditor`, in both builders: the transfer body's metadata gets the creditor. */
  function WithUltimateCreditor(p: TokenRequestPayload, creditor: string): (r: TokenRequestPayload)
    ensures r.transferBody.Some? && TransferBodyOf(r).instructions.Some? && TransferInstructionsOf(r).metadata.Some?
    ensures TransferMetadataOf(r) == TransferMetadataOf(p).(ultimateCreditor := creditor)
    ensures TransferInstructionsOf(r).(metadata := None) == TransferInstructionsOf(p).(metadata := None)
    ensures TransferBodyOf(r).(instructions := None) == TransferBodyOf(p).(instructions := None)
    ensures r.(transferBody := p.transferBody) == p
  {
    WithTransferMetadata(p, TransferMetadataOf(p).(ultimateCreditor := creditor))
  }

  /**
   * `setUltimateDebtor`, in both builders, as written: the argument lands in
   * the ultimate-creditor field; the ultimate-debtor field is never written.
   */
  function WithUltimateDebtor(p: TokenRequestPayload, debtor: string): (r: TokenRequestPayload)
    ensures r.transferBody.Some? && TransferBodyOf(r).instructions.Some? && TransferInstructionsOf(r).metadata.Some?
    ensures TransferMetadataOf(r).ultimateCreditor == debtor
    ensures TransferMetadataOf(r).ultimateDebtor == TransferMetadataOf(p).ultimateDebtor
    ensures TransferMetadataOf(r) == TransferMetadataOf(p).(ultimateCreditor := debtor)
    ensures TransferInstructionsOf(r).(metadata := None) == TransferInstructionsOf(p).(metadata := None)
    ensures TransferBodyOf(r).(instructions := None) == TransferBodyOf(p).(instructions := None)
    ensures r.(transferBody := p.transferBody) == p
  {
    WithTransferMetadata(p, TransferMetadataOf(p).(ultimateCreditor := debtor))
  }

  /** `setPurposeCode`, in both builders: the transfer body's metadata gets the purpose code. */
  function WithPurposeCode(p: TokenRequestPayload, code: string): (r: TokenRequestPayload)
    ensures r.transferBody.Some? && TransferBodyOf(r).instructions.Some? && TransferInstructionsOf(r).metadata.Some?
    ensures TransferMetadataOf(r) == TransferMetadataOf(p).(purposeCode := code)
    ensures TransferInstructionsOf(r).(metadata := None) == TransferInstructionsOf(p).(metadata := None)
    ensures TransferBodyOf(r).(instructions := None) == TransferBodyOf(p).(instructions := None)
    ensures r.(transferBody := p.transferBody) == p
  {
    WithTransferMetadata(p, TransferMetadataOf(p).(purposeCode := code))
  }

  /** Whatever came first, the later of `setUltimateCreditor(c)` and `setUltimateDebtor(d)` decides the creditor, and no debtor is ever recorded. */
  lemma UltimateDebtorOverwritesCreditor(p: TokenRequestPayload, c: string, d: string)
    ensures TransferMetadataOf(WithUltimateDebtor(WithUltimateCreditor(p, c), d)).ultimateCreditor == d
    ensures TransferMetadataOf(WithUltimateCreditor(WithUltimateDebtor(p, d), c)).ultimateCreditor == c
    ensures TransferMetadataOf(WithUltimateDebtor(WithUltimateCreditor(p, c), d)).ultimateDebtor
         == TransferMetadataOf(p).ultimateDebtor
  {
  }

  /** Concretely: on a fresh transfer request, creditor "C" then debtor "D" records creditor "D" and debtor "". */
  lemma UltimateDebtorCounterexample()
    ensures var p := EmptyPayload.(transferBody := Some(EmptyTransferBody));
            var q := WithUltimateDebtor(WithUltimateCreditor(p, "C"), "D");
            TransferMetadataOf(q).ultimateCreditor == "D" && TransferMetadataOf(q).ultimateDebtor == ""
  {
  }

  /** The evidently intended `setUltimateDebtor`: the transfer body's metadata gets the debtor. */
  function WithUltimateDebtorIntended(p: TokenRequestPayload, debtor: string): (r: TokenRequestPayload)
    ensures r.transferBody.Some? && TransferBodyOf(r).instructions.Some? && TransferInstructionsOf(r).metadata.Some?
    ensures TransferMetadataOf(r) == TransferMetadataOf(p).(ultimateDebtor := debtor)
    ensures TransferInstructionsOf(r).(metadata := None) == TransferInstructionsOf(p).(metadata := None)
    ensures TransferBodyOf(r).(instructions := None) == TransferBodyOf(p).(instructions := None)
    ensures r.(transferBody := p.transferBody) == p
  {
    WithTransferMetadata(p, TransferMetadataOf(p).(ultimateDebtor := debtor))
  }

  /** With the intended setter, creditor and debtor are independent: both survive in either order. */
  lemma IntendedPartiesIndependent(p: TokenRequestPayload, c: string, d: string)
    ensures var q := WithUltimateDebtorIntended(WithUltimateCreditor(p, c), d);
            TransferMetadataOf(q).ultimateCreditor == c && TransferMetadataOf(q).ultimateDebtor == d
    ensures WithUltimateDebtorIntended(WithUltimateCreditor(p, c), d)
         == WithUltimateCreditor(WithUltimateDebtorIntended(p, d), c)
  {
  }

  /**
   * The standing-order builder's `setUltimateCreditor`, `setUltimateDebtor` and
   * `setPurposeCode` share the transfer builder's bodies: they create or change
   * a transfer body and leave the standing order's own metadata as it was.
   */
  lemma StandingOrderPartiesMissStandingOrder(p: TokenRequestPayload, c: string, d: string, code: string)
    ensures WithUltimateCreditor(p, c).standingOrderBody == p.standingOrderBody
    ensures WithUltimateDebtor(p, d).standingOrderBody == p.standingOrderBody
    ensures WithPurposeCode(p, code).standingOrderBody == p.standingOrderBody
    ensures WithUltimateCreditor(p, c).transferBody.Some?
    ensures WithUltimateDebtor(p, d).transferBody.Some?
    ensures WithPurposeCode(p, code).transferBody.Some?
    ensures TransferMetadataOf(WithUltimateCreditor(p, c)).ultimateCreditor == c
    ensures TransferMetadataOf(WithUltimateDebtor(p, d)).ultimateCreditor == d
    ensures TransferMetadataOf(WithPurposeCode(p, code)).purposeCode == code
  {
  }

  /** Concretely: a fresh standing-order request given creditor "C" keeps an empty creditor in its standing-order metadata and gains a transfer body. */
  lemma StandingOrderCounterexample()
    ensures var p := EmptyPayload.(standingOrderBody := Some(EmptyStandingOrderBody));
            var q := WithUltimateCreditor(p, "C");
            StandingOrderMetadataOf(q).ultimateCreditor == "" && q.transferBody.Some?
            && TransferMetadataOf(q).ultimateCreditor == "C"
  {
  }

  /** The evidently intended standing-order setters: they change the standing order's own instructions metadata. */
  function WithStandingOrderParties(p: TokenRequestPayload, creditor: Option<string>, debtor: Option<string>, purposeCode: Option<string>): (r: TokenRequestPayload)
    ensures r.standingOrderBody.Some? && StandingOrderBodyOf(r).instructions.Some? && StandingOrderInstructionsOf(r).metadata.Some?
    ensures StandingOrderMetadataOf(r).ultimateCreditor == creditor.GetOr(StandingOrderMetadataOf(p).ultimateCreditor)
    ensures StandingOrderMetadataOf(r).ultimateDebtor == debtor.GetOr(StandingOrderMetadataOf(p).ultimateDebtor)
    ensures StandingOrderMetadataOf(r).purposeCode == purposeCode.GetOr(StandingOrderMetadataOf(p).purposeCode)
    ensures StandingOrderMetadataOf(r).(ultimateCreditor := "", ultimateDebtor := "", purposeCode := "")
         == StandingOrderMetadataOf(p).(ultimateCreditor := "", ultimateDebtor := "", purposeCode := "")
    ensures StandingOrderInstructionsOf(r).(metadata := None) == StandingOrderInstructionsOf(p).(metadata := None)
    ensures StandingOrderBodyOf(r).(instructions := None) == StandingOrderBodyOf(p).(instructions := None)
    ensures r.transferBody == p.transferBody
    ensures r.(standingOrderBody := p.standingOrderBody) == p
  {
    var m := StandingOrderMetadataOf(p);
    WithStandingOrderMetadata(p, m.(ultimateCreditor := creditor.GetOr(m.ultimateCreditor),
                                    ultimateDebtor := debtor.GetOr(m.ultimateDebtor),
                                    purposeCode := purposeCode.GetOr(m.purposeCode)))
  }

  /** `build()`'s callback state: the hash of the CSRF token ("" without one) and the OAuth state ("" without one). */
  function CallbackState(csrfToken: Option<string>, oauthState: Option<string>, hash: string -> string): (s: TokenRequestState)
    ensures csrfToken.None? ==> s.csrfTokenHash == ""
    ensures csrfToken.Some? ==> s.csrfTokenHash == hash(csrfToken.value)
    ensures oauthState.None? ==> s.state == ""
    ensures oauthState.Some? ==> s.state == oauthState.value
  {
    TokenRequestState(if csrfToken.None? then "" else hash(csrfToken.value), oauthState.GetOr(""))
  }

  /** Which public builder an object is; each has the setters of its Java class. */
  datatype BuilderKind = AccessRequest | TransferRequest | StandingOrderRequest {
    /** The setters that the transfer and standing-order builders both declare. */
    predicate HasPaymentSetters() {
      TransferRequest? || StandingOrderRequest?
    }
  }

  /** The four fields a builder accumulates. */
  datatype BuilderState = BuilderState(
    payload: TokenRequestPayload,
    options: TokenRequestOptions,
    oauthState: Option<string>,
    csrfToken: Option<string>)

  /**
   * `TokenRequest.Builder` and its subclasses. Every setter returns the
   * builder itself and changes one field of `State()`.
   */
  class Builder {
    const kind: BuilderKind
    var requestPayload: TokenRequestPayload
    var requestOptions: TokenRequestOptions
    var oauthState: Option<string>
    var csrfToken: Option<string>

    function State(): (s: BuilderState)
      reads this
    {
      BuilderState(requestPayload, requestOptions, oauthState, csrfToken)
    }

    /** `accessTokenRequestBuilder(resources...)`. */
    constructor Access(resources: seq<ResourceType>)
      ensures kind == AccessRequest
      ensures State() == BuilderState(EmptyPayload.(accessBody := Some(AccessBody(resources))), EmptyOptions, None, None)
    {
      kind := AccessRequest;
      requestPayload := EmptyPayload.(accessBody := Some(AccessBody(resources)));
      requestOptions := EmptyOptions;
      oauthState, csrfToken := None, None;
    }

    /** `transferTokenRequestBuilder(amount, currency)`; `amount` is `Double.toString` of the Java amount. */
    constructor Transfer(amount: string, currency: string)
      ensures kind == TransferRequest
      ensures State() == BuilderState(
                EmptyPayload.(transferBody := Some(EmptyTransferBody.(lifetimeAmount := amount, currency := currency))),
                EmptyOptions, None, None)
    {
      kind := TransferRequest;
      requestPayload := EmptyPayload.(transferBody := Some(EmptyTransferBody.(lifetimeAmount := amount, currency := currency)));
      requestOptions := EmptyOptions;
      oauthState, csrfToken := None, None;
    }

    /** `new StandingOrderBuilder()`. */
    constructor StandingOrder()
      ensures kind == StandingOrderRequest
      ensures State() == BuilderState(EmptyPayload.(standingOrderBody := Some(EmptyStandingOrderBody)), EmptyOptions, None, None)
    {
      kind := StandingOrderRequest;
      requestPayload := EmptyPayload.(standingOrderBody := Some(EmptyStandingOrderBody));
      requestOptions := EmptyOptions;
      oauthState, csrfToken := None, None;
    }

    // ---- setters of every builder ----

    method SetBankId(bankId: string) returns (self: Builder)
      modifies this
      ensures self == this
      ensures State() == old(State()).(options := old(requestOptions).(bankId := bankId))
    {
      requestOptions := requestOptions.(bankId := bankId);
      self := this;
    }

    method SetFromMemberId(fromMemberId: string) returns (self: Builder)
      modifies this
      ensures self == this
      ensures State() == old(State()).(options := WithFromMemberId(old(requestOptions), fromMemberId))
    {
      requestOptions := WithFromMemberId(requestOptions, fromMemberId);
      self := this;
    }

    method SetFromAlias(fromAlias: Alias) returns (self: Builder)
      modifies this
      ensures self == this
      ensures State() == old(State()).(options := WithFromAlias(old(requestOptions), fromAlias))
    {
      requestOptions := WithFromAlias(requestOptions, fromAlias);
      self := this;
    }

    method SetSourceAccount(sourceAccountId: string) returns (self: Builder)
      modifies this
      ensures self == this
      ensures State() == old(State()).(options := old(requestOptions).(sourceAccountId := sourceAccountId))
    {
      requestOptions := requestOptions.(sourceAccountId := sourceAccountId);
      self := this;
    }

    method SetReceiptRequested(receiptRequested: bool) returns (self: Builder)
      modifies this
      ensures self == this
      ensures State() == old(State()).(options := old(requestOptions).(receiptRequested := receiptRequested))
    {
      requestOptions := requestOptions.(receiptRequested := receiptRequested);
      self := this;
    }

    method SetUserRefId(userRefId: string) returns (self: Builder)
      modifies this
      ensures self == this
      ensures State() == old(State()).(payload := old(requestPayload).(userRefId := userRefId))
    {
      requestPayload := requestPayload.(userRefId := userRefId);
      self := this;
    }

    method SetCustomizationId(customizationId: string) returns (self: Builder)
      modifies this
      ensures self == this
      ensures State() == old(State()).(payload := old(requestPayload).(customizationId := customizationId))
    {
      requestPayload := requestPayload.(customizationId := customizationId);
      self := this;
    }

    method SetRedirectUrl(redirectUrl: string) returns (self: Builder)
      modifies this
      ensures self == this
      ensures State() == old(State()).(payload := old(requestPayload).(redirectUrl := redirectUrl))
    {
      requestPayload := requestPayload.(redirectUrl := redirectUrl);
      self := this;
    }

    method SetRefId(refId: string) returns (self: Builder)
      modifies this
      ensures self == this
      ensures State() == old(State()).(payload := old(requestPayload).(refId := refId))
    {
      requestPayload := requestPayload.(refId := refId);
      self := this;
    }

    method SetToAlias(toAlias: Alias) returns (self: Builder)
      modifies this
      ensures self == this
      ensures State() == old(State()).(payload := WithToAlias(old(requestPayload), toAlias))
    {
      requestPayload := WithToAlias(requestPayload, toAlias);
      self := this;
    }

    method SetToMemberId(toMemberId: string) returns (self: Builder)
      modifies this
      ensures self == this
      ensures State() == old(State()).(payload := WithToMemberId(old(requestPayload), toMemberId))
    {
      requestPayload := WithToMemberId(requestPayload, toMemberId);
      self := this;
    }

    method SetActingAs(actingAs: ActingAs) returns (self: Builder)
      modifies this
      ensures self == this
      ensures State() == old(State()).(payload := old(requestPayload).(actingAs := Some(actingAs)))
    {
      requestPayload := requestPayload.(actingAs := Some(actingAs));
      self := this;
    }

    method SetDescription(description: string) returns (self: Builder)
      modifies this
      ensures self == this
      ensures State() == old(State()).(payload := old(requestPayload).(description := description))
    {
      requestPayload := requestPayload.(description := description);
      self := this;
    }

    /** `setState`: only the OAuth state changes; the payload is untouched. */
    method SetState(state: Option<string>) returns (self: Builder)
      modifies this
      ensures self == this
      ensures State() == old(State()).(oauthState := state)
    {
      oauthState := state;
      self := this;
    }

    /** `setCsrfToken`: only the CSRF token changes; the payload is untouched. */
    method SetCsrfToken(token: Option<string>) returns (self: Builder)
      modifies this
      ensures self == this
      ensures State() == old(State()).(csrfToken := token)
    {
      csrfToken := token;
      self := this;
    }

    /**
     * `build()`: stamps the serialized callback state into the accumulated
     * payload (which the builder keeps) and returns payload and options.
     * `hash` is `Util.hashString` and `serialize` is `TokenRequestState.serialize`.
     */
    method Build(hash: string -> string, serialize: TokenRequestState -> string) returns (request: TokenRequest)
      modifies this
      ensures State() == old(State()).(payload := old(requestPayload).(
                callbackState := serialize(CallbackState(old(csrfToken), old(oauthState), hash))))
      ensures request == FromProtos(requestPayload, requestOptions)
    {
      var serializedState := serialize(CallbackState(csrfToken, oauthState, hash));
      requestPayload := requestPayload.(callbackState := serializedState);
      request := FromProtos(requestPayload, requestOptions);
    }

    // ---- setters the transfer and standing-order builders both declare, with the same bodies ----

    method SetDestinationCountry(destinationCountry: string) returns (self: Builder)
      requires kind.HasPaymentSetters()
      modifies this
      ensures self == this
      ensures State() == old(State()).(payload := old(requestPayload).(destinationCountry := destinationCountry))
    {
      requestPayload := requestPayload.(destinationCountry := destinationCountry);
      self := this;
    }

    method SetUltimateCreditor(ultimateCreditor: string) returns (self: Builder)
      requires kind.HasPaymentSetters()
      modifies this
      ensures self == this
      ensures State() == old(State()).(payload := WithUltimateCreditor(old(requestPayload), ultimateCreditor))
    {
      requestPayload := WithUltimateCreditor(requestPayload, ultimateCreditor);
      self := this;
    }

    /** As written: stores its argument as the ultimate creditor. */
    method SetUltimateDebtor(ultimateDebtor: string) returns (self: Builder)
      requires kind.HasPaymentSetters()
      modifies this
      ensures self == this
      ensures State() == old(State()).(payload := WithUltimateDebtor(old(requestPayload), ultimateDebtor))
    {
      requestPayload := WithUltimateDebtor(requestPayload, ultimateDebtor);
      self := this;
    }

    method SetPurposeCode(purposeCode: string) returns (self: Builder)
      requires kind.HasPaymentSetters()
      modifies this
      ensures self == this
      ensures State() == old(State()).(payload := WithPurposeCode(old(requestPayload), purposeCode))
    {
      requestPayload := WithPurposeCode(requestPayload, purposeCode);
      self := this;
    }

    /** `addDestination(TransferDestination)`: into the transfer body or the standing-order body, by builder. */
    method AddDestination(destination: TransferDestination) returns (self: Builder)
      requires kind.HasPaymentSetters()
      modifies this
      ensures self == this
      ensures kind == TransferRequest ==>
                State() == old(State()).(payload := AddTransferDestination(old(requestPayload), destination))
      ensures kind == StandingOrderRequest ==>
                State() == old(State()).(payload := AddStandingOrderDestination(old(requestPayload), destination))
    {
      if kind == TransferRequest {
        requestPayload := AddTransferDestination(requestPayload, destination);
      } else {
        requestPayload := AddStandingOrderDestination(requestPayload, destination);
      }
      self := this;
    }

    /** `setProviderTransferMetadata`: into the transfer body or the standing-order body, by builder. */
    method SetProviderTransferMetadata(metadata: ProviderTransferMetadata) returns (self: Builder)
      requires kind.HasPaymentSetters()
      modifies this
      ensures self == this
      ensures kind == TransferRequest ==>
                State() == old(State()).(payload := WithTransferMetadata(old(requestPayload),
                  TransferMetadataOf(old(requestPayload)).(providerTransferMetadata := Some(metadata))))
      ensures kind == StandingOrderRequest ==>
                State() == old(State()).(payload := WithStandingOrderMetadata(old(requestPayload),
                  StandingOrderMetadataOf(old(requestPayload)).(providerTransferMetadata := Some(metadata))))
    {
      if kind == TransferRequest {
        requestPayload := WithTransferMetadata(requestPayload,
          TransferMetadataOf(requestPayload).(providerTransferMetadata := Some(metadata)));
      } else {
        requestPayload := WithStandingOrderMetadata(requestPayload,
          StandingOrderMetadataOf(requestPayload).(providerTransferMetadata := Some(metadata)));
      }
      self := this;
    }

    // ---- transfer builder only ----

    /** The deprecated `addDestination(TransferEndpoint)`: appended to the transfer body's endpoint list. */
    method AddDestinationEndpoint(destination: TransferEndpoint) returns (self: Builder)
      requires kind == TransferRequest
      modifies this
      ensures self == this
      ensures State() == old(State()).(payload := WithTransferBody(old(requestPayload),
                TransferBodyOf(old(requestPayload)).(destinations := TransferBodyOf(old(requestPayload)).destinations + [destination])))
    {
      var body := TransferBodyOf(requestPayload);
      requestPayload := WithTransferBody(requestPayload, body.(destinations := body.destinations + [destination]));
      self := this;
    }

    /** `setChargeAmount`; `chargeAmount` is `Double.toString` of the Java amount. */
    method SetChargeAmount(chargeAmount: string) returns (self: Builder)
      requires kind == TransferRequest
      modifies this
      ensures self == this
      ensures State() == old(State()).(payload := WithTransferBody(old(requestPayload),
                TransferBodyOf(old(requestPayload)).(amount := chargeAmount)))
    {
      requestPayload := WithTransferBody(requestPayload, TransferBodyOf(requestPayload).(amount := chargeAmount));
      self := this;
    }

    /** `setExecutionDate`; `executionDate` is the date already formatted as yyyyMMdd. */
    method SetExecutionDate(executionDate: string) returns (self: Builder)
      requires kind == TransferRequest
      modifies this
      ensures self == this
      ensures State() == old(State()).(payload := WithTransferBody(old(requestPayload),
                TransferBodyOf(old(requestPayload)).(executionDate := executionDate)))
    {
      requestPayload := WithTransferBody(requestPayload, TransferBodyOf(requestPayload).(executionDate := executionDate));
      self := this;
    }

    method SetChargeBearer(chargeBearer: ChargeBearer) returns (self: Builder)
      requires kind == TransferRequest
      modifies this
      ensures self == this
      ensures State() == old(State()).(payload := WithTransferMetadata(old(requestPayload),
                TransferMetadataOf(old(requestPayload)).(chargeBearer := chargeBearer)))
    {
      requestPayload := WithTransferMetadata(requestPayload,
        TransferMetadataOf(requestPayload).(chargeBearer := chargeBearer));
      self := this;
    }

    // ---- standing-order builder only ----

    /** `setAmount`; `amount` is `Double.toString` of the Java amount. */
    method SetAmount(amount: string) returns (self: Builder)
      requires kind == StandingOrderRequest
      modifies this
      ensures self == this
      ensures State() == old(State()).(payload := WithStandingOrderBody(old(requestPayload),
                StandingOrderBodyOf(old(requestPayload)).(amount := amount)))
    {
      requestPayload := WithStandingOrderBody(requestPayload, StandingOrderBodyOf(requestPayload).(amount := amount));
      self := this;
    }

    method SetCurrency(currency: string) returns (self: Builder)
      requires kind == StandingOrderRequest
      modifies this
      ensures self == this
      ensures State() == old(State()).(payload := WithStandingOrderBody(old(requestPayload),
                StandingOrderBodyOf(old(requestPayload)).(currency := currency)))
    {
      requestPayload := WithStandingOrderBody(requestPayload, StandingOrderBodyOf(requestPayload).(currency := currency));
      self := this;
    }

    method SetFrequency(frequency: string) returns (self: Builder)
      requires kind == StandingOrderRequest
      modifies this
      ensures self == this
      ensures State() == old(State()).(payload := WithStandingOrderBody(old(requestPayload),
                StandingOrderBodyOf(old(requestPayload)).(frequency := frequency)))
    {
      requestPayload := WithStandingOrderBody(requestPayload, StandingOrderBodyOf(requestPayload).(frequency := frequency));
      self := this;
    }

    method SetStartDate(startDate: string) returns (self: Builder)
      requires kind == StandingOrderRequest
      modifies this
      ensures self == this
      ensures State() == old(State()).(payload := WithStandingOrderBody(old(requestPayload),
                StandingOrderBodyOf(old(requestPayload)).(startDate := startDate)))
    {
      requestPayload := WithStandingOrderBody(requestPayload, StandingOrderBodyOf(requestPayload).(startDate := startDate));
      self := this;
    }

    method SetEndDate(endDate: string) returns (self: Builder)
      requires kind == StandingOrderRequest
      modifies this
      ensures self == this
      ensures State() == old(State()).(payload := WithStandingOrderBody(old(requestPayload),
                StandingOrderBodyOf(old(requestPayload)).(endDate := endDate)))
    {
      requestPayload := WithStandingOrderBody(requestPayload, StandingOrderBodyOf(requestPayload).(endDate := endDate));
      self := this;
    }

    method SetSource(source: TransferEndpoint) returns (self: Builder)
      requires kind == StandingOrderRequest
      modifies this
      ensures self == this
      ensures State() == old(State()).(payload := WithStandingOrderInstructions(old(requestPayload),
                StandingOrderInstructionsOf(old(requestPayload)).(source := Some(source))))
    {
      requestPayload := WithStandingOrderInstructions(requestPayload,
        StandingOrderInstructionsOf(requestPayload).(source := Some(source)));
      self := this;
    }
  }

  /**
   * A client of the builders: a transfer request with two destinations and
   * no CSRF token or state carries the lifetime amount, the currency, both
   * destinations in call order and the empty callback state.
   */
  method BuildTransferRequest(amount: string, currency: string, first: TransferDestination, second: TransferDestination,
                              hash: string -> string, serialize: TokenRequestState -> string)
    returns (request: TokenRequest)
    ensures var body := TransferBodyOf(request.tokenRequestPayload);
            body.lifetimeAmount == amount && body.currency == currency
            && InstructionsOf(body.instructions).transferDestinations == [first, second]
    ensures request.tokenRequestPayload.callbackState == serialize(TokenRequestState("", ""))
    ensures request.tokenRequestOptions == EmptyOptions
  {
    var builder := new Builder.Transfer(amount, currency);
    var chained := builder.AddDestination(first);
    chained := chained.AddDestination(second);
    request := builder.Build(hash, serialize);
  }
}
