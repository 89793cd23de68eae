# Token Java SDK — request shaping and client state, in Dafny

This project models the part of the Token Java SDK that sits in front of the
gateway's gRPC stub: the state the clients keep and the requests they shape
from it. The network, the reactive streams and the cryptography stay outside;
each gateway call is a function from (authentication context, request) to
response, and every signer, hash or serializer is a function parameter.

Modules, one per source file of the core plus shared pieces:

- `TokenRequests` (`token_request.dfy`) — `TokenRequest.Builder` and its
  access, transfer and standing-order builders, as a `Builder` class whose
  `kind` says which Java builder it is. Payload and options are protobuf
  records; sub-builders (`getFromBuilder()`, `getTransferBodyBuilder()`, ...)
  are `Option` fields that a write creates empty when absent. `build()` stamps
  the serialized callback state, made from the hashed CSRF token and the OAuth
  state, into the payload.
- `TokenClients` (`token_client.dfy`) — the `TokenClient.Builder`
  configuration state machine (defaults, `port` driving `useSsl`,
  `connectTo` setting cluster and host, `build` filling in SANDBOX and the
  in-memory key store), the cluster host table, the developer-key headers,
  and the operation list of `setUpMember`.
- `RpcClient` (`rpc_client.dfy`) — the authenticated client of the current
  SDK: the authentication context of each call, tracking metadata, the
  signed member update with its empty-update short cut, paging, the mapping of
  response status to a value or a step-up error, the balance filter, and
  equality by member id.
- `LegacyRpcClient` (`legacy_rpc_client.dfy`) — the older authenticated
  client: its on-behalf-of access token, the process-wide authentication
  context it writes before account-data reads, one-operation member updates,
  decimal page offsets, and the key id on every signed request.
- `Protos` (shared messages), `JavaLang` (`Integer.toString` with a parser
  that reads it back, `String.hashCode` with 32-bit wrap-around, Java `int`
  and `long`) and `Wrappers` (`Option`, `Result`).

Java `null` becomes `None` wherever the code branches on it; a proto3 string
that was never set reads as `""`.

The two bugs under "## Findings" are modelled twice: the `Builder` class
reproduces the setters as written, and the corrected functions beside them
state what the setters evidently mean to do.

## Model

| member | source | states |
|---|---|---|
| TokenRequests.FromProtos | core/src/main/java/io/token/tokenrequest/TokenRequest.java:77-81 | the token request carries exactly the given payload and options |
| TokenRequests.WithFromMemberId | core/src/main/java/io/token/tokenrequest/TokenRequest.java:111-114 | the `from` record gets the id and keeps its alias; the rest of the options is unchanged |
| TokenRequests.WithFromAlias | core/src/main/java/io/token/tokenrequest/TokenRequest.java:122-125 | the `from` record gets the alias and keeps its id; the rest of the options is unchanged |
| TokenRequests.WithToAlias | core/src/main/java/io/token/tokenrequest/TokenRequest.java:200-204 | the `to` record gets the alias and keeps its id; the rest of the payload is unchanged |
| TokenRequests.WithToMemberId | core/src/main/java/io/token/tokenrequest/TokenRequest.java:212-215 | the `to` record gets the id and keeps its alias; the rest of the payload is unchanged |
| TokenRequests.FromSettersShareRecord | core/src/main/java/io/token/tokenrequest/TokenRequest.java:111-125 | `setFromMemberId` and `setFromAlias` write one `from` record: in either order both values survive |
| TokenRequests.ToSettersShareRecord | core/src/main/java/io/token/tokenrequest/TokenRequest.java:200-215 | `setToAlias` and `setToMemberId` write one `to` record: in either order both values survive |
| TokenRequests.WithTransferBody | core/src/main/java/io/token/tokenrequest/TokenRequest.java:337-355 | a change through the transfer-body builder sets that body and nothing else in the payload |
| TokenRequests.WithTransferInstructions | core/src/main/java/io/token/tokenrequest/TokenRequest.java:312-316 | a change through the transfer instructions builder leaves the rest of the transfer body and of the payload unchanged |
| TokenRequests.WithStandingOrderBody | core/src/main/java/io/token/tokenrequest/TokenRequest.java:439-493 | a change through the standing-order-body builder sets that body and nothing else in the payload |
| TokenRequests.WithStandingOrderInstructions | core/src/main/java/io/token/tokenrequest/TokenRequest.java:525-530 | a change through the standing order's instructions builder leaves the rest of that body and of the payload unchanged |
| TokenRequests.WithTransferMetadata | core/src/main/java/io/token/tokenrequest/TokenRequest.java:363-369 | the transfer instructions' metadata is replaced; instructions, body and payload are otherwise unchanged |
| TokenRequests.WithStandingOrderMetadata | core/src/main/java/io/token/tokenrequest/TokenRequest.java:538-545 | the standing order's instructions metadata is replaced; instructions, body and payload are otherwise unchanged |
| TokenRequests.AddTransferDestination | core/src/main/java/io/token/tokenrequest/TokenRequest.java:312-316 | the transfer body and its instructions exist afterwards, created if absent; one destination is appended to the transfer instructions; their source and metadata, the rest of the transfer body (amounts, currency, dates) and every other payload field are unchanged |
| TokenRequests.AddStandingOrderDestination | core/src/main/java/io/token/tokenrequest/TokenRequest.java:501-505 | the standing-order body and its instructions exist afterwards, created if absent; one destination is appended to the standing order's instructions; their source and metadata, the rest of the standing-order body (amount, currency, frequency, dates) and every other payload field are unchanged |
| TokenRequests.TransferDestinationsInCallOrder | core/src/main/java/io/token/tokenrequest/TokenRequest.java:312-316 | any chain of `addDestination` calls appends the destinations after the earlier ones, in call order, and changes nothing outside the transfer body |
| TokenRequests.WithUltimateCreditor | core/src/main/java/io/token/tokenrequest/TokenRequest.java:391-397 | the transfer body, instructions and metadata exist afterwards, created if absent; the transfer metadata's ultimate creditor is set; the other metadata fields, the instructions' source and destinations, the rest of the transfer body and every other payload field are unchanged |
| TokenRequests.WithUltimateDebtor | core/src/main/java/io/token/tokenrequest/TokenRequest.java:405-411 | as written: the transfer body, instructions and metadata exist afterwards, created if absent; the argument becomes the ultimate creditor and the ultimate debtor keeps its old value; the instructions' source and destinations, the rest of the transfer body and every other payload field are unchanged |
| TokenRequests.WithPurposeCode | core/src/main/java/io/token/tokenrequest/TokenRequest.java:419-425 | the transfer body, instructions and metadata exist afterwards, created if absent; the transfer metadata's purpose code is set; the other metadata fields, the instructions' source and destinations, the rest of the transfer body and every other payload field are unchanged |
| TokenRequests.UltimateDebtorOverwritesCreditor | core/src/main/java/io/token/tokenrequest/TokenRequest.java:391-411 | of `setUltimateCreditor` and `setUltimateDebtor`, the later call decides the creditor, and no debtor is recorded |
| TokenRequests.UltimateDebtorCounterexample | core/src/main/java/io/token/tokenrequest/TokenRequest.java:405-411 | creditor "C" then debtor "D" on a fresh transfer request leaves creditor "D" and debtor "" |
| TokenRequests.WithUltimateDebtorIntended | core/src/main/java/io/token/tokenrequest/TokenRequest.java:405-411 | corrected: the transfer body, instructions and metadata exist afterwards, created if absent; the transfer metadata's ultimate debtor is set; the other metadata fields, the instructions' source and destinations, the rest of the transfer body and every other payload field are unchanged |
| TokenRequests.IntendedPartiesIndependent | core/src/main/java/io/token/tokenrequest/TokenRequest.java:391-411 | with the corrected setter, creditor and debtor both survive and the two setters commute |
| TokenRequests.StandingOrderPartiesMissStandingOrder | core/src/main/java/io/token/tokenrequest/TokenRequest.java:553-587 | as written, each of the standing-order builder's creditor, debtor and purpose-code setters leaves the standing-order body unchanged, makes a transfer body exist and writes its value into that transfer body's metadata |
| TokenRequests.StandingOrderCounterexample | core/src/main/java/io/token/tokenrequest/TokenRequest.java:553-559 | creditor "C" on a fresh standing-order request keeps the standing order's creditor "" and creates a transfer body with creditor "C" |
| TokenRequests.WithStandingOrderParties | core/src/main/java/io/token/tokenrequest/TokenRequest.java:553-587 | corrected: the standing-order body, instructions and metadata exist afterwards, created if absent; each given party or purpose code lands in the standing order's own metadata, the others keep their values; the standing order's source and destinations, the rest of its body, the transfer body and every other payload field are untouched |
| TokenRequests.CallbackState | core/src/main/java/io/token/tokenrequest/TokenRequest.java:268-272 | the CSRF hash is "" without a token and the hash of the token otherwise; the state is "" without one and the given state otherwise |
| TokenRequests.Builder.Access | core/src/main/java/io/token/tokenrequest/TokenRequest.java:278-283 | a fresh access builder carries an access body whose types are the given resources, in order, and nothing else |
| TokenRequests.Builder.Transfer | core/src/main/java/io/token/tokenrequest/TokenRequest.java:286-292 | a fresh transfer builder carries a transfer body with the lifetime amount and currency, and nothing else |
| TokenRequests.Builder.StandingOrder | core/src/main/java/io/token/tokenrequest/TokenRequest.java:428-431 | a fresh standing-order builder carries an empty standing-order body, and nothing else |
| TokenRequests.Builder.SetBankId | core/src/main/java/io/token/tokenrequest/TokenRequest.java:100-103 | returns the builder; only the options' bank id changes |
| TokenRequests.Builder.SetFromMemberId | core/src/main/java/io/token/tokenrequest/TokenRequest.java:111-114 | returns the builder; only the options' `from` record changes |
| TokenRequests.Builder.SetFromAlias | core/src/main/java/io/token/tokenrequest/TokenRequest.java:122-125 | returns the builder; only the options' `from` record changes |
| TokenRequests.Builder.SetSourceAccount | core/src/main/java/io/token/tokenrequest/TokenRequest.java:133-136 | returns the builder; only the options' source account changes |
| TokenRequests.Builder.SetReceiptRequested | core/src/main/java/io/token/tokenrequest/TokenRequest.java:145-148 | returns the builder; only the options' receipt flag changes |
| TokenRequests.Builder.SetUserRefId | core/src/main/java/io/token/tokenrequest/TokenRequest.java:156-159 | returns the builder; only the payload's user reference id changes |
| TokenRequests.Builder.SetCustomizationId | core/src/main/java/io/token/tokenrequest/TokenRequest.java:167-170 | returns the builder; only the payload's customization id changes |
| TokenRequests.Builder.SetRedirectUrl | core/src/main/java/io/token/tokenrequest/TokenRequest.java:178-181 | returns the builder; only the payload's redirect URL changes |
| TokenRequests.Builder.SetRefId | core/src/main/java/io/token/tokenrequest/TokenRequest.java:189-192 | returns the builder; only the payload's reference id changes |
| TokenRequests.Builder.SetToAlias | core/src/main/java/io/token/tokenrequest/TokenRequest.java:200-204 | returns the builder; only the payload's `to` record changes |
| TokenRequests.Builder.SetToMemberId | core/src/main/java/io/token/tokenrequest/TokenRequest.java:212-215 | returns the builder; only the payload's `to` record changes |
| TokenRequests.Builder.SetActingAs | core/src/main/java/io/token/tokenrequest/TokenRequest.java:223-226 | returns the builder; only the payload's acting-as record changes |
| TokenRequests.Builder.SetDescription | core/src/main/java/io/token/tokenrequest/TokenRequest.java:234-237 | returns the builder; only the payload's description changes |
| TokenRequests.Builder.SetState | core/src/main/java/io/token/tokenrequest/TokenRequest.java:246-249 | returns the builder; only the OAuth state changes, never the payload |
| TokenRequests.Builder.SetCsrfToken | core/src/main/java/io/token/tokenrequest/TokenRequest.java:258-261 | returns the builder; only the CSRF token changes, never the payload |
| TokenRequests.Builder.Build | core/src/main/java/io/token/tokenrequest/TokenRequest.java:268-275 | the payload gains the serialized callback state and nothing else; the request carries the accumulated payload and options |
| TokenRequests.Builder.SetDestinationCountry | core/src/main/java/io/token/tokenrequest/TokenRequest.java:301-304 | returns the builder; only the payload's destination country changes |
| TokenRequests.Builder.SetUltimateCreditor | core/src/main/java/io/token/tokenrequest/TokenRequest.java:391-397 | returns the builder; in both payment builders only the transfer metadata's creditor changes |
| TokenRequests.Builder.SetUltimateDebtor | core/src/main/java/io/token/tokenrequest/TokenRequest.java:405-411 | returns the builder; as written, in both payment builders the transfer metadata's creditor takes the argument |
| TokenRequests.Builder.SetPurposeCode | core/src/main/java/io/token/tokenrequest/TokenRequest.java:419-425 | returns the builder; in both payment builders only the transfer metadata's purpose code changes |
| TokenRequests.Builder.AddDestination | core/src/main/java/io/token/tokenrequest/TokenRequest.java:312-316 | returns the builder; appends the destination to the transfer instructions or, for a standing order, to the standing order's instructions |
| TokenRequests.Builder.SetProviderTransferMetadata | core/src/main/java/io/token/tokenrequest/TokenRequest.java:363-369 | returns the builder; sets the provider metadata in the transfer or, for a standing order, the standing order's instructions metadata |
| TokenRequests.Builder.AddDestinationEndpoint | core/src/main/java/io/token/tokenrequest/TokenRequest.java:325-329 | returns the builder; appends the endpoint to the transfer body's destination list |
| TokenRequests.Builder.SetChargeAmount | core/src/main/java/io/token/tokenrequest/TokenRequest.java:337-342 | returns the builder; only the transfer body's amount changes |
| TokenRequests.Builder.SetExecutionDate | core/src/main/java/io/token/tokenrequest/TokenRequest.java:350-355 | returns the builder; only the transfer body's execution date changes |
| TokenRequests.Builder.SetChargeBearer | core/src/main/java/io/token/tokenrequest/TokenRequest.java:377-383 | returns the builder; only the transfer metadata's charge bearer changes |
| TokenRequests.Builder.SetAmount | core/src/main/java/io/token/tokenrequest/TokenRequest.java:439-443 | returns the builder; only the standing order's amount changes |
| TokenRequests.Builder.SetCurrency | core/src/main/java/io/token/tokenrequest/TokenRequest.java:451-455 | returns the builder; only the standing order's currency changes |
| TokenRequests.Builder.SetFrequency | core/src/main/java/io/token/tokenrequest/TokenRequest.java:464-468 | returns the builder; only the standing order's frequency changes |
| TokenRequests.Builder.SetStartDate | core/src/main/java/io/token/tokenrequest/TokenRequest.java:476-480 | returns the builder; only the standing order's start date changes |
| TokenRequests.Builder.SetEndDate | core/src/main/java/io/token/tokenrequest/TokenRequest.java:489-493 | returns the builder; only the standing order's end date changes |
| TokenRequests.Builder.SetSource | core/src/main/java/io/token/tokenrequest/TokenRequest.java:525-530 | returns the builder; only the standing order's instructions source changes |
| TokenRequests.BuildTransferRequest | core/src/main/java/io/token/tokenrequest/TokenRequest.java:286-316 | a transfer request with two destinations and no CSRF token or state carries the amount, the currency, both destinations in order and the empty callback state |
| TokenClients.TokenCluster.Url | common/src/main/java/io/token/TokenClient.java:714-731 | every cluster's gateway host is an `api-grpc.` name under `token.io` |
| TokenClients.ClusterAt | common/src/main/java/io/token/TokenClient.java:714-731 | the host table is invertible: a host found belongs to its cluster, and a host not found belongs to none |
| TokenClients.UrlIdentifiesCluster | common/src/main/java/io/token/TokenClient.java:714-731 | every cluster has a host of its own: looking it up again finds that cluster |
| TokenClients.Headers | common/src/main/java/io/token/TokenClient.java:869-902 | INVALID_ARGUMENT exactly for a missing or empty developer key, NOT_FOUND exactly when the plugin is missing, else the dev-key, platform and version headers |
| TokenClients.ClientBuilder.constructor | common/src/main/java/io/token/TokenClient.java:752-756 | timeout 10000 ms, port 443 with SSL, everything else unset |
| TokenClients.ClientBuilder.HostName | common/src/main/java/io/token/TokenClient.java:764-767 | returns the builder; only the host changes and the cluster is kept |
| TokenClients.ClientBuilder.Port | common/src/main/java/io/token/TokenClient.java:775-779 | returns the builder; sets the port, and SSL holds exactly for port 443; nothing else changes |
| TokenClients.ClientBuilder.ConnectTo | common/src/main/java/io/token/TokenClient.java:787-791 | returns the builder; the cluster and its host change together, nothing else |
| TokenClients.ClientBuilder.Timeout | common/src/main/java/io/token/TokenClient.java:799-802 | returns the builder; only the timeout changes |
| TokenClients.ClientBuilder.WithKeyStore | common/src/main/java/io/token/TokenClient.java:810-813 | returns the builder; the SDK's factory over the key store replaces any earlier crypto setting |
| TokenClients.ClientBuilder.WithCryptoEngine | common/src/main/java/io/token/TokenClient.java:821-824 | returns the builder; the given factory replaces any earlier crypto setting |
| TokenClients.ClientBuilder.WithSslConfig | common/src/main/java/io/token/TokenClient.java:833-836 | returns the builder; only the TLS configuration changes |
| TokenClients.ClientBuilder.DevKey | common/src/main/java/io/token/TokenClient.java:844-847 | returns the builder; only the developer key changes |
| TokenClients.ClientBuilder.Build | common/src/main/java/io/token/TokenClient.java:854-867 | fails exactly as the headers fail; otherwise the configured channel, SANDBOX when no cluster was set, and the in-memory key store when no crypto was set |
| TokenClients.ConfigureOverride | common/src/main/java/io/token/TokenClient.java:764-791 | after `connectTo`, a later `hostName` replaces the host and keeps the cluster, and `port` decides SSL |
| TokenClients.SetUpMember | common/src/main/java/io/token/TokenClient.java:205-233 | keys at PRIVILEGED, STANDARD and LOW, then the recovery agent, then the alias only when given; metadata empty exactly without an alias; signed at PRIVILEGED |
| RpcClient.BalanceResult | common/src/main/java/io/token/rpc/Client.java:291-299 | the balance exactly on SUCCESSFUL_REQUEST, else "Balance step up required." |
| RpcClient.TransactionResult | common/src/main/java/io/token/rpc/Client.java:348-356 | the transaction exactly on SUCCESSFUL_REQUEST, else "Transaction step up required." |
| RpcClient.TransactionsResult | common/src/main/java/io/token/rpc/Client.java:380-390 | the page of transactions and its offset exactly on SUCCESSFUL_REQUEST, else "Transactions step up required." |
| RpcClient.SuccessfulBalancesAppend | common/src/main/java/io/token/rpc/Client.java:316-325 | the balance filter distributes over concatenation, so it keeps response order |
| RpcClient.SuccessfulBalancesMembership | common/src/main/java/io/token/rpc/Client.java:316-325 | a balance is kept exactly when some successful response carries it |
| RpcClient.SuccessfulBalancesAgreeWithGetBalance | common/src/main/java/io/token/rpc/Client.java:316-325 | the filter never grows the list, keeps every balance when all responses succeed and none when all need step-up |
| RpcClient.PageFor | common/src/main/java/io/token/rpc/Client.java:577-585 | the limit always; the offset only when one is given |
| RpcClient.Client.constructor | common/src/main/java/io/token/rpc/Client.java:101-118 | a new client is not customer-initiated and carries the default security metadata |
| RpcClient.Client.ContextFor | common/src/main/java/io/token/rpc/Client.java:561-575 | never on behalf of anyone, the current metadata, customer-initiated only for account-data reads and only when the flag is set, LOW unless a level is given, PRIVILEGED for `deleteMember` |
| RpcClient.Client.SetTrackingMetadata | common/src/main/java/io/token/rpc/Client.java:535-537 | only the security metadata changes, and every later call carries it |
| RpcClient.Client.ClearTrackingMetadata | common/src/main/java/io/token/rpc/Client.java:542-544 | the security metadata returns to the default instance for every later call |
| RpcClient.Client.UpdateMember | common/src/main/java/io/token/rpc/Client.java:148-180 | nothing is sent exactly for no operations; else one update chained to the member's last hash with the operations in order, signed with this member id and the PRIVILEGED signer's key id |
| RpcClient.Client.GetBalance | common/src/main/java/io/token/rpc/Client.java:285-300 | asks under the balance context and yields the balance exactly on SUCCESSFUL_REQUEST |
| RpcClient.Client.GetBalances | common/src/main/java/io/token/rpc/Client.java:309-327 | asks under the balances context and returns exactly the successful responses' balances, in response order |
| RpcClient.Client.GetTransaction | common/src/main/java/io/token/rpc/Client.java:337-357 | asks under the transaction context and yields the transaction exactly on SUCCESSFUL_REQUEST |
| RpcClient.Client.GetTransactions | common/src/main/java/io/token/rpc/Client.java:368-391 | asks with the built page under the transactions context and yields the page exactly on SUCCESSFUL_REQUEST |
| RpcClient.EqualsIsEquivalence | common/src/main/java/io/token/rpc/Client.java:547-554 | equality by member id is reflexive, symmetric and transitive, and never holds for null |
| RpcClient.Client.AuthenticationContextAt | common/src/main/java/io/token/rpc/Client.java:561-567 | the context of calls that are not account-data reads: on behalf of no one, never customer-initiated, at the given key level, with the client's current tracking metadata |
| RpcClient.Client.OnBehalfOf | common/src/main/java/io/token/rpc/Client.java:569-575 | the same context as `AuthenticationContextAt` at that level, except that it carries the client's customer-initiated flag |
| RpcClient.Client.Equals | common/src/main/java/io/token/rpc/Client.java:547-554 | never equal to null or a non-client, always equal to itself, and equal clients have equal hash codes |
| RpcClient.Client.HashCode | common/src/main/java/io/token/rpc/Client.java:557-559 | the member id's `String.hashCode`: the sum of each character times 31 to the power of the characters after it, reduced to `int` |
| JavaLang.NaturalToStringValue | src/main/java/io/token/rpc/Client.java:318 | the decimal digits written for a natural number denote that number |
| JavaLang.IntegerToString | src/main/java/io/token/rpc/Client.java:318 | `Integer.toString`: a minus sign exactly for negative values, then decimal digits with no leading zero |
| JavaLang.StringHashCode | common/src/main/java/io/token/rpc/Client.java:558 | `String.hashCode` computed with `int` wrap-around at every step equals the documented sum of each character times a power of 31, reduced once to `int` |
| JavaLang.IntegerToStringRoundTrip | src/main/java/io/token/rpc/Client.java:318 | reading back `Integer.toString(n)` gives `n` |
| JavaLang.IntegerToStringInjective | src/main/java/io/token/rpc/Client.java:318 | distinct offsets are written as distinct strings |
| LegacyRpcClient.LegacyClient.constructor | src/main/java/io/token/rpc/Client.java:46-49 | a new client holds its key and no access token |
| LegacyRpcClient.LegacyClient.UseAccessToken | src/main/java/io/token/rpc/Client.java:58-60 | only the on-behalf-of field changes, to the given token id |
| LegacyRpcClient.LegacyClient.ClearAccessToken | src/main/java/io/token/rpc/Client.java:65-67 | only the on-behalf-of field changes, to null |
| LegacyRpcClient.LegacyClient.SetAuthenticationContext | src/main/java/io/token/rpc/Client.java:534-538 | the global on-behalf-of takes the client's token when it has one and is unchanged otherwise |
| LegacyRpcClient.LegacyClient.DecimalPage | src/main/java/io/token/rpc/Client.java:316-319 | the page offset reads back as the given offset and the limit is the given limit |
| LegacyRpcClient.LegacyClient.UpdateRequest | src/main/java/io/token/rpc/Client.java:524-532 | the request carries the update chained to the member's last hash with its one operation, signed over that update with this client's key, under its key id and with no member id |
| LegacyRpcClient.LegacyClient.OperationFor | src/main/java/io/token/rpc/Client.java:88-166 | each update call carries exactly its one operation: the encoded key with its level, the key id, or the alias |
| LegacyRpcClient.LegacyClient.RequestFor | src/main/java/io/token/rpc/Client.java:88-532 | updates are chained to the member's last hash with one operation; pages are `Integer.toString(offset)` with the limit and read back as the offset; a token id only when given; every signed request carries this client's key id and no member id; endorsing and cancelling sign the token with their action, redeeming signs the payment and adding an address signs the address |
| LegacyRpcClient.LegacyClient.Send | src/main/java/io/token/rpc/Client.java:232-250 | account, balance, transaction and address reads first copy a held token into the global context; every other call leaves it; the request is the call's request |
| LegacyRpcClient.ReadAfterClear | src/main/java/io/token/rpc/Client.java:534-538 | counting only the writes this class makes to the global context: a read after `clearAccessToken` leaves the earlier token there |

## Left out

- The gRPC stubs, `toObservable`/`toCompletable`, the `Observable`/`Completable` plumbing and the `*Blocking` wrappers: each gateway call is a function parameter from context and request to response.
- `TokenClient.close` (channel shutdown and waiting for termination): resource lifetime and threading.
- Key generation, `signer.sign`, `Crypto.sign`, `Util.hashString`, `Util.normalizeAlias`, `TokenRequestState.serialize` and `ByteEncoding.serialize` are function parameters with no properties assumed.
- `Double.toString` of amounts and `LocalDate` formatting: the builders take the already-formatted strings.
- The reflective lookup of `io.token.gradle.TokenProject`: `Headers` takes its outcome as the `project` parameter.
- `RpcChannelFactory` and TLS set-up: `ClientBuilder.Build` returns the channel settings it would pass on.
- Protobuf oneof semantics: the access, transfer and standing-order bodies are independent optional fields. If the payload declares them in one oneof, writing the transfer body of a standing-order request would also drop the standing-order body; `StandingOrderPartiesMissStandingOrder` does not capture that.
- Java `null` passed as a string argument: the model's string arguments are plain strings. Protobuf setters throw on `null`, but two plain assignments accept it and are not modelled for it: `ClientBuilder.HostName`, where `hostName(null)` resets the host to unset (common/src/main/java/io/token/TokenClient.java:764-767), and `LegacyClient.UseAccessToken`, where `useAccessToken(null)` acts like `clearAccessToken` (src/main/java/io/token/rpc/Client.java:58-60).
- `StringHashCode` works on `char` values as single UTF-16 code units; characters outside the Basic Multilingual Plane are not split into surrogate pairs.
- `RpcClient.Client.UpdateMember`: the gateway's answer is not modelled, since it is `response.getMember()` unchanged; the two-argument `updateMember` overload, which passes no metadata, is not modelled separately.
- The remaining gateway calls of the current client (`getMember`, `useDefaultRecoveryRule`, `getAccount(s)`, `getBankInfo`, `getAliases`, `retryVerification`, `getDefaultAgent`, `verifyAlias`, `deleteMember`, `resolveTransferDestinations`) appear only through the authentication context they use (`RpcClient.Call`); their requests and responses are not modelled.
- `useDefaultRecoveryRule` (common/src/main/java/io/token/rpc/Client.java:198-236): the member update it builds (a recovery-rules operation naming the default agent, chained to the member's last hash) and its PRIVILEGED signature carrying the member id are not modelled; only the contexts of its `getMember`, `getDefaultAgent` and `updateMember` calls are.
- `retryVerification` (common/src/main/java/io/token/rpc/Client.java:436-448): its request, the alias together with this client's member id, is not modelled.
- `authorizeRecovery` (common/src/main/java/io/token/rpc/Client.java:457-464): it makes no gateway call and only signs the authorization with the PRIVILEGED key under the member id; that signature is not modelled.
- The consumer of the process-wide `AuthenticationContext` of the older client (the authenticator that reads the on-behalf-of value on each gateway call and may clear it) is not among the modelled sources; `LegacyRpcClient.AuthenticationContextHolder` records only the writes `LegacyClient` makes, so `LegacyRpcClient.ReadAfterClear` says nothing about what another reader or writer does between calls.
- `tokenAction`'s JSON rendering of token payloads: part of the signing input, left to the signer.
- The older client's pass-through calls (`getMember`, `aliasExists`, device subscription, account linking and naming, token creation and lookup, `getPayment`, `deleteAddress`) are forwarded unchanged (`Forwarded`), and no response of the older client is modelled.
- `TokenRequests.Builder`: the corrected setters of "## Findings" are stated as functions; the class itself keeps the behaviour as written.

## Findings

| source | as written | input that shows it | evidently intended | confidence | as-written member | corrected member |
|---|---|---|---|---|---|---|
| core/src/main/java/io/token/tokenrequest/TokenRequest.java:405-411 | `setUltimateDebtor` (transfer and standing-order builders, also lines 567-573) stores its argument as the ultimate creditor | `setUltimateCreditor("C")` then `setUltimateDebtor("D")` on a new transfer builder: creditor "D", debtor "" | the debtor is recorded as the ultimate debtor and the creditor stays "C" | high; not executed | TokenRequests.UltimateDebtorCounterexample | TokenRequests.WithUltimateDebtorIntended |
| core/src/main/java/io/token/tokenrequest/TokenRequest.java:553-587 | the standing-order builder's `setUltimateCreditor`, `setUltimateDebtor` and `setPurposeCode` write into the transfer body's instructions metadata | `setUltimateCreditor("C")` on a new standing-order builder: the standing order's creditor stays "", and a transfer body with creditor "C" appears | the values land in the standing order's own instructions metadata, as `setProviderTransferMetadata` (lines 538-545) does | high; not executed | TokenRequests.StandingOrderCounterexample | TokenRequests.WithStandingOrderParties |
