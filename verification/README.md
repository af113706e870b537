# Adyen client request construction

This project models how the Ruby `AdyenClient` turns one call into the request
it posts to Adyen. Each call picks an endpoint path `/<Service>/v30/<action>`
and builds a JSON body from its keyword arguments. The instance's stored
merchant account and currency, or the configuration's defaults, fill in the
arguments a call leaves out.

The model is pure, as the client is:

- `Payload` (payload.dfy) describes the Ruby values a body is made of:
  - the symbols used as hash keys, with the JSON key each is written as;
  - nil, strings, integers and symbol-keyed hashes;
  - lookup along a key path (`At`).
- `AdyenClient` (adyen_client.dfy) holds the pieces of the client:
  - a `Config` with the configured defaults;
  - a `Client` that stores the merchant account and currency it was built with;
  - `NewClient` for `initialize`;
  - one function per public operation, returning a `Request(service, action, body)`.

  A Ruby keyword argument that a call may leave out is an `Arg<T>`, `Omitted` or
  `Given(v)`, and its default is applied by `Or`. An explicit `nil` for the
  merchant account or currency is `Given(None)`. A hash the caller passes (`shopper:`, `bank:`,
  `receiver:`, ...) is a `CallerHash`. Reading a key it lacks gives nil, as
  `hash[:key]` does. `authorise_recurring_payment` can raise `ArgumentError`,
  which is its `Failure` result.
- `AdyenClientProperties` (adyen_client_properties.dfy) states what each
  operation sends and proves it for all arguments:
  - which key holds which argument;
  - which default applies when an argument is omitted;
  - which keys are absent;
  - how `verify` relates to `authorise`;
  - which endpoint each operation calls.
- `Corrections` (corrections.dfy) covers `cancel_or_refund`, `initiate_payout`
  and `confirm_payout`. All three accept a `merchantAccount:` keyword but send
  the client's own account. The module states that discrepancy and gives the
  three operations as they are documented to behave (see Findings).

## Model

| member | source | states |
|---|---|---|
| AdyenClient.NewClient | lib/adyen_client.rb:72-76 | the client stores the merchant account and currency the constructor is given (nil included), else the configuration's defaults |
| AdyenClient.Request.Path | lib/adyen_client.rb:95 | the endpoint path `/<service>/v30/<action>`; its value for authorise is stated by `AuthorisePath`, and every operation's service and action by `AuthoriseEndpoints` and `OtherEndpoints` |
| AdyenClient.AuthoriseRecurringPayment | lib/adyen_client.rb:91-94 | the charge is built exactly when the processing model is "Subscription" or "CardOnFile"; the default "CardOnFile" is always accepted; a rejection is the ArgumentError "invalid recurring_processing_model" |
| AdyenClient.AuthorizeRecurringPayment | lib/adyen_client.rb:108 | the alias; `AliasesAgree` states it builds the same result |
| AdyenClient.ListRecurringDetails | lib/adyen_client.rb:117-123 | the listing request; its body is stated by `ListRecurringDetailsRequest` and its endpoint by `OtherEndpoints` |
| AdyenClient.CreateRecurringContract | lib/adyen_client.rb:140-151 | the card-storing authorisation; stated by `CreateRecurringContractRequest`, `CreateRecurringContractShopper` and `AuthoriseEndpoints` |
| AdyenClient.Authorise | lib/adyen_client.rb:170-181 | the card charge; stated by `AuthoriseRequest`, `AuthoriseShopperData`, `ResolutionOrder`, `AuthoriseEndpoints` and `AuthorisePath` |
| AdyenClient.Authorize | lib/adyen_client.rb:182 | the alias; `AliasesAgree` states it builds the same request |
| AdyenClient.Verify | lib/adyen_client.rb:201-213 | the zero-value authorisation; stated by `VerifyRequest`, `VerifyAgreesWithAuthorise`, `VerifyKeys` and `AuthoriseEndpoints` |
| AdyenClient.Capture | lib/adyen_client.rb:225-232 | the capture; stated by `CaptureRequest` and `OtherEndpoints` |
| AdyenClient.Cancel | lib/adyen_client.rb:241-247 | the cancellation; stated by `CancelRequest` and `OtherEndpoints` |
| AdyenClient.Refund | lib/adyen_client.rb:258-265 | the refund; stated by `RefundRequest` and `OtherEndpoints` |
| AdyenClient.CancelOrRefund | lib/adyen_client.rb:274-280 | cancel-or-refund as written; stated by `CancelOrRefundRequest`, `IgnoredMerchantAccount` and `OtherEndpoints` |
| AdyenClient.BankDetails | lib/adyen_client.rb:337-345 | the payout's bank hash; stated by `BankDetailsFields` |
| AdyenClient.ReceiverName | lib/adyen_client.rb:348-352 | the payout's `shopperName` hash; stated by `ReceiverNameFields` |
| AdyenClient.PayoutAddress | lib/adyen_client.rb:356-363 | the payout's billing address; stated by `PayoutAddressFields` |
| AdyenClient.InitiatePayout | lib/adyen_client.rb:318-365 | the first payout phase as written; stated by the `InitiatePayout*` lemmas, `IgnoredMerchantAccount` and `OtherEndpoints` |
| AdyenClient.ConfirmPayout | lib/adyen_client.rb:377-382 | the second payout phase as written; stated by `ConfirmPayoutRequest`, `IgnoredMerchantAccount` and `OtherEndpoints` |
| AdyenClientProperties.ResolutionOrder | lib/adyen_client.rb:72-74 | for a client built from a configuration, an authorisation sends the call's merchant account and currency if given, else the constructor's, else the configuration's, and nil when none of them sets one |
| AdyenClientProperties.AuthoriseRequest | lib/adyen_client.rb:170-180 | an authorisation charges the amount given, in the call's currency or else the client's, and sends the reference and the encrypted card under `card.encrypted.json`; its body has exactly the eight keys of lines 172-179, its amount only value and currency, its `additionalData` only `card.encrypted.json` |
| AdyenClientProperties.AuthoriseShopperData | lib/adyen_client.rb:170-179 | the shopper's email, IP and reference are read from the shopper hash, nil when it lacks them or is omitted; the statement sent is the one given, else "" |
| AdyenClientProperties.VerifyRequest | lib/adyen_client.rb:201-205 | a verification authorises 0 and carries the amount (default 0) as `additionalAmount`, both in the same currency; each of the two amounts holds only value and currency |
| AdyenClientProperties.VerifyAgreesWithAuthorise | lib/adyen_client.rb:170-213 | whether or not `amount:` is passed, a verification sends, as `additionalAmount`, the amount an authorisation of the given amount (else 0) with the same arguments would send, and agrees with it on reference, merchant account, card and shopper data and statement |
| AdyenClientProperties.VerifyKeys | lib/adyen_client.rb:170-213 | whether or not `amount:` is passed, a verification's keys are an authorisation's keys plus `additionalAmount`, which an authorisation does not send |
| AdyenClientProperties.CreateRecurringContractRequest | lib/adyen_client.rb:140-149 | storing a card authorises 0 in the call's currency or else the client's, asks for a RECURRING contract and carries the encrypted card and the reference; its body has exactly the eight keys of lines 142-149, its amount only value and currency, its `additionalData` only the card, its `recurring` only the contract |
| AdyenClientProperties.CreateRecurringContractShopper | lib/adyen_client.rb:140-148 | storing a card sends the call's merchant account or else the client's, and the shopper's email, IP and reference, nil for any the shopper hash lacks |
| AdyenClientProperties.AuthoriseRecurringPaymentRequest | lib/adyen_client.rb:91-97 | with a valid or omitted processing model the charge is built, for the amount given in the call's currency or else the client's, with the reference |
| AdyenClientProperties.AuthoriseRecurringPaymentReferences | lib/adyen_client.rb:91-105 | an accepted charge names the shopper, the stored method (given, else "LATEST"), the processing model (given, else "CardOnFile") and the statement (given, else "") |
| AdyenClientProperties.AuthoriseRecurringPaymentDefaults | lib/adyen_client.rb:91-102 | with the optional arguments left out, the charge is accepted for the stored method "LATEST", with statement "" and brand "" |
| AdyenClientProperties.AuthoriseRecurringPaymentContract | lib/adyen_client.rb:91-106 | an accepted charge is a RECURRING contract with ContAuth interaction and brand "", for the call's merchant account or else the client's; its body has exactly the ten keys of lines 96-105 |
| AdyenClientProperties.AuthoriseRecurringPaymentNested | lib/adyen_client.rb:97-103 | an accepted charge's amount holds only value and currency and its `recurring` only the contract |
| AdyenClientProperties.ListRecurringDetailsRequest | lib/adyen_client.rb:117-122 | listing names the shopper, the contract (given, else "RECURRING") and the call's merchant account or else the client's, and sends no amount: its body has exactly those three keys, and its `recurring` only the contract |
| AdyenClientProperties.CaptureRequest | lib/adyen_client.rb:225-231 | a capture passes the modification amount through unchanged, with the original reference, the reference and the call's merchant account or else the client's, and nothing else |
| AdyenClientProperties.CancelRequest | lib/adyen_client.rb:241-246 | a cancellation sends the original reference, the reference and the call's merchant account or else the client's, and no modification amount: exactly the three keys of lines 243-245 |
| AdyenClientProperties.RefundRequest | lib/adyen_client.rb:258-264 | a refund sends the amount, in the call's currency or else the client's, as the modification amount, with the original reference, the reference and the call's merchant account or else the client's, and nothing else; the modification amount holds only value and currency |
| AdyenClientProperties.CancelOrRefundRequest | lib/adyen_client.rb:274-279 | `cancel_or_refund` sends the original reference, the reference, the client's own merchant account and no modification amount: exactly the three keys of lines 276-278 |
| AdyenClientProperties.BankDetailsFields | lib/adyen_client.rb:337-345 | a payout's bank hash has exactly the seven bank keys, each read from the caller's bank hash |
| AdyenClientProperties.PayoutAddressFields | lib/adyen_client.rb:356-363 | a payout's billing address has exactly the six address keys, `houseNumberOrName` read from `houseNumber` and the rest from their own keys |
| AdyenClientProperties.ReceiverNameFields | lib/adyen_client.rb:348-352 | a payout's `shopperName` has exactly first name, last name and gender, read from the receiver hash |
| AdyenClientProperties.InitiatePayoutRequest | lib/adyen_client.rb:326-335 | a payout sends the client's merchant account, whatever the call passes, and a "RECURRING,PAYOUT" contract |
| AdyenClientProperties.InitiatePayoutNested | lib/adyen_client.rb:328-335 | a payout's amount holds only value and currency and its `recurring` only the contract |
| AdyenClientProperties.InitiatePayoutKeys | lib/adyen_client.rb:327-364 | a payout body has exactly the twelve keys of lines 328-363 and nothing else |
| AdyenClientProperties.InitiatePayoutDefaultAmount | lib/adyen_client.rb:319-332 | without an amount hash, a payout is for 0 in the client's currency |
| AdyenClientProperties.InitiatePayoutGivenAmount | lib/adyen_client.rb:329-332 | a given amount hash is read key by key; a missing currency is sent as nil, not the client's currency |
| AdyenClientProperties.InitiatePayoutBank | lib/adyen_client.rb:337-345 | each bank key of the request holds the caller's value for it, nil when missing or when no bank hash is given; the request's `bank` is exactly the hash `BankDetails` builds |
| AdyenClientProperties.InitiatePayoutBillingAddress | lib/adyen_client.rb:356-363 | each billing address key holds the caller's value from its source key, nil when missing; the request's `billingAddress` is exactly the hash `PayoutAddress` builds |
| AdyenClientProperties.InitiatePayoutReceiverName | lib/adyen_client.rb:346-352 | the receiver's names and gender arrive under `shopperName`; the request's `shopperName` is exactly the hash `ReceiverName` builds |
| AdyenClientProperties.InitiatePayoutReferences | lib/adyen_client.rb:336-347 | a payout sends its reference and the receiver's email and reference as `shopperEmail` and `shopperReference` |
| AdyenClientProperties.InitiatePayoutReceiverDetails | lib/adyen_client.rb:353-355 | the receiver is always a "Person", with date of birth and nationality from the receiver hash |
| AdyenClientProperties.ConfirmPayoutRequest | lib/adyen_client.rb:377-381 | a confirmation names the payout to confirm, sends the client's merchant account and no amount: exactly the two keys of lines 379-380 |
| AdyenClientProperties.IgnoredMerchantAccount | lib/adyen_client.rb:274-379 | the `merchantAccount:` argument of `cancel_or_refund`, `initiate_payout` and `confirm_payout` never changes the request |
| AdyenClientProperties.AuthoriseEndpoints | lib/adyen_client.rb:95-202 | `authorise`, `verify`, `create_recurring_contract` and an accepted `authorise_recurring_payment` all call Payment's authorise, whether or not a shopper hash or a verification amount is passed |
| AdyenClientProperties.AuthorisePath | lib/adyen_client.rb:171 | an authorisation posts to "/Payment/v30/authorise" |
| AdyenClientProperties.OtherEndpoints | lib/adyen_client.rb:117-378 | list, capture, cancel, refund, cancel-or-refund and the two payout calls each call their own service and action |
| AdyenClientProperties.AliasesAgree | lib/adyen_client.rb:108-182 | `authorize` and `authorize_recurring_payment` build the same requests as the British spellings |
| Corrections.CancelOrRefundAccountDiscrepancy | lib/adyen_client.rb:241-279 | for an account other than the client's, `cancel` sends it and `cancel_or_refund` as written does not |
| Corrections.CancelOrRefundHonouringAccountMatchesCancel | lib/adyen_client.rb:241-279 | the corrected `cancel_or_refund` sends the call's account, else the client's, and its body is exactly `cancel`'s |
| Corrections.ConfirmPayoutAccountDiscrepancy | lib/adyen_client.rb:377-379 | `confirm_payout` as written does not send an account the call names when it is not the client's |
| Corrections.InitiatePayoutAccountDiscrepancy | lib/adyen_client.rb:313-328 | `initiate_payout` as written does not send an account the call names when it is not the client's |
| Corrections.InitiatePayoutHonouringAccountRequest | lib/adyen_client.rb:313-334 | the corrected `initiate_payout` sends the call's account, else the client's, keeps the RECURRING,PAYOUT contract and the client's currency for the default amount, and matches the code as written when no account is passed |
| Corrections.ConfirmPayoutHonouringAccountRequest | lib/adyen_client.rb:377-380 | the corrected `confirm_payout` sends the call's account, else the client's, names the payout, and matches the code as written when no account is passed |

## Left out

- Sending the request is not modelled: the HTTP POST, `to_json` and the parsing of the response by the response class (lib/adyen_client.rb:390-393). A `Request` is the path and the body `postJSON` is given.
- The order of keys in a body is not modelled. A hash is a map from symbol to value, and `to_json` writes keys in the order the literal lists them.
- The configuration singleton, `configure` and `apply` are not modelled (lib/adyen_client.rb:11-13, 45-50). A `Config` carries only the two defaults the constructor reads. The configuration class, with the environment, credentials and base URL, is not part of this model.
- `generation_time` (lib/adyen_client.rb:53-55) reads the clock, and `cse_public_key` (lib/adyen_client.rb:58-60) only returns a configured value. Neither shapes a request.
- The `response_class:` constructor argument (lib/adyen_client.rb:72, 75) affects only how responses are parsed.
- `cancel_or_refund`, `initiate_payout` and `confirm_payout` declare only the keyword `merchantAccount:` (lib/adyen_client.rb:274, 326, 377), while their documentation spells it `:merchant_account`; likewise `list_recurring_details` documents a `:currency` option (line 114) that its signature (line 117) does not declare. A call with either documented keyword raises Ruby's unknown-keyword `ArgumentError`. The model's argument lists cannot express a call with an unknown keyword, so that error is not modelled.
- An explicit `nil` is modelled only for the merchant account and the currency. Other arguments are typed as the values the client documents: strings, integers, hashes.
- `Payload.Symbol`: `Other(name)` stands for any symbol the client never names. The model does not exclude an `Other` whose name spells the same JSON key as a named symbol.
- AdyenClientProperties.OtherEndpoints: the path string is written out only for authorise (`AuthorisePath`). The other operations are stated as the service and action that `Request.Path` joins around `v30`.
- The pspReference that links an initiated payout to its confirmation comes from Adyen's response, which is not modelled.

## Findings

| source | as written | input that shows it | evidently intended | confidence | as-written member | corrected member |
|---|---|---|---|---|---|---|
| lib/adyen_client.rb:274-277 | the keyword is spelt `merchantAccount:`, but the body reads `merchant_account`, which is the attribute reader, so the account a call passes is never sent | a client whose account is "A", called with `merchantAccount: "B"`, sends "A" | send the account the call passes, else the client's, as `cancel` and every snake_case operation do | high, not executed | Corrections.CancelOrRefundAccountDiscrepancy | Corrections.CancelOrRefundHonouringAccountMatchesCancel |
| lib/adyen_client.rb:313-328 | line 313 documents a `:merchant_account` override for this transaction, and the signature accepts it as `merchantAccount:`, but the body sends the instance variable `@merchant_account` | a client whose account is "A", called with `merchantAccount: "B"`, sends "A" | send the account the call passes, else the client's | medium, not executed; the body names the instance variable explicitly | Corrections.InitiatePayoutAccountDiscrepancy | Corrections.InitiatePayoutHonouringAccountRequest |
| lib/adyen_client.rb:377-379 | the same slip: the keyword is `merchantAccount:`, while the body reads the `merchant_account` attribute | a client whose account is "A", called with `merchantAccount: "B"`, sends "A" | send the account the call passes, else the client's | high, not executed | Corrections.ConfirmPayoutAccountDiscrepancy | Corrections.ConfirmPayoutHonouringAccountRequest |
