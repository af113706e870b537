/**
 * Request construction of the Adyen payment client (lib/adyen_client.rb).
 *
 * A client fixes a merchant account and a currency once, when it is made;
 * every operation then fills in its keyword defaults and builds one JSON
 * body for one fixed, versioned path. The model stops at the request that
 * `postJSON` would post: the POST itself and the parsing of the reply are
 * not part of it.
 */
module AdyenClient {
  import opened Wrappers
  import opened Payload

  /** ADYEN_API_VERSION: the version segment of every request path. */
  const ApiVersion: string := "v30"

  /**
   * The request `postJSON` is handed: the service and action that make up
   * its path below the API host, and the hash it posts as JSON.
   */
  datatype Request = Request(service: string, action: string, body: Json) {
    /** `"/<service>/v30/<action>"` */
    function Path(): string {
      "/" + service + "/" + ApiVersion + "/" + action
    }
  }

  /** The error raised before anything is sent. */
  datatype ArgumentError = ArgumentError(message: string)

  /**
   * A keyword argument that has a default: the caller either leaves it out
   * (and the default expression is used) or passes a value.
   */
  datatype Arg<T> = Omitted | Given(value: T) {
    function Or(default: T): T {
      if Given? then value else default
    }
  }

  /** A hash passed in by the caller (shopper, bank, receiver, ...), keyed by symbols. */
  type CallerHash = map<Symbol, Json>

  /** The configuration defaults a client reads when it is made; `None` is an unset option. */
  datatype Config = Config(defaultMerchantAccount: Option<string>, defaultCurrency: Option<string>)

  /** A client: the merchant account and currency fixed at construction (either may be nil). */
  datatype Client = Client(merchantAccount: Option<string>, currency: Option<string>)

  /** `AdyenClient.new`: each override, when given, replaces the configuration default. */
  function NewClient(config: Config, merchantAccount: Arg<Option<string>>, currency: Arg<Option<string>>): (c: Client)
    ensures merchantAccount.Given? ==> c.merchantAccount == merchantAccount.value
    ensures merchantAccount.Omitted? ==> c.merchantAccount == config.defaultMerchantAccount
    ensures currency.Given? ==> c.currency == currency.value
    ensures currency.Omitted? ==> c.currency == config.defaultCurrency
  {
    Client(merchantAccount.Or(config.defaultMerchantAccount), currency.Or(config.defaultCurrency))
  }

  // ---------------------------------------------------------------------------
  // Helpers for the hash literals

  /** A string or nil, as `to_json` writes it. */
  function OptStr(s: Option<string>): Json {
    match s
    case Some(v) => Str(v)
    case None => Nil
  }

  /** `hash[:key]`: the value, or nil when the hash has no such key. */
  function Fetch(h: CallerHash, key: Symbol): Json {
    if key in h then h[key] else Nil
  }

  /** `{ value: value, currency: currency }` */
  function AmountObj(value: int, currency: Option<string>): Json {
    Hash(map[Value := Int(value), Currency := OptStr(currency)])
  }

  /** `{ "card.encrypted.json": encrypted_card }` */
  function EncryptedCard(encryptedCard: string): Json {
    Hash(map[CardEncryptedJson := Str(encryptedCard)])
  }

  /** The two values `recurring_processing_model` may take. */
  const RecurringProcessingModels: seq<string> := ["Subscription", "CardOnFile"]

  // ---------------------------------------------------------------------------
  // Operations

  /** Charge a shopper's stored payment method; rejects an unknown processing model before building anything. */
  function AuthoriseRecurringPayment(
    c: Client,
    reference: string,
    shopperReference: string,
    amount: int,
    recurringReference: Arg<string>,
    merchantAccount: Arg<Option<string>>,
    currency: Arg<Option<string>>,
    statement: Arg<string>,
    recurringProcessingModel: Arg<string>
  ): (r: Result<Request, ArgumentError>)
    ensures r.Success? <==>
      (var m := recurringProcessingModel.Or("CardOnFile"); m == "Subscription" || m == "CardOnFile")
    ensures recurringProcessingModel.Omitted? ==> r.Success?
    ensures r.Failure? ==> r.error == ArgumentError("invalid recurring_processing_model")
  {
    var model := recurringProcessingModel.Or("CardOnFile");
    if model !in RecurringProcessingModels then
      Failure(ArgumentError("invalid recurring_processing_model"))
    else
      Success(Request("Payment", "authorise", Hash(map[
        Reference := Str(reference),
        Amount := AmountObj(amount, currency.Or(c.currency)),
        MerchantAccount := OptStr(merchantAccount.Or(c.merchantAccount)),
        ShopperReference := Str(shopperReference),
        ShopperStatement := Str(statement.Or("")),
        SelectedRecurringDetailReference := Str(recurringReference.Or("LATEST")),
        SelectedBrand := Str(""),
        Recurring := Hash(map[Contract := Str("RECURRING")]),
        ShopperInteraction := Str("ContAuth"),
        RecurringProcessingModel := Str(model)
      ])))
  }

  /** `authorize_recurring_payment`, an alias of `authorise_recurring_payment`. */
  function AuthorizeRecurringPayment(
    c: Client,
    reference: string,
    shopperReference: string,
    amount: int,
    recurringReference: Arg<string>,
    merchantAccount: Arg<Option<string>>,
    currency: Arg<Option<string>>,
    statement: Arg<string>,
    recurringProcessingModel: Arg<string>
  ): Result<Request, ArgumentError>
  {
    AuthoriseRecurringPayment(c, reference, shopperReference, amount, recurringReference,
                              merchantAccount, currency, statement, recurringProcessingModel)
  }

  /** List the payment methods stored for a shopper. */
  function ListRecurringDetails(
    c: Client,
    shopperReference: string,
    merchantAccount: Arg<Option<string>>,
    contract: Arg<string>
  ): Request
  {
    Request("Recurring", "listRecurringDetails", Hash(map[
      ShopperReference := Str(shopperReference),
      Recurring := Hash(map[Contract := Str(contract.Or("RECURRING"))]),
      MerchantAccount := OptStr(merchantAccount.Or(c.merchantAccount))
    ]))
  }

  /** Store a payment method for later use: a zero-value authorisation marked for recurring use. */
  function CreateRecurringContract(
    c: Client,
    encryptedCard: string,
    reference: string,
    shopper: CallerHash,
    merchantAccount: Arg<Option<string>>,
    currency: Arg<Option<string>>
  ): Request
  {
    Request("Payment", "authorise", Hash(map[
      Reference := Str(reference),
      AdditionalData := EncryptedCard(encryptedCard),
      Amount := AmountObj(0, currency.Or(c.currency)),
      MerchantAccount := OptStr(merchantAccount.Or(c.merchantAccount)),
      ShopperEmail := Fetch(shopper, Email),
      ShopperIP := Fetch(shopper, Ip),
      ShopperReference := Fetch(shopper, Reference),
      Recurring := Hash(map[Contract := Str("RECURRING")])
    ]))
  }

  /** Charge a card for `amount` cents. */
  function Authorise(
    c: Client,
    encryptedCard: string,
    amount: int,
    reference: string,
    merchantAccount: Arg<Option<string>>,
    currency: Arg<Option<string>>,
    shopper: Arg<CallerHash>,
    statement: Arg<string>
  ): Request
  {
    var sh := shopper.Or(map[]);
    Request("Payment", "authorise", Hash(map[
      Reference := Str(reference),
      Amount := AmountObj(amount, currency.Or(c.currency)),
      MerchantAccount := OptStr(merchantAccount.Or(c.merchantAccount)),
      AdditionalData := EncryptedCard(encryptedCard),
      ShopperEmail := Fetch(sh, Email),
      ShopperIP := Fetch(sh, Ip),
      ShopperReference := Fetch(sh, Reference),
      ShopperStatement := Str(statement.Or(""))
    ]))
  }

  /** `authorize`, an alias of `authorise`. */
  function Authorize(
    c: Client,
    encryptedCard: string,
    amount: int,
    reference: string,
    merchantAccount: Arg<Option<string>>,
    currency: Arg<Option<string>>,
    shopper: Arg<CallerHash>,
    statement: Arg<string>
  ): Request
  {
    Authorise(c, encryptedCard, amount, reference, merchantAccount, currency, shopper, statement)
  }

  /** Check a card without charging it: a zero-value authorisation carrying the amount aside. */
  function Verify(
    c: Client,
    encryptedCard: string,
    reference: string,
    amount: Arg<int>,
    merchantAccount: Arg<Option<string>>,
    currency: Arg<Option<string>>,
    shopper: Arg<CallerHash>,
    statement: Arg<string>
  ): Request
  {
    var cur := currency.Or(c.currency);
    var sh := shopper.Or(map[]);
    Request("Payment", "authorise", Hash(map[
      Reference := Str(reference),
      Amount := AmountObj(0, cur),
      AdditionalAmount := AmountObj(amount.Or(0), cur),
      MerchantAccount := OptStr(merchantAccount.Or(c.merchantAccount)),
      AdditionalData := EncryptedCard(encryptedCard),
      ShopperEmail := Fetch(sh, Email),
      ShopperIP := Fetch(sh, Ip),
      ShopperReference := Fetch(sh, Reference),
      ShopperStatement := Str(statement.Or(""))
    ]))
  }

  /** Capture an authorised payment; the modification amount is passed through as given. */
  function Capture(
    c: Client,
    originalReference: string,
    reference: string,
    modificationAmount: Json,
    merchantAccount: Arg<Option<string>>
  ): Request
  {
    Request("Payment", "capture", Hash(map[
      Reference := Str(reference),
      MerchantAccount := OptStr(merchantAccount.Or(c.merchantAccount)),
      ModificationAmount := modificationAmount,
      OriginalReference := Str(originalReference)
    ]))
  }

  /** Cancel an authorised payment. */
  function Cancel(
    c: Client,
    originalReference: string,
    reference: string,
    merchantAccount: Arg<Option<string>>
  ): Request
  {
    Request("Payment", "cancel", Hash(map[
      Reference := Str(reference),
      MerchantAccount := OptStr(merchantAccount.Or(c.merchantAccount)),
      OriginalReference := Str(originalReference)
    ]))
  }

  /** Refund `amount` cents of a captured payment. */
  function Refund(
    c: Client,
    originalReference: string,
    amount: int,
    reference: string,
    merchantAccount: Arg<Option<string>>,
    currency: Arg<Option<string>>
  ): Request
  {
    Request("Payment", "refund", Hash(map[
      Reference := Str(reference),
      MerchantAccount := OptStr(merchantAccount.Or(c.merchantAccount)),
      ModificationAmount := AmountObj(amount, currency.Or(c.currency)),
      OriginalReference := Str(originalReference)
    ]))
  }

  /**
   * Cancel or refund a payment whose state is unknown. The keyword is spelt
   * `merchantAccount`, but the body reads the client's own merchant account,
   * so the argument has no effect.
   */
  function CancelOrRefund(
    c: Client,
    originalReference: string,
    reference: string,
    merchantAccount: Arg<Option<string>>
  ): Request
  {
    Request("Payment", "cancelOrRefund", Hash(map[
      Reference := Str(reference),
      MerchantAccount := OptStr(c.merchantAccount),
      OriginalReference := Str(originalReference)
    ]))
  }

  /** The `bank:` hash of a payout: seven fields read from the caller's bank hash. */
  function BankDetails(b: CallerHash): Json {
    Hash(map[
      BankName := Fetch(b, BankName),
      Bic := Fetch(b, Bic),
      CountryCode := Fetch(b, CountryCode),
      Iban := Fetch(b, Iban),
      OwnerName := Fetch(b, OwnerName),
      BankCity := Fetch(b, BankCity),
      TaxId := Fetch(b, TaxId)
    ])
  }

  /** The `shopperName:` hash of a payout, read from the receiver hash. */
  function ReceiverName(s: CallerHash): Json {
    Hash(map[
      FirstName := Fetch(s, FirstName),
      LastName := Fetch(s, LastName),
      Gender := Fetch(s, Gender)
    ])
  }

  /** The `billingAddress:` hash of a payout; `houseNumberOrName` is read from `houseNumber`. */
  function PayoutAddress(addr: CallerHash): Json {
    Hash(map[
      HouseNumberOrName := Fetch(addr, HouseNumber),
      Street := Fetch(addr, Street),
      City := Fetch(addr, City),
      StateOrProvince := Fetch(addr, StateOrProvince),
      Country := Fetch(addr, Country),
      PostalCode := Fetch(addr, PostalCode)
    ])
  }

  /**
   * First phase of a payout: store the bank details and submit the payout.
   * The `merchantAccount` argument is accepted and not used. A given `amount`
   * hash is read key by key, with no fallback to the client's currency.
   */
  function InitiatePayout(
    c: Client,
    reference: string,
    amount: Arg<CallerHash>,
    bank: Arg<CallerHash>,
    receiver: Arg<CallerHash>,
    billingAddress: Arg<CallerHash>,
    merchantAccount: Arg<Option<string>>
  ): Request
  {
    var a := amount.Or(map[Value := Int(0), Currency := OptStr(c.currency)]);
    var s := receiver.Or(map[]);
    Request("Payout", "storeDetailAndSubmitThirdParty", Hash(map[
      MerchantAccount := OptStr(c.merchantAccount),
      Amount := Hash(map[Value := Fetch(a, Value), Currency := Fetch(a, Currency)]),
      Recurring := Hash(map[Contract := Str("RECURRING,PAYOUT")]),
      Reference := Str(reference),
      Bank := BankDetails(bank.Or(map[])),
      ShopperEmail := Fetch(s, Email),
      ShopperReference := Fetch(s, Reference),
      ShopperName := ReceiverName(s),
      DateOfBirth := Fetch(s, DateOfBirth),
      EntityType := Str("Person"),
      Nationality := Fetch(s, Nationality),
      BillingAddress := PayoutAddress(billingAddress.Or(map[]))
    ]))
  }

  /**
   * Second phase of a payout: confirm it by the reference the first phase
   * returned. Like `CancelOrRefund`, it ignores its `merchantAccount` argument.
   */
  function ConfirmPayout(
    c: Client,
    originalReference: string,
    merchantAccount: Arg<Option<string>>
  ): Request
  {
    Request("Payout", "confirmThirdParty", Hash(map[
      MerchantAccount := OptStr(c.merchantAccount),
      OriginalReference := Str(originalReference)
    ]))
  }
}
