/**
 * What the requests built by `AdyenClient` carry: the fixed path of each
 * operation, the values found under the keys of its body, the defaults it
 * fills in, and how merchant account and currency are resolved.
 */
module AdyenClientProperties {
  import opened Wrappers
  import opened Payload
  import opened AdyenClient

  /**
   * The reference rule for merchant account and currency: the call's own
   * argument, else the value given when the client was made, else the
   * configuration default.
   */
  function FirstGiven(call: Arg<Option<string>>, construction: Arg<Option<string>>, default: Option<string>): Option<string> {
    match call
    case Given(v) => v
    case Omitted =>
      match construction
      case Given(v) => v
      case Omitted => default
  }

  /**
   * What one call sends for merchant account or currency, given the value the
   * client stored. It is `call.Or(stored)` written out as a match on purpose:
   * the lemmas state the two-layer rule (call, else client) by this
   * definition rather than by the expression the operations are built from,
   * and `ResolutionOrder` extends it to the three layers of `FirstGiven`.
   */
  function CallOrClient(call: Arg<Option<string>>, stored: Option<string>): Option<string> {
    match call
    case Given(v) => v
    case Omitted => stored
  }

  /** The hash `v` holds under `key` is a hash with exactly the keys `keys`. */
  predicate NestedKeys(v: Json, key: Symbol, keys: set<Symbol>) {
    v.Hash? && key in v.fields && v.fields[key].Hash? && v.fields[key].fields.Keys == keys
  }

  /**
   * `hash[key]` on a hash the caller passes (`{}` when left out): nil when the
   * key is missing. A shorthand the lemmas use for `Fetch` on an optional
   * argument, so that each states the value read from the caller's hash once.
   */
  function Read(h: Arg<CallerHash>, key: Symbol): Json {
    Fetch(h.Or(map[]), key)
  }

  // ---------------------------------------------------------------------------
  // Client construction and default resolution

  /**
   * End to end, for a client made from a configuration and a call to
   * `authorise` on it: merchant account and currency are the call's
   * arguments if given, else the constructor's, else the configuration's;
   * when none is set, nil is sent and never an empty string.
   */
  lemma ResolutionOrder(
    config: Config, constructionAccount: Arg<Option<string>>, constructionCurrency: Arg<Option<string>>,
    encryptedCard: string, amount: int, reference: string,
    merchantAccount: Arg<Option<string>>, currency: Arg<Option<string>>,
    shopper: Arg<CallerHash>, statement: Arg<string>)
    ensures
      var c := NewClient(config, constructionAccount, constructionCurrency);
      var r := Authorise(c, encryptedCard, amount, reference, merchantAccount, currency, shopper, statement);
      && At(r.body, [MerchantAccount]) == Some(OptStr(FirstGiven(merchantAccount, constructionAccount, config.defaultMerchantAccount)))
      && At(r.body, [Amount, Currency]) == Some(OptStr(FirstGiven(currency, constructionCurrency, config.defaultCurrency)))
      && (merchantAccount.Omitted? && constructionAccount.Omitted? && config.defaultMerchantAccount.None?
          ==> At(r.body, [MerchantAccount]) == Some(Nil))
  {
    var c := NewClient(config, constructionAccount, constructionCurrency);
    var body := Authorise(c, encryptedCard, amount, reference, merchantAccount, currency, shopper, statement).body;
    AtOne(body, MerchantAccount);
    AtTwo(body, Amount, Currency);
  }

  // ---------------------------------------------------------------------------
  // authorise, verify and create_recurring_contract

  /**
   * `authorise` charges the caller's amount directly, in the resolved currency,
   * with the card token under `card.encrypted.json`, and sends nothing but its
   * eight keys.
   */
  lemma AuthoriseRequest(
    c: Client, encryptedCard: string, amount: int, reference: string,
    merchantAccount: Arg<Option<string>>, currency: Arg<Option<string>>,
    shopper: Arg<CallerHash>, statement: Arg<string>)
    ensures var r := Authorise(c, encryptedCard, amount, reference, merchantAccount, currency, shopper, statement);
      && At(r.body, [Amount, Value]) == Some(Int(amount))
      && At(r.body, [Amount, Currency]) == Some(OptStr(CallOrClient(currency, c.currency)))
      && At(r.body, [AdditionalData, CardEncryptedJson]) == Some(Str(encryptedCard))
      && At(r.body, [Reference]) == Some(Str(reference))
      && r.body.Hash?
      && r.body.fields.Keys == {Reference, Amount, MerchantAccount, AdditionalData,
                                ShopperEmail, ShopperIP, ShopperReference, ShopperStatement}
      && NestedKeys(r.body, Amount, {Value, Currency})
      && NestedKeys(r.body, AdditionalData, {CardEncryptedJson})
  {
    var body := Authorise(c, encryptedCard, amount, reference, merchantAccount, currency, shopper, statement).body;
    AtTwo(body, Amount, Value);
    AtTwo(body, Amount, Currency);
    AtTwo(body, AdditionalData, CardEncryptedJson);
    AtOne(body, Reference);
  }

  /**
   * Shopper details the caller leaves out are sent as nil, never as an empty
   * string; the statement is the one given, else the empty string.
   */
  lemma AuthoriseShopperData(
    c: Client, encryptedCard: string, amount: int, reference: string,
    merchantAccount: Arg<Option<string>>, currency: Arg<Option<string>>,
    shopper: Arg<CallerHash>, statement: Arg<string>)
    ensures var r := Authorise(c, encryptedCard, amount, reference, merchantAccount, currency, shopper, statement);
      && At(r.body, [ShopperEmail]) == Some(Read(shopper, Email))
      && At(r.body, [ShopperIP]) == Some(Read(shopper, Ip))
      && At(r.body, [ShopperReference]) == Some(Read(shopper, Reference))
      && (shopper.Omitted? ==> At(r.body, [ShopperEmail]) == Some(Nil))
      && At(r.body, [ShopperStatement]) == Some(Str(if statement.Given? then statement.value else ""))
  {
    var body := Authorise(c, encryptedCard, amount, reference, merchantAccount, currency, shopper, statement).body;
    AtOne(body, ShopperEmail);
    AtOne(body, ShopperIP);
    AtOne(body, ShopperReference);
    AtOne(body, ShopperStatement);
  }

  /**
   * `verify` authorises for zero and carries the caller's amount (default 0) as
   * `additionalAmount`, both in one currency.
   */
  lemma VerifyRequest(
    c: Client, encryptedCard: string, reference: string, amount: Arg<int>,
    merchantAccount: Arg<Option<string>>, currency: Arg<Option<string>>,
    shopper: Arg<CallerHash>, statement: Arg<string>)
    ensures var r := Verify(c, encryptedCard, reference, amount, merchantAccount, currency, shopper, statement);
      && At(r.body, [Amount, Value]) == Some(Int(0))
      && At(r.body, [AdditionalAmount, Value]) == Some(Int(if amount.Given? then amount.value else 0))
      && At(r.body, [Amount, Currency]) == Some(OptStr(CallOrClient(currency, c.currency)))
      && At(r.body, [AdditionalAmount, Currency]) == At(r.body, [Amount, Currency])
      && NestedKeys(r.body, Amount, {Value, Currency})
      && NestedKeys(r.body, AdditionalAmount, {Value, Currency})
  {
    var body := Verify(c, encryptedCard, reference, amount, merchantAccount, currency, shopper, statement).body;
    AtTwo(body, Amount, Value);
    AtTwo(body, Amount, Currency);
    AtTwo(body, AdditionalAmount, Value);
    AtTwo(body, AdditionalAmount, Currency);
  }

  /** The keys `verify` and `authorise` both send, apart from the amount. */
  const SharedKeys: seq<Symbol> :=
    [Reference, MerchantAccount, AdditionalData, ShopperEmail, ShopperIP, ShopperReference, ShopperStatement]

  /**
   * `verify` is `authorise` for the same arguments with the amount moved:
   * what `authorise` would charge for the verification amount (0 when left
   * out) is sent as `additionalAmount`, and every other key but `amount`
   * carries the same value in both.
   */
  lemma VerifyAgreesWithAuthorise(
    c: Client, encryptedCard: string, reference: string, amount: Arg<int>,
    merchantAccount: Arg<Option<string>>, currency: Arg<Option<string>>,
    shopper: Arg<CallerHash>, statement: Arg<string>)
    ensures
      var v := Verify(c, encryptedCard, reference, amount, merchantAccount, currency, shopper, statement);
      var a := Authorise(c, encryptedCard, amount.Or(0), reference, merchantAccount, currency, shopper, statement);
      && Get(v.body, AdditionalAmount) == Get(a.body, Amount)
      && forall i :: 0 <= i < |SharedKeys| ==> Get(v.body, SharedKeys[i]) == Get(a.body, SharedKeys[i])
  {
    var v := Verify(c, encryptedCard, reference, amount, merchantAccount, currency, shopper, statement).body;
    var a := Authorise(c, encryptedCard, amount.Or(0), reference, merchantAccount, currency, shopper, statement).body;
    forall i | 0 <= i < |SharedKeys|
      ensures Get(v, SharedKeys[i]) == Get(a, SharedKeys[i])
    {
      var k := SharedKeys[i];
      assert k in v.fields && k in a.fields;
      assert v.fields[k] == a.fields[k];
    }
  }

  /**
   * `verify`, with or without an amount, sends exactly the keys of
   * `authorise` and `additionalAmount`, which `authorise` does not send.
   */
  lemma VerifyKeys(
    c: Client, encryptedCard: string, reference: string, amount: Arg<int>,
    merchantAccount: Arg<Option<string>>, currency: Arg<Option<string>>,
    shopper: Arg<CallerHash>, statement: Arg<string>)
    ensures
      var v := Verify(c, encryptedCard, reference, amount, merchantAccount, currency, shopper, statement);
      var a := Authorise(c, encryptedCard, amount.Or(0), reference, merchantAccount, currency, shopper, statement);
      && v.body.Hash? && a.body.Hash?
      && AdditionalAmount !in a.body.fields
      && v.body.fields.Keys == a.body.fields.Keys + {AdditionalAmount}
  {
    var cur := currency.Or(c.currency);
    var sh := shopper.Or(map[]);
    VerifyKeySet(Str(reference), AmountObj(0, cur), AmountObj(amount.Or(0), cur),
                 OptStr(merchantAccount.Or(c.merchantAccount)), EncryptedCard(encryptedCard),
                 Fetch(sh, Email), Fetch(sh, Ip), Fetch(sh, Reference), Str(statement.Or("")));
  }

  /**
   * The nine keys of a `verify` hash literal are the eight of `authorise` and
   * `additionalAmount`, whatever the values.
   */
  lemma VerifyKeySet(a: Json, b: Json, b': Json, d: Json, e: Json, f: Json, g: Json, h: Json, i: Json)
    ensures var authorise := map[Reference := a, Amount := b', MerchantAccount := d, AdditionalData := e,
                                 ShopperEmail := f, ShopperIP := g, ShopperReference := h, ShopperStatement := i];
      && AdditionalAmount !in authorise
      && map[Reference := a, Amount := b, AdditionalAmount := b', MerchantAccount := d, AdditionalData := e,
             ShopperEmail := f, ShopperIP := g, ShopperReference := h, ShopperStatement := i].Keys
         == authorise.Keys + {AdditionalAmount}
  {
  }

  /**
   * `create_recurring_contract` is a zero-value authorisation marked for
   * recurring use, with the card token under `card.encrypted.json`, and
   * sends nothing but its eight keys.
   */
  lemma CreateRecurringContractRequest(
    c: Client, encryptedCard: string, reference: string, shopper: CallerHash,
    merchantAccount: Arg<Option<string>>, currency: Arg<Option<string>>)
    ensures var r := CreateRecurringContract(c, encryptedCard, reference, shopper, merchantAccount, currency);
      && At(r.body, [Amount, Value]) == Some(Int(0))
      && At(r.body, [Amount, Currency]) == Some(OptStr(CallOrClient(currency, c.currency)))
      && At(r.body, [Recurring, Contract]) == Some(Str("RECURRING"))
      && At(r.body, [AdditionalData, CardEncryptedJson]) == Some(Str(encryptedCard))
      && At(r.body, [Reference]) == Some(Str(reference))
      && r.body.Hash?
      && r.body.fields.Keys == {Reference, AdditionalData, Amount, MerchantAccount,
                                ShopperEmail, ShopperIP, ShopperReference, Recurring}
      && NestedKeys(r.body, Amount, {Value, Currency})
      && NestedKeys(r.body, AdditionalData, {CardEncryptedJson})
      && NestedKeys(r.body, Recurring, {Contract})
  {
    var body := CreateRecurringContract(c, encryptedCard, reference, shopper, merchantAccount, currency).body;
    AtTwo(body, Amount, Value);
    AtTwo(body, Amount, Currency);
    AtTwo(body, Recurring, Contract);
    AtTwo(body, AdditionalData, CardEncryptedJson);
    AtOne(body, Reference);
    assert body.fields[Amount] == AmountObj(0, currency.Or(c.currency));
    assert body.fields[AdditionalData] == EncryptedCard(encryptedCard);
    assert body.fields[Recurring] == Hash(map[Contract := Str("RECURRING")]);
  }

  /**
   * `create_recurring_contract` reads the shopper's details from the shopper
   * hash, sending nil for any that is missing.
   */
  lemma CreateRecurringContractShopper(
    c: Client, encryptedCard: string, reference: string, shopper: CallerHash,
    merchantAccount: Arg<Option<string>>, currency: Arg<Option<string>>)
    ensures var r := CreateRecurringContract(c, encryptedCard, reference, shopper, merchantAccount, currency);
      && At(r.body, [MerchantAccount]) == Some(OptStr(CallOrClient(merchantAccount, c.merchantAccount)))
      && At(r.body, [ShopperEmail]) == Some(Read(Given(shopper), Email))
      && At(r.body, [ShopperIP]) == Some(Read(Given(shopper), Ip))
      && At(r.body, [ShopperReference]) == Some(Read(Given(shopper), Reference))
  {
    var body := CreateRecurringContract(c, encryptedCard, reference, shopper, merchantAccount, currency).body;
    AtOne(body, MerchantAccount);
    AtOne(body, ShopperEmail);
    AtOne(body, ShopperIP);
    AtOne(body, ShopperReference);
  }

  // ---------------------------------------------------------------------------
  // authorise_recurring_payment

  /** A valid processing model is accepted, and the charge is for the caller's amount in the resolved currency. */
  lemma AuthoriseRecurringPaymentRequest(
    c: Client, reference: string, shopperReference: string, amount: int,
    recurringReference: Arg<string>, merchantAccount: Arg<Option<string>>, currency: Arg<Option<string>>,
    statement: Arg<string>, recurringProcessingModel: Arg<string>)
    requires recurringProcessingModel.Given? ==> recurringProcessingModel.value in {"Subscription", "CardOnFile"}
    ensures var r := AuthoriseRecurringPayment(c, reference, shopperReference, amount, recurringReference,
                                               merchantAccount, currency, statement, recurringProcessingModel);
      && r.Success?
      && At(r.value.body, [Amount, Value]) == Some(Int(amount))
      && At(r.value.body, [Amount, Currency]) == Some(OptStr(CallOrClient(currency, c.currency)))
      && At(r.value.body, [Reference]) == Some(Str(reference))
  {
    var body := AuthoriseRecurringPayment(c, reference, shopperReference, amount, recurringReference,
                                          merchantAccount, currency, statement, recurringProcessingModel).value.body;
    AtTwo(body, Amount, Value);
    AtTwo(body, Amount, Currency);
    AtOne(body, Reference);
  }

  /**
   * The charge names the shopper, the stored method (the given one, else
   * "LATEST", the most recent), the processing model (else "CardOnFile")
   * and the statement (else the empty string).
   */
  lemma AuthoriseRecurringPaymentReferences(
    c: Client, reference: string, shopperReference: string, amount: int,
    recurringReference: Arg<string>, merchantAccount: Arg<Option<string>>, currency: Arg<Option<string>>,
    statement: Arg<string>, recurringProcessingModel: Arg<string>)
    requires recurringProcessingModel.Given? ==> recurringProcessingModel.value in {"Subscription", "CardOnFile"}
    ensures var r := AuthoriseRecurringPayment(c, reference, shopperReference, amount, recurringReference,
                                               merchantAccount, currency, statement, recurringProcessingModel);
      && r.Success?
      && At(r.value.body, [ShopperReference]) == Some(Str(shopperReference))
      && At(r.value.body, [SelectedRecurringDetailReference])
         == Some(Str(if recurringReference.Given? then recurringReference.value else "LATEST"))
      && At(r.value.body, [RecurringProcessingModel])
         == Some(Str(if recurringProcessingModel.Given? then recurringProcessingModel.value else "CardOnFile"))
      && At(r.value.body, [ShopperStatement]) == Some(Str(if statement.Given? then statement.value else ""))
  {
    var body := AuthoriseRecurringPayment(c, reference, shopperReference, amount, recurringReference,
                                          merchantAccount, currency, statement, recurringProcessingModel).value.body;
    AtOne(body, ShopperReference);
    AtOne(body, SelectedRecurringDetailReference);
    AtOne(body, RecurringProcessingModel);
    AtOne(body, ShopperStatement);
  }

  /**
   * With the optional arguments left out, the charge is accepted, with an empty
   * statement and brand, for the shopper's latest stored method.
   */
  lemma AuthoriseRecurringPaymentDefaults(
    c: Client, reference: string, shopperReference: string, amount: int,
    merchantAccount: Arg<Option<string>>, currency: Arg<Option<string>>)
    ensures var r := AuthoriseRecurringPayment(c, reference, shopperReference, amount, Omitted,
                                               merchantAccount, currency, Omitted, Omitted);
      && r.Success?
      && At(r.value.body, [SelectedRecurringDetailReference]) == Some(Str("LATEST"))
      && At(r.value.body, [ShopperStatement]) == Some(Str(""))
      && At(r.value.body, [SelectedBrand]) == Some(Str(""))
  {
    var body := AuthoriseRecurringPayment(c, reference, shopperReference, amount, Omitted,
                                          merchantAccount, currency, Omitted, Omitted).value.body;
    AtOne(body, SelectedRecurringDetailReference);
    AtOne(body, ShopperStatement);
    AtOne(body, SelectedBrand);
  }

  /**
   * Whatever the optional arguments, a recurring charge is a RECURRING contract
   * with "ContAuth" interaction and an empty brand, with nothing but its ten
   * keys.
   */
  lemma AuthoriseRecurringPaymentContract(
    c: Client, reference: string, shopperReference: string, amount: int,
    recurringReference: Arg<string>, merchantAccount: Arg<Option<string>>, currency: Arg<Option<string>>,
    statement: Arg<string>, recurringProcessingModel: Arg<string>)
    requires recurringProcessingModel.Given? ==> recurringProcessingModel.value in {"Subscription", "CardOnFile"}
    ensures var r := AuthoriseRecurringPayment(c, reference, shopperReference, amount, recurringReference,
                                               merchantAccount, currency, statement, recurringProcessingModel);
      && r.Success?
      && At(r.value.body, [Recurring, Contract]) == Some(Str("RECURRING"))
      && At(r.value.body, [ShopperInteraction]) == Some(Str("ContAuth"))
      && At(r.value.body, [SelectedBrand]) == Some(Str(""))
      && At(r.value.body, [MerchantAccount]) == Some(OptStr(CallOrClient(merchantAccount, c.merchantAccount)))
      && r.value.body.Hash?
      && r.value.body.fields.Keys == {Reference, Amount, MerchantAccount, ShopperReference, ShopperStatement,
                                      SelectedRecurringDetailReference, SelectedBrand, Recurring,
                                      ShopperInteraction, RecurringProcessingModel}
  {
    var body := AuthoriseRecurringPayment(c, reference, shopperReference, amount, recurringReference,
                                          merchantAccount, currency, statement, recurringProcessingModel).value.body;
    AtTwo(body, Recurring, Contract);
    AtOne(body, ShopperInteraction);
    AtOne(body, SelectedBrand);
    AtOne(body, MerchantAccount);
  }

  /** An accepted recurring charge's amount holds only value and currency, its recurring hash only the contract. */
  lemma AuthoriseRecurringPaymentNested(
    c: Client, reference: string, shopperReference: string, amount: int,
    recurringReference: Arg<string>, merchantAccount: Arg<Option<string>>, currency: Arg<Option<string>>,
    statement: Arg<string>, recurringProcessingModel: Arg<string>)
    ensures var r := AuthoriseRecurringPayment(c, reference, shopperReference, amount, recurringReference,
                                               merchantAccount, currency, statement, recurringProcessingModel);
      r.Success? ==>
        && NestedKeys(r.value.body, Amount, {Value, Currency})
        && NestedKeys(r.value.body, Recurring, {Contract})
  {
    var r := AuthoriseRecurringPayment(c, reference, shopperReference, amount, recurringReference,
                                       merchantAccount, currency, statement, recurringProcessingModel);
    if r.Success? {
      assert r.value.body.fields[Amount] == AmountObj(amount, currency.Or(c.currency));
      assert r.value.body.fields[Recurring] == Hash(map[Contract := Str("RECURRING")]);
    }
  }

  // ---------------------------------------------------------------------------
  // list_recurring_details

  /**
   * Listing stored methods names the shopper and the contract type (default
   * RECURRING) for the merchant account, and nothing else.
   */
  lemma ListRecurringDetailsRequest(
    c: Client, shopperReference: string, merchantAccount: Arg<Option<string>>, contract: Arg<string>)
    ensures var r := ListRecurringDetails(c, shopperReference, merchantAccount, contract);
      && At(r.body, [ShopperReference]) == Some(Str(shopperReference))
      && At(r.body, [Recurring, Contract]) == Some(Str(if contract.Given? then contract.value else "RECURRING"))
      && At(r.body, [MerchantAccount]) == Some(OptStr(CallOrClient(merchantAccount, c.merchantAccount)))
      && Get(r.body, Amount) == None
      && r.body.Hash? && r.body.fields.Keys == {ShopperReference, Recurring, MerchantAccount}
      && NestedKeys(r.body, Recurring, {Contract})
  {
    var body := ListRecurringDetails(c, shopperReference, merchantAccount, contract).body;
    AtOne(body, ShopperReference);
    AtTwo(body, Recurring, Contract);
    AtOne(body, MerchantAccount);
  }

  // ---------------------------------------------------------------------------
  // Modifications of an earlier payment

  /**
   * `capture` passes the caller's modification amount through unchanged and
   * names the payment it captures, with nothing else.
   */
  lemma CaptureRequest(
    c: Client, originalReference: string, reference: string, modificationAmount: Json, merchantAccount: Arg<Option<string>>)
    ensures var r := Capture(c, originalReference, reference, modificationAmount, merchantAccount);
      && At(r.body, [ModificationAmount]) == Some(modificationAmount)
      && At(r.body, [OriginalReference]) == Some(Str(originalReference))
      && At(r.body, [Reference]) == Some(Str(reference))
      && At(r.body, [MerchantAccount]) == Some(OptStr(CallOrClient(merchantAccount, c.merchantAccount)))
      && r.body.Hash? && r.body.fields.Keys == {Reference, MerchantAccount, ModificationAmount, OriginalReference}
  {
    var body := Capture(c, originalReference, reference, modificationAmount, merchantAccount).body;
    AtOne(body, ModificationAmount);
    AtOne(body, OriginalReference);
    AtOne(body, Reference);
    AtOne(body, MerchantAccount);
  }

  /** `cancel` names the payment it cancels and sends nothing else: no modification amount. */
  lemma CancelRequest(
    c: Client, originalReference: string, reference: string, merchantAccount: Arg<Option<string>>)
    ensures var r := Cancel(c, originalReference, reference, merchantAccount);
      && At(r.body, [OriginalReference]) == Some(Str(originalReference))
      && At(r.body, [Reference]) == Some(Str(reference))
      && At(r.body, [MerchantAccount]) == Some(OptStr(CallOrClient(merchantAccount, c.merchantAccount)))
      && Get(r.body, ModificationAmount) == None
      && r.body.Hash? && r.body.fields.Keys == {Reference, MerchantAccount, OriginalReference}
  {
    var body := Cancel(c, originalReference, reference, merchantAccount).body;
    AtOne(body, OriginalReference);
    AtOne(body, Reference);
    AtOne(body, MerchantAccount);
  }

  /**
   * `refund` builds its modification amount from the caller's amount and the
   * resolved currency, and sends nothing else.
   */
  lemma RefundRequest(
    c: Client, originalReference: string, amount: int, reference: string,
    merchantAccount: Arg<Option<string>>, currency: Arg<Option<string>>)
    ensures var r := Refund(c, originalReference, amount, reference, merchantAccount, currency);
      && At(r.body, [ModificationAmount, Value]) == Some(Int(amount))
      && At(r.body, [ModificationAmount, Currency]) == Some(OptStr(CallOrClient(currency, c.currency)))
      && At(r.body, [OriginalReference]) == Some(Str(originalReference))
      && At(r.body, [Reference]) == Some(Str(reference))
      && At(r.body, [MerchantAccount]) == Some(OptStr(CallOrClient(merchantAccount, c.merchantAccount)))
      && r.body.Hash? && r.body.fields.Keys == {Reference, MerchantAccount, ModificationAmount, OriginalReference}
      && NestedKeys(r.body, ModificationAmount, {Value, Currency})
  {
    var body := Refund(c, originalReference, amount, reference, merchantAccount, currency).body;
    AtTwo(body, ModificationAmount, Value);
    AtTwo(body, ModificationAmount, Currency);
    AtOne(body, OriginalReference);
    AtOne(body, Reference);
    AtOne(body, MerchantAccount);
  }

  /**
   * `cancel_or_refund` always sends the client's own merchant account, and sends
   * nothing else: no modification amount.
   */
  lemma CancelOrRefundRequest(
    c: Client, originalReference: string, reference: string, merchantAccount: Arg<Option<string>>)
    ensures var r := CancelOrRefund(c, originalReference, reference, merchantAccount);
      && At(r.body, [OriginalReference]) == Some(Str(originalReference))
      && At(r.body, [Reference]) == Some(Str(reference))
      && At(r.body, [MerchantAccount]) == Some(OptStr(c.merchantAccount))
      && Get(r.body, ModificationAmount) == None
      && r.body.Hash? && r.body.fields.Keys == {Reference, MerchantAccount, OriginalReference}
  {
    var body := CancelOrRefund(c, originalReference, reference, merchantAccount).body;
    AtOne(body, OriginalReference);
    AtOne(body, Reference);
    AtOne(body, MerchantAccount);
  }

  // ---------------------------------------------------------------------------
  // Payouts

  /** The bank fields of a payout; each is read from the bank hash under the same name. */
  const BankFields: seq<Symbol> := [BankName, Bic, CountryCode, Iban, OwnerName, BankCity, TaxId]

  /** The billing address fields of a payout, as sent. */
  const AddressFields: seq<Symbol> := [HouseNumberOrName, Street, City, StateOrProvince, Country, PostalCode]

  /** Where each billing address field is read from in the caller's hash: `houseNumberOrName` from `houseNumber`. */
  const AddressSources: seq<Symbol> := [HouseNumber, Street, City, StateOrProvince, Country, PostalCode]

  /** The receiver fields of a payout's `shopperName`. */
  const NameFields: seq<Symbol> := [FirstName, LastName, Gender]

  /** The bank hash of a payout holds exactly the seven bank fields, each read from the caller's hash. */
  lemma BankDetailsFields(b: CallerHash)
    ensures forall k :: k in BankDetails(b).fields <==> k in BankFields
    ensures forall i :: 0 <= i < |BankFields| ==> Get(BankDetails(b), BankFields[i]) == Some(Fetch(b, BankFields[i]))
  {
    forall i | 0 <= i < |BankFields|
      ensures Get(BankDetails(b), BankFields[i]) == Some(Fetch(b, BankFields[i]))
    {
    }
  }

  /** The billing address of a payout holds exactly the six address fields, each read from its source key. */
  lemma PayoutAddressFields(addr: CallerHash)
    ensures forall k :: k in PayoutAddress(addr).fields <==> k in AddressFields
    ensures forall i :: 0 <= i < |AddressFields| ==> Get(PayoutAddress(addr), AddressFields[i]) == Some(Fetch(addr, AddressSources[i]))
  {
    forall i | 0 <= i < |AddressFields|
      ensures Get(PayoutAddress(addr), AddressFields[i]) == Some(Fetch(addr, AddressSources[i]))
    {
    }
  }

  /** The receiver's name hash holds first name, last name and gender, each read from the receiver hash. */
  lemma ReceiverNameFields(s: CallerHash)
    ensures forall k :: k in ReceiverName(s).fields <==> k in NameFields
    ensures forall i :: 0 <= i < |NameFields| ==> Get(ReceiverName(s), NameFields[i]) == Some(Fetch(s, NameFields[i]))
  {
    forall i | 0 <= i < |NameFields|
      ensures Get(ReceiverName(s), NameFields[i]) == Some(Fetch(s, NameFields[i]))
    {
    }
  }

/** A payout always sends the client's merchant account, whatever the call passes, and a RECURRING,PAYOUT contract. */
  lemma InitiatePayoutRequest(
    c: Client, reference: string, amount: Arg<CallerHash>, bank: Arg<CallerHash>,
    receiver: Arg<CallerHash>, billingAddress: Arg<CallerHash>, merchantAccount: Arg<Option<string>>)
    ensures var r := InitiatePayout(c, reference, amount, bank, receiver, billingAddress, merchantAccount);
      && At(r.body, [MerchantAccount]) == Some(OptStr(c.merchantAccount))
      && At(r.body, [Recurring, Contract]) == Some(Str("RECURRING,PAYOUT"))
  {
    var body := InitiatePayout(c, reference, amount, bank, receiver, billingAddress, merchantAccount).body;
    AtOne(body, MerchantAccount);
    AtTwo(body, Recurring, Contract);
  }

  /** A payout's amount holds only value and currency, its recurring hash only the contract. */
  lemma InitiatePayoutNested(
    c: Client, reference: string, amount: Arg<CallerHash>, bank: Arg<CallerHash>,
    receiver: Arg<CallerHash>, billingAddress: Arg<CallerHash>, merchantAccount: Arg<Option<string>>)
    ensures var r := InitiatePayout(c, reference, amount, bank, receiver, billingAddress, merchantAccount);
      && NestedKeys(r.body, Amount, {Value, Currency})
      && NestedKeys(r.body, Recurring, {Contract})
  {
    var body := InitiatePayout(c, reference, amount, bank, receiver, billingAddress, merchantAccount).body;
    var a := amount.Or(map[Value := Int(0), Currency := OptStr(c.currency)]);
    assert body.fields[Amount] == Hash(map[Value := Fetch(a, Value), Currency := Fetch(a, Currency)]);
    assert body.fields[Recurring] == Hash(map[Contract := Str("RECURRING,PAYOUT")]);
  }

  /** A payout sends exactly the twelve keys of its request, and nothing else. */
  lemma InitiatePayoutKeys(
    c: Client, reference: string, amount: Arg<CallerHash>, bank: Arg<CallerHash>,
    receiver: Arg<CallerHash>, billingAddress: Arg<CallerHash>, merchantAccount: Arg<Option<string>>)
    ensures var r := InitiatePayout(c, reference, amount, bank, receiver, billingAddress, merchantAccount);
      && r.body.Hash?
      && r.body.fields.Keys == {MerchantAccount, Amount, Recurring, Reference, Bank, ShopperEmail, ShopperReference,
                                ShopperName, DateOfBirth, EntityType, Nationality, BillingAddress}
  {
    var a := amount.Or(map[Value := Int(0), Currency := OptStr(c.currency)]);
    var s := receiver.Or(map[]);
    PayoutKeySet(OptStr(c.merchantAccount), Hash(map[Value := Fetch(a, Value), Currency := Fetch(a, Currency)]),
                 Hash(map[Contract := Str("RECURRING,PAYOUT")]), Str(reference), BankDetails(bank.Or(map[])),
                 Fetch(s, Email), Fetch(s, Reference), ReceiverName(s), Fetch(s, DateOfBirth), Str("Person"),
                 Fetch(s, Nationality), PayoutAddress(billingAddress.Or(map[])));
  }

  /** A hash literal with the twelve keys of a payout has exactly those keys, whatever their values. */
  lemma PayoutKeySet(a: Json, b: Json, c: Json, d: Json, e: Json, f: Json, g: Json, h: Json, i: Json, j: Json, k: Json, l: Json)
    ensures map[MerchantAccount := a, Amount := b, Recurring := c, Reference := d, Bank := e, ShopperEmail := f,
                ShopperReference := g, ShopperName := h, DateOfBirth := i, EntityType := j, Nationality := k,
                BillingAddress := l].Keys
         == {MerchantAccount, Amount, Recurring, Reference, Bank, ShopperEmail, ShopperReference,
             ShopperName, DateOfBirth, EntityType, Nationality, BillingAddress}
  {
  }

  /** Without an amount hash, a payout is for 0 in the client's currency. */
  lemma InitiatePayoutDefaultAmount(
    c: Client, reference: string, bank: Arg<CallerHash>,
    receiver: Arg<CallerHash>, billingAddress: Arg<CallerHash>, merchantAccount: Arg<Option<string>>)
    ensures var r := InitiatePayout(c, reference, Omitted, bank, receiver, billingAddress, merchantAccount);
      && At(r.body, [Amount, Value]) == Some(Int(0))
      && At(r.body, [Amount, Currency]) == Some(OptStr(c.currency))
  {
    var body := InitiatePayout(c, reference, Omitted, bank, receiver, billingAddress, merchantAccount).body;
    AtTwo(body, Amount, Value);
    AtTwo(body, Amount, Currency);
  }

  /**
   * A given amount hash is read key by key: a missing `currency` is sent as
   * nil, with no fallback to the client's currency.
   */
  lemma InitiatePayoutGivenAmount(
    c: Client, reference: string, amount: CallerHash, bank: Arg<CallerHash>,
    receiver: Arg<CallerHash>, billingAddress: Arg<CallerHash>, merchantAccount: Arg<Option<string>>)
    ensures var r := InitiatePayout(c, reference, Given(amount), bank, receiver, billingAddress, merchantAccount);
      && At(r.body, [Amount, Value]) == Some(Read(Given(amount), Value))
      && At(r.body, [Amount, Currency]) == Some(Read(Given(amount), Currency))
      && (Currency !in amount ==> At(r.body, [Amount, Currency]) == Some(Nil))
  {
    var body := InitiatePayout(c, reference, Given(amount), bank, receiver, billingAddress, merchantAccount).body;
    AtTwo(body, Amount, Value);
    AtTwo(body, Amount, Currency);
  }

  /**
   * The request's bank hash is `BankDetails`: each of the seven bank fields is
   * read from the bank hash, nil when it is missing or no hash is given.
   */
  lemma InitiatePayoutBank(
    c: Client, reference: string, amount: Arg<CallerHash>, bank: Arg<CallerHash>,
    receiver: Arg<CallerHash>, billingAddress: Arg<CallerHash>, merchantAccount: Arg<Option<string>>)
    ensures At(InitiatePayout(c, reference, amount, bank, receiver, billingAddress, merchantAccount).body, [Bank])
         == Some(BankDetails(bank.Or(map[])))
    ensures var r := InitiatePayout(c, reference, amount, bank, receiver, billingAddress, merchantAccount);
      forall i :: 0 <= i < |BankFields| ==> At(r.body, [Bank, BankFields[i]]) == Some(Read(bank, BankFields[i]))
  {
    var body := InitiatePayout(c, reference, amount, bank, receiver, billingAddress, merchantAccount).body;
    AtOne(body, Bank);
    BankDetailsFields(bank.Or(map[]));
    forall i | 0 <= i < |BankFields|
      ensures At(body, [Bank, BankFields[i]]) == Some(Read(bank, BankFields[i]))
    {
      AtTwo(body, Bank, BankFields[i]);
    }
  }

  /**
   * The request's billing address is `PayoutAddress`: read field by field, with
   * `houseNumber` sent as `houseNumberOrName`.
   */
  lemma InitiatePayoutBillingAddress(
    c: Client, reference: string, amount: Arg<CallerHash>, bank: Arg<CallerHash>,
    receiver: Arg<CallerHash>, billingAddress: Arg<CallerHash>, merchantAccount: Arg<Option<string>>)
    ensures At(InitiatePayout(c, reference, amount, bank, receiver, billingAddress, merchantAccount).body, [BillingAddress])
         == Some(PayoutAddress(billingAddress.Or(map[])))
    ensures var r := InitiatePayout(c, reference, amount, bank, receiver, billingAddress, merchantAccount);
      forall i :: 0 <= i < |AddressFields| ==>
        At(r.body, [BillingAddress, AddressFields[i]]) == Some(Read(billingAddress, AddressSources[i]))
  {
    var body := InitiatePayout(c, reference, amount, bank, receiver, billingAddress, merchantAccount).body;
    AtOne(body, BillingAddress);
    PayoutAddressFields(billingAddress.Or(map[]));
    forall i | 0 <= i < |AddressFields|
      ensures At(body, [BillingAddress, AddressFields[i]]) == Some(Read(billingAddress, AddressSources[i]))
    {
      AtTwo(body, BillingAddress, AddressFields[i]);
    }
  }

  /** The request's `shopperName` is `ReceiverName`: the name fields read from the receiver hash. */
  lemma InitiatePayoutReceiverName(
    c: Client, reference: string, amount: Arg<CallerHash>, bank: Arg<CallerHash>,
    receiver: Arg<CallerHash>, billingAddress: Arg<CallerHash>, merchantAccount: Arg<Option<string>>)
    ensures At(InitiatePayout(c, reference, amount, bank, receiver, billingAddress, merchantAccount).body, [ShopperName])
         == Some(ReceiverName(receiver.Or(map[])))
    ensures var r := InitiatePayout(c, reference, amount, bank, receiver, billingAddress, merchantAccount);
      forall i :: 0 <= i < |NameFields| ==> At(r.body, [ShopperName, NameFields[i]]) == Some(Read(receiver, NameFields[i]))
  {
    var body := InitiatePayout(c, reference, amount, bank, receiver, billingAddress, merchantAccount).body;
    AtOne(body, ShopperName);
    ReceiverNameFields(receiver.Or(map[]));
    forall i | 0 <= i < |NameFields|
      ensures At(body, [ShopperName, NameFields[i]]) == Some(Read(receiver, NameFields[i]))
    {
      AtTwo(body, ShopperName, NameFields[i]);
    }
  }

  /** The payout's own reference and the receiver's email and shopper reference, nil when missing. */
  lemma InitiatePayoutReferences(
    c: Client, reference: string, amount: Arg<CallerHash>, bank: Arg<CallerHash>,
    receiver: Arg<CallerHash>, billingAddress: Arg<CallerHash>, merchantAccount: Arg<Option<string>>)
    ensures var r := InitiatePayout(c, reference, amount, bank, receiver, billingAddress, merchantAccount);
      && At(r.body, [Reference]) == Some(Str(reference))
      && At(r.body, [ShopperEmail]) == Some(Read(receiver, Email))
      && At(r.body, [ShopperReference]) == Some(Read(receiver, Reference))
  {
    var body := InitiatePayout(c, reference, amount, bank, receiver, billingAddress, merchantAccount).body;
    AtOne(body, Reference);
    AtOne(body, ShopperEmail);
    AtOne(body, ShopperReference);
  }

  /** The receiver is a person, with date of birth and nationality from the receiver hash, nil when missing. */
  lemma InitiatePayoutReceiverDetails(
    c: Client, reference: string, amount: Arg<CallerHash>, bank: Arg<CallerHash>,
    receiver: Arg<CallerHash>, billingAddress: Arg<CallerHash>, merchantAccount: Arg<Option<string>>)
    ensures var r := InitiatePayout(c, reference, amount, bank, receiver, billingAddress, merchantAccount);
      && At(r.body, [EntityType]) == Some(Str("Person"))
      && At(r.body, [DateOfBirth]) == Some(Read(receiver, DateOfBirth))
      && At(r.body, [Nationality]) == Some(Read(receiver, Nationality))
  {
    var body := InitiatePayout(c, reference, amount, bank, receiver, billingAddress, merchantAccount).body;
    AtOne(body, EntityType);
    AtOne(body, DateOfBirth);
    AtOne(body, Nationality);
  }

  /**
   * Confirming a payout names the payout to confirm and sends the client's own
   * merchant account, whatever the call passes, and nothing else.
   */
  lemma ConfirmPayoutRequest(c: Client, originalReference: string, merchantAccount: Arg<Option<string>>)
    ensures var r := ConfirmPayout(c, originalReference, merchantAccount);
      && At(r.body, [OriginalReference]) == Some(Str(originalReference))
      && At(r.body, [MerchantAccount]) == Some(OptStr(c.merchantAccount))
      && Get(r.body, Amount) == None
      && r.body.Hash? && r.body.fields.Keys == {MerchantAccount, OriginalReference}
  {
    var body := ConfirmPayout(c, originalReference, merchantAccount).body;
    AtOne(body, OriginalReference);
    AtOne(body, MerchantAccount);
  }

  /**
   * The `merchantAccount` argument of the two payout calls and of
   * `cancel_or_refund` changes nothing in the request.
   */
  lemma IgnoredMerchantAccount(
    c: Client, reference: string, originalReference: string, amount: Arg<CallerHash>, bank: Arg<CallerHash>,
    receiver: Arg<CallerHash>, billingAddress: Arg<CallerHash>, m1: Arg<Option<string>>, m2: Arg<Option<string>>)
    ensures InitiatePayout(c, reference, amount, bank, receiver, billingAddress, m1)
         == InitiatePayout(c, reference, amount, bank, receiver, billingAddress, m2)
    ensures ConfirmPayout(c, originalReference, m1) == ConfirmPayout(c, originalReference, m2)
    ensures CancelOrRefund(c, originalReference, reference, m1) == CancelOrRefund(c, originalReference, reference, m2)
  {
  }

  // ---------------------------------------------------------------------------
  // Paths and aliases

  /**
   * `authorise`, `verify`, `create_recurring_contract` and an accepted
   * `authorise_recurring_payment` all call Payment's authorise, with or without
   * a shopper hash or amount.
   */
  lemma AuthoriseEndpoints(
    c: Client, encryptedCard: string, amount: int, reference: string, shopperReference: string, shopper: CallerHash,
    shopperArg: Arg<CallerHash>, verifyAmount: Arg<int>, merchantAccount: Arg<Option<string>>, currency: Arg<Option<string>>,
    statement: Arg<string>, recurringReference: Arg<string>, recurringProcessingModel: Arg<string>)
    ensures var r := Authorise(c, encryptedCard, amount, reference, merchantAccount, currency, shopperArg, statement);
      r.service == "Payment" && r.action == "authorise"
    ensures var r := Verify(c, encryptedCard, reference, verifyAmount, merchantAccount, currency, shopperArg, statement);
      r.service == "Payment" && r.action == "authorise"
    ensures var r := CreateRecurringContract(c, encryptedCard, reference, shopper, merchantAccount, currency);
      r.service == "Payment" && r.action == "authorise"
    ensures var r := AuthoriseRecurringPayment(c, reference, shopperReference, amount, recurringReference,
                                               merchantAccount, currency, statement, recurringProcessingModel);
      r.Success? ==> r.value.service == "Payment" && r.value.action == "authorise"
  {
  }

  /** The path of an authorisation, written out: the service, the API version v30, the action. */
  lemma AuthorisePath(
    c: Client, encryptedCard: string, amount: int, reference: string,
    merchantAccount: Arg<Option<string>>, currency: Arg<Option<string>>,
    shopper: Arg<CallerHash>, statement: Arg<string>)
    ensures Authorise(c, encryptedCard, amount, reference, merchantAccount, currency, shopper, statement).Path()
         == "/Payment/v30/authorise"
  {
  }

  /**
   * Each of the other operations calls its own action: the modifications on
   * Payment, the listing on Recurring, the payouts on Payout.
   */
  lemma OtherEndpoints(
    c: Client, originalReference: string, reference: string, amount: int, modificationAmount: Json,
    shopperReference: string, contract: Arg<string>, payoutAmount: Arg<CallerHash>, bank: Arg<CallerHash>,
    receiver: Arg<CallerHash>, billingAddress: Arg<CallerHash>,
    merchantAccount: Arg<Option<string>>, currency: Arg<Option<string>>)
    ensures var r := ListRecurringDetails(c, shopperReference, merchantAccount, contract);
      r.service == "Recurring" && r.action == "listRecurringDetails"
    ensures var r := Capture(c, originalReference, reference, modificationAmount, merchantAccount);
      r.service == "Payment" && r.action == "capture"
    ensures var r := Cancel(c, originalReference, reference, merchantAccount);
      r.service == "Payment" && r.action == "cancel"
    ensures var r := Refund(c, originalReference, amount, reference, merchantAccount, currency);
      r.service == "Payment" && r.action == "refund"
    ensures var r := CancelOrRefund(c, originalReference, reference, merchantAccount);
      r.service == "Payment" && r.action == "cancelOrRefund"
    ensures var r := InitiatePayout(c, reference, payoutAmount, bank, receiver, billingAddress, merchantAccount);
      r.service == "Payout" && r.action == "storeDetailAndSubmitThirdParty"
    ensures var r := ConfirmPayout(c, originalReference, merchantAccount);
      r.service == "Payout" && r.action == "confirmThirdParty"
  {
  }

  /** The American spellings are the same operations. */
  lemma AliasesAgree(
    c: Client, encryptedCard: string, amount: int, reference: string, shopperReference: string,
    merchantAccount: Arg<Option<string>>, currency: Arg<Option<string>>,
    shopper: Arg<CallerHash>, statement: Arg<string>, recurringReference: Arg<string>, recurringProcessingModel: Arg<string>)
    ensures Authorize(c, encryptedCard, amount, reference, merchantAccount, currency, shopper, statement)
         == Authorise(c, encryptedCard, amount, reference, merchantAccount, currency, shopper, statement)
    ensures AuthorizeRecurringPayment(c, reference, shopperReference, amount, recurringReference,
                                      merchantAccount, currency, statement, recurringProcessingModel)
         == AuthoriseRecurringPayment(c, reference, shopperReference, amount, recurringReference,
                                      merchantAccount, currency, statement, recurringProcessingModel)
  {
  }
}
