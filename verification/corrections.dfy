/**
 * `cancel_or_refund`, `initiate_payout` and `confirm_payout` take their
 * merchant account under the keyword `merchantAccount:` and document it as
 * an override, yet send the client's own account: the first and last read
 * `merchant_account`, the client's attribute, and the payout reads the
 * instance variable. Every other operation honours the account a call
 * passes. This module keeps the code as written (`AdyenClient.CancelOrRefund`,
 * `AdyenClient.InitiatePayout`, `AdyenClient.ConfirmPayout`) side by side with
 * the three operations as they are documented to behave.
 */
module Corrections {
  import opened Wrappers
  import opened Payload
  import opened AdyenClient
  import opened AdyenClientProperties

  /** `cancel_or_refund` sending the account the call passes, else the client's. */
  function CancelOrRefundHonouringAccount(
    c: Client,
    originalReference: string,
    reference: string,
    merchantAccount: Arg<Option<string>>
  ): Request
  {
    Request("Payment", "cancelOrRefund", Hash(map[
      Reference := Str(reference),
      MerchantAccount := OptStr(merchantAccount.Or(c.merchantAccount)),
      OriginalReference := Str(originalReference)
    ]))
  }

  /** `confirm_payout` sending the account the call passes, else the client's. */
  function ConfirmPayoutHonouringAccount(
    c: Client,
    originalReference: string,
    merchantAccount: Arg<Option<string>>
  ): Request
  {
    Request("Payout", "confirmThirdParty", Hash(map[
      MerchantAccount := OptStr(merchantAccount.Or(c.merchantAccount)),
      OriginalReference := Str(originalReference)
    ]))
  }

  /**
   * As written: `cancel`, whose argument is honoured, and `cancel_or_refund`,
   * whose argument is not, disagree whenever the account a call names is not
   * the client's own.
   */
  lemma CancelOrRefundAccountDiscrepancy(c: Client, originalReference: string, reference: string, account: string)
    requires c.merchantAccount != Some(account)
    ensures At(Cancel(c, originalReference, reference, Given(Some(account))).body, [MerchantAccount]) == Some(Str(account))
    ensures At(CancelOrRefund(c, originalReference, reference, Given(Some(account))).body, [MerchantAccount])
         != Some(Str(account))
  {
    CancelRequest(c, originalReference, reference, Given(Some(account)));
    CancelOrRefundRequest(c, originalReference, reference, Given(Some(account)));
  }

  /**
   * The corrected `cancel_or_refund` resolves the account as `cancel` does:
   * for every argument its body is exactly the body of `cancel`.
   */
  lemma CancelOrRefundHonouringAccountMatchesCancel(
    c: Client, originalReference: string, reference: string, merchantAccount: Arg<Option<string>>)
    ensures CancelOrRefundHonouringAccount(c, originalReference, reference, merchantAccount).body
         == Cancel(c, originalReference, reference, merchantAccount).body
    ensures At(CancelOrRefundHonouringAccount(c, originalReference, reference, merchantAccount).body, [MerchantAccount])
         == Some(OptStr(CallOrClient(merchantAccount, c.merchantAccount)))
  {
    AtOne(CancelOrRefundHonouringAccount(c, originalReference, reference, merchantAccount).body, MerchantAccount);
  }

  /** As written, `confirm_payout` sends the client's account even when the call names another one. */
  lemma ConfirmPayoutAccountDiscrepancy(c: Client, originalReference: string, account: string)
    requires c.merchantAccount != Some(account)
    ensures At(ConfirmPayout(c, originalReference, Given(Some(account))).body, [MerchantAccount]) != Some(Str(account))
  {
    ConfirmPayoutRequest(c, originalReference, Given(Some(account)));
  }

  /** The corrected `confirm_payout` sends the given account, else the client's, and still names the payout to confirm. */
  lemma ConfirmPayoutHonouringAccountRequest(c: Client, originalReference: string, merchantAccount: Arg<Option<string>>)
    ensures var r := ConfirmPayoutHonouringAccount(c, originalReference, merchantAccount);
      && At(r.body, [MerchantAccount]) == Some(OptStr(CallOrClient(merchantAccount, c.merchantAccount)))
      && At(r.body, [OriginalReference]) == Some(Str(originalReference))
      && (merchantAccount.Omitted? ==> r == ConfirmPayout(c, originalReference, merchantAccount))
  {
    var body := ConfirmPayoutHonouringAccount(c, originalReference, merchantAccount).body;
    AtOne(body, MerchantAccount);
    AtOne(body, OriginalReference);
  }

  /**
   * `initiate_payout` sending the account the call passes, else the client's:
   * the payout as written, for a client holding the resolved account.
   */
  function InitiatePayoutHonouringAccount(
    c: Client,
    reference: string,
    amount: Arg<CallerHash>,
    bank: Arg<CallerHash>,
    receiver: Arg<CallerHash>,
    billingAddress: Arg<CallerHash>,
    merchantAccount: Arg<Option<string>>
  ): Request
  {
    InitiatePayout(Client(merchantAccount.Or(c.merchantAccount), c.currency),
                   reference, amount, bank, receiver, billingAddress, merchantAccount)
  }

  /** As written, `initiate_payout` sends the client's account even when the call names another one. */
  lemma InitiatePayoutAccountDiscrepancy(
    c: Client, reference: string, amount: Arg<CallerHash>, bank: Arg<CallerHash>,
    receiver: Arg<CallerHash>, billingAddress: Arg<CallerHash>, account: string)
    requires c.merchantAccount != Some(account)
    ensures At(InitiatePayout(c, reference, amount, bank, receiver, billingAddress, Given(Some(account))).body,
               [MerchantAccount]) != Some(Str(account))
  {
    InitiatePayoutRequest(c, reference, amount, bank, receiver, billingAddress, Given(Some(account)));
  }

  /**
   * The corrected `initiate_payout` sends the call's account, else the
   * client's; it keeps the client's currency for the default amount, and
   * with no account passed it is the code as written.
   */
  lemma InitiatePayoutHonouringAccountRequest(
    c: Client, reference: string, amount: Arg<CallerHash>, bank: Arg<CallerHash>,
    receiver: Arg<CallerHash>, billingAddress: Arg<CallerHash>, merchantAccount: Arg<Option<string>>)
    ensures var r := InitiatePayoutHonouringAccount(c, reference, amount, bank, receiver, billingAddress, merchantAccount);
      && At(r.body, [MerchantAccount]) == Some(OptStr(CallOrClient(merchantAccount, c.merchantAccount)))
      && At(r.body, [Recurring, Contract]) == Some(Str("RECURRING,PAYOUT"))
      && (amount.Omitted? ==> At(r.body, [Amount, Currency]) == Some(OptStr(c.currency)))
      && (merchantAccount.Omitted? ==> r == InitiatePayout(c, reference, amount, bank, receiver, billingAddress, merchantAccount))
  {
    var resolved := Client(merchantAccount.Or(c.merchantAccount), c.currency);
    InitiatePayoutRequest(resolved, reference, amount, bank, receiver, billingAddress, merchantAccount);
    if amount.Omitted? {
      InitiatePayoutDefaultAmount(resolved, reference, bank, receiver, billingAddress, merchantAccount);
    }
  }
}
