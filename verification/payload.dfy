/**
 * The Ruby values a request body is made of, before `to_json` turns them
 * into text. A hash's keys are the symbols the client writes in its hash
 * literals (`reference:`, `amount:`, ...), and `Name` gives the JSON key
 * `to_json` writes for each.
 */
module Payload {
  import opened Wrappers

  /** The symbols used as hash keys; `Other` is any symbol the client never names. */
  datatype Symbol =
    | Reference | Amount | Value | Currency | MerchantAccount
    | AdditionalData | CardEncryptedJson | AdditionalAmount
    | ShopperEmail | ShopperIP | ShopperReference | ShopperStatement
    | SelectedRecurringDetailReference | SelectedBrand | Recurring | Contract
    | ShopperInteraction | RecurringProcessingModel
    | ModificationAmount | OriginalReference
    | Bank | BankName | Bic | CountryCode | Iban | OwnerName | BankCity | TaxId
    | ShopperName | FirstName | LastName | Gender | DateOfBirth | EntityType | Nationality
    | BillingAddress | HouseNumberOrName | HouseNumber | Street | City | StateOrProvince
    | Country | PostalCode
    | Email | Ip
    | Other(name: string)

  /** The JSON key `to_json` writes for a symbol. */
  function Name(s: Symbol): string {
    match s
    case Reference => "reference"
    case Amount => "amount"
    case Value => "value"
    case Currency => "currency"
    case MerchantAccount => "merchantAccount"
    case AdditionalData => "additionalData"
    case CardEncryptedJson => "card.encrypted.json"
    case AdditionalAmount => "additionalAmount"
    case ShopperEmail => "shopperEmail"
    case ShopperIP => "shopperIP"
    case ShopperReference => "shopperReference"
    case ShopperStatement => "shopperStatement"
    case SelectedRecurringDetailReference => "selectedRecurringDetailReference"
    case SelectedBrand => "selectedBrand"
    case Recurring => "recurring"
    case Contract => "contract"
    case ShopperInteraction => "shopperInteraction"
    case RecurringProcessingModel => "recurringProcessingModel"
    case ModificationAmount => "modificationAmount"
    case OriginalReference => "originalReference"
    case Bank => "bank"
    case BankName => "bankName"
    case Bic => "bic"
    case CountryCode => "countryCode"
    case Iban => "iban"
    case OwnerName => "ownerName"
    case BankCity => "bankCity"
    case TaxId => "taxId"
    case ShopperName => "shopperName"
    case FirstName => "firstName"
    case LastName => "lastName"
    case Gender => "gender"
    case DateOfBirth => "dateOfBirth"
    case EntityType => "entityType"
    case Nationality => "nationality"
    case BillingAddress => "billingAddress"
    case HouseNumberOrName => "houseNumberOrName"
    case HouseNumber => "houseNumber"
    case Street => "street"
    case City => "city"
    case StateOrProvince => "stateOrProvince"
    case Country => "country"
    case PostalCode => "postalCode"
    case Email => "email"
    case Ip => "ip"
    case Other(n) => n
  }

  /**
   * A value `to_json` can write: nil, a string, an integer or a hash. A
   * hash maps each of its symbol keys to one value; the order in which a
   * Ruby hash literal lists its keys is not kept.
   */
  datatype Json =
    | Nil
    | Str(str: string)
    | Int(num: int)
    | Hash(fields: map<Symbol, Json>)

  /** `hash[key]`: the value stored under `key`, if `v` is a hash that has the key. */
  function Get(v: Json, key: Symbol): Option<Json> {
    if v.Hash? && key in v.fields then Some(v.fields[key]) else None
  }

  /** The value reached from `v` by following the keys `path[from..]`. */
  function AtFrom(v: Json, path: seq<Symbol>, from: nat): Option<Json>
    requires from <= |path|
    decreases |path| - from
  {
    if from == |path| then Some(v)
    else match Get(v, path[from])
      case None => None
      case Some(w) => AtFrom(w, path, from + 1)
  }

  /** The value reached by following the keys of `path` from `v`: `v[path[0]][path[1]]...`. */
  function At(v: Json, path: seq<Symbol>): Option<Json> {
    AtFrom(v, path, 0)
  }

  /** Following one key is a lookup. */
  lemma AtOne(v: Json, k: Symbol)
    ensures At(v, [k]) == Get(v, k)
  {
    var path := [k];
    match Get(v, k)
    case None =>
    case Some(w) =>
      assert AtFrom(w, path, 1) == Some(w);
  }

  /** Following two keys looks the second up in what the first finds. */
  lemma AtTwo(v: Json, k1: Symbol, k2: Symbol)
    ensures At(v, [k1, k2]) == match Get(v, k1) case Some(w) => Get(w, k2) case None => None
  {
    var path := [k1, k2];
    match Get(v, k1)
    case None =>
    case Some(w) =>
      match Get(w, k2)
      case None =>
        assert AtFrom(w, path, 1) == None;
      case Some(u) =>
        assert AtFrom(u, path, 2) == Some(u);
        assert AtFrom(w, path, 1) == Some(u);
  }
}
