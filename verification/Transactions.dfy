/**
 * The transactions page (src/pages/Transactions.js): the form, the
 * payload `handleSubmit` builds from it for each transaction type, the
 * page state after a submit, and the colouring rules of the list.
 *
 * Form values are the strings the inputs hold. A numeric payload field is
 * `parseFloat` of a form string and is kept as that string (`Float`).
 */
module Transactions {
  import opened Common

  const Income: string := "INCOME"
  const Expense: string := "EXPENSE"
  const CurrencyBuy: string := "CURRENCY_BUY"
  const CurrencySell: string := "CURRENCY_SELL"
  const GoldBuy: string := "GOLD_BUY"
  const GoldSell: string := "GOLD_SELL"
  const InvestmentTypes: seq<string> := [CurrencyBuy, CurrencySell, GoldBuy, GoldSell]

  /** `isInvestmentTransaction`, and the test at the head of the extra-fields branch of `handleSubmit`. */
  function IsInvestmentType(t: string): (r: bool)
    ensures r <==> (t == CurrencyBuy || t == CurrencySell || t == GoldBuy || t == GoldSell)
  {
    t in InvestmentTypes
  }

  /** The fields of the form, as the inputs' `name` attributes name them. */
  datatype Field =
    | Amount | Type | Description | Category | TransactionDate
    | CurrencyPair | Quantity | PurchaseRate | SellingRate

  /** The form state; `kind` is the source's `type` field (a reserved word here). */
  datatype Form = Form(
    amount: string, kind: string, description: string, category: string, transactionDate: string,
    currencyPair: string, quantity: string, purchaseRate: string, sellingRate: string)

  /** `formData[name]`. */
  function Get(form: Form, name: Field): string {
    match name
    case Amount => form.amount
    case Type => form.kind
    case Description => form.description
    case Category => form.category
    case TransactionDate => form.transactionDate
    case CurrencyPair => form.currencyPair
    case Quantity => form.quantity
    case PurchaseRate => form.purchaseRate
    case SellingRate => form.sellingRate
  }

  /** `handleChange`: `{...formData, [name]: value}`. */
  function HandleChange(form: Form, name: Field, value: string): (r: Form)
    ensures Get(r, name) == value
    ensures forall other :: other != name ==> Get(r, other) == Get(form, other)
  {
    match name
    case Amount => form.(amount := value)
    case Type => form.(kind := value)
    case Description => form.(description := value)
    case Category => form.(category := value)
    case TransactionDate => form.(transactionDate := value)
    case CurrencyPair => form.(currencyPair := value)
    case Quantity => form.(quantity := value)
    case PurchaseRate => form.(purchaseRate := value)
    case SellingRate => form.(sellingRate := value)
  }

  /** The initial form and the form after a successful create; `today` is the ISO date of the clock. */
  function BlankForm(today: string): (f: Form)
    ensures f.kind == Expense && f.transactionDate == today
    ensures forall name :: name != Type && name != TransactionDate ==> Get(f, name) == ""
  {
    Form("", Expense, "", "", today, "", "", "", "")
  }

  /** A payload value: a string, or `parseFloat` of the form string it was read from. */
  datatype Value = Str(s: string) | Float(text: string)

  type Payload = map<string, Value>

  const BaseKeys: set<string> := {"amount", "type", "description", "category", "transactionDate"}
  const InvestmentKeys: set<string> := {"currencyPair", "quantity", "purchaseRate"}

  /** The keys `handleSubmit` puts in the payload for a transaction type. */
  function PayloadKeys(t: string): set<string> {
    BaseKeys
    + (if IsInvestmentType(t) then InvestmentKeys else {})
    + (if IsInvestmentType(t) && EndsWith(t, "_SELL") then {"sellingRate"} else {})
  }

  /**
   * The payload `handleSubmit` sends for a form: the five common fields,
   * then for the four investment types the pair, quantity and purchase
   * rate, and for the two selling types the selling rate, each carrying
   * its form value.
   */
  function TransactionData(form: Form): (data: Payload)
    ensures data.Keys == PayloadKeys(form.kind)
    ensures data["amount"] == Float(form.amount) && data["type"] == Str(form.kind)
    ensures data["description"] == Str(form.description) && data["category"] == Str(form.category)
    ensures data["transactionDate"] == Str(form.transactionDate)
    ensures "currencyPair" in data ==> data["currencyPair"] == Str(form.currencyPair)
    ensures "quantity" in data ==> data["quantity"] == Float(form.quantity)
    ensures "purchaseRate" in data ==> data["purchaseRate"] == Float(form.purchaseRate)
    ensures "sellingRate" in data ==> data["sellingRate"] == Float(form.sellingRate)
  {
    var base := map[
      "amount" := Float(form.amount),
      "type" := Str(form.kind),
      "description" := Str(form.description),
      "category" := Str(form.category),
      "transactionDate" := Str(form.transactionDate)
    ];
    if !IsInvestmentType(form.kind) then base
    else
      var investment := base["currencyPair" := Str(form.currencyPair)]
                            ["quantity" := Float(form.quantity)]
                            ["purchaseRate" := Float(form.purchaseRate)];
      if EndsWith(form.kind, "_SELL") then investment["sellingRate" := Float(form.sellingRate)]
      else investment
  }

  /** `handleSubmit`'s construction of `transactionData`, field by field. */
  method BuildTransactionData(form: Form) returns (data: Payload)
    ensures data == TransactionData(form)
    ensures data.Keys == PayloadKeys(form.kind)
    ensures data["amount"] == Float(form.amount) && data["type"] == Str(form.kind)
    ensures data["description"] == Str(form.description) && data["category"] == Str(form.category)
    ensures data["transactionDate"] == Str(form.transactionDate)
    ensures "currencyPair" in data ==> data["currencyPair"] == Str(form.currencyPair)
    ensures "quantity" in data ==> data["quantity"] == Float(form.quantity)
    ensures "purchaseRate" in data ==> data["purchaseRate"] == Float(form.purchaseRate)
    ensures "sellingRate" in data ==> data["sellingRate"] == Float(form.sellingRate)
  {
    data := map[
      "amount" := Float(form.amount),
      "type" := Str(form.kind),
      "description" := Str(form.description),
      "category" := Str(form.category),
      "transactionDate" := Str(form.transactionDate)
    ];
    if form.kind in InvestmentTypes {
      data := data["currencyPair" := Str(form.currencyPair)];
      data := data["quantity" := Float(form.quantity)];
      data := data["purchaseRate" := Float(form.purchaseRate)];
      if EndsWith(form.kind, "_SELL") {
        data := data["sellingRate" := Float(form.sellingRate)];
      }
    }
  }

  lemma EndsWithLast(s: string, suffix: string)
    ensures EndsWith(s, suffix) && suffix != "" ==> s != "" && s[|s| - 1] == suffix[|suffix| - 1]
  {
    if EndsWith(s, suffix) && suffix != "" {
      assert s[|s| - 1] == s[|s| - |suffix|..][|suffix| - 1];
    }
  }

  /** No string ends with both `_BUY` and `_SELL`. */
  lemma BuyIsNotSell(t: string)
    requires EndsWith(t, "_BUY")
    ensures !EndsWith(t, "_SELL")
  {
    EndsWithLast(t, "_BUY");
    EndsWithLast(t, "_SELL");
  }

  /** Which of the six form types end with `_SELL` and `_BUY`. */
  lemma TypeSuffixes()
    ensures EndsWith(CurrencySell, "_SELL") && EndsWith(GoldSell, "_SELL")
    ensures EndsWith(CurrencyBuy, "_BUY") && EndsWith(GoldBuy, "_BUY")
    ensures !EndsWith(CurrencyBuy, "_SELL") && !EndsWith(GoldBuy, "_SELL")
    ensures !EndsWith(CurrencySell, "_BUY") && !EndsWith(GoldSell, "_BUY")
  {
    assert CurrencySell[|CurrencySell| - 5..] == "_SELL";
    assert GoldSell[|GoldSell| - 5..] == "_SELL";
    assert CurrencyBuy[|CurrencyBuy| - 4..] == "_BUY";
    assert GoldBuy[|GoldBuy| - 4..] == "_BUY";
    BuyIsNotSell(CurrencyBuy);
    BuyIsNotSell(GoldBuy);
    if EndsWith(CurrencySell, "_BUY") {
      BuyIsNotSell(CurrencySell);
    }
    if EndsWith(GoldSell, "_BUY") {
      BuyIsNotSell(GoldSell);
    }
  }

  /**
   * The payload fields by type: exactly the five common fields for a
   * non-investment type; three more for the investment types; the selling
   * rate exactly for CURRENCY_SELL and GOLD_SELL, so never for a BUY.
   */
  lemma PayloadKeysByType(t: string)
    ensures !IsInvestmentType(t) ==> PayloadKeys(t) == BaseKeys && |PayloadKeys(t)| == 5
    ensures IsInvestmentType(t) ==> InvestmentKeys <= PayloadKeys(t)
    ensures "sellingRate" in PayloadKeys(t) <==> (t == CurrencySell || t == GoldSell)
    ensures EndsWith(t, "_BUY") ==> PayloadKeys(t) == BaseKeys + (if IsInvestmentType(t) then InvestmentKeys else {})
  {
    KeySets();
    TypeSuffixes();
    if EndsWith(t, "_BUY") {
      BuyIsNotSell(t);
    }
  }

  /** The common fields are five, and neither key set holds the selling rate. */
  lemma KeySets()
    ensures |BaseKeys| == 5
    ensures "sellingRate" !in BaseKeys && "sellingRate" !in InvestmentKeys
  {
  }

  /** The selling-rate input: shown for investment types that do not end with `_BUY`. */
  function ShowsSellingRateInput(t: string): bool {
    IsInvestmentType(t) && !EndsWith(t, "_BUY")
  }

  /** The form asks for a selling rate exactly when the payload will carry one. */
  lemma SellingRateInputMatchesPayload(t: string)
    ensures ShowsSellingRateInput(t) <==> "sellingRate" in PayloadKeys(t)
  {
    TypeSuffixes();
  }

  /** The list colour: green for INCOME, CURRENCY_SELL and GOLD_SELL, red otherwise. */
  function IsIncomeColoured(t: string): bool {
    t == Income || t == CurrencySell || t == GoldSell
  }

  /** Money flows in for incomes and for the selling investment types: those are the green rows. */
  lemma IncomeColourIsInflow(t: string)
    ensures IsIncomeColoured(t) <==> t == Income || (IsInvestmentType(t) && EndsWith(t, "_SELL"))
  {
    TypeSuffixes();
  }

  /** The colour of the balance figure. */
  function BalanceColour(balance: real): (c: string)
    ensures c == "#28a745" <==> balance >= 0.0
    ensures c == "#dc3545" <==> balance < 0.0
  {
    if balance >= 0.0 then "#28a745" else "#dc3545"
  }

  /** What the request layer reports on failure: `err.response?.data?.message` and `err.response?.data` ("" when absent). */
  datatype ApiError = ApiError(message: string, data: string)

  datatype Response<T> = Ok(value: T) | Err(error: ApiError)

  const DefaultSubmitError: string := "İşlem eklenemedi"

  /** The message `handleSubmit` shows: the first of message, data and the default that is not empty. */
  function ErrorText(e: ApiError): (msg: string)
    ensures msg != ""
    ensures e.message != "" ==> msg == e.message
    ensures e.message == "" && e.data != "" ==> msg == e.data
    ensures e.message == "" && e.data == "" ==> msg == DefaultSubmitError
  {
    if e.message != "" then e.message else if e.data != "" then e.data else DefaultSubmitError
  }

  /** A transaction as the server lists it; the list colours it by `kind` (the source's `type`). */
  datatype Transaction = Transaction(id: nat, kind: string, description: string)

  class TransactionsPage {
    var transactions: seq<Transaction>
    var balance: real
    var formData: Form
    var loading: bool
    var error: string
    /** The payloads passed to the create request, in order. */
    ghost var created: seq<Payload>

    constructor (today: string)
      ensures transactions == [] && balance == 0.0 && formData == BlankForm(today)
      ensures !loading && error == "" && created == []
    {
      transactions := [];
      balance := 0.0;
      formData := BlankForm(today);
      loading := false;
      error := "";
      created := [];
    }

    /** An input's `onChange`. */
    method Change(name: Field, value: string)
      modifies this`formData
      ensures formData == HandleChange(old(formData), name, value)
    {
      formData := HandleChange(formData, name, value);
    }

    /**
     * `handleSubmit`, with the outcomes of the create request and of the
     * two reloads as parameters. A failed create keeps the form and sets
     * the error; a successful one resets the form, then takes the reloaded
     * list and balance, or sets the error if the reload fails.
     */
    method Submit(createFailure: Option<ApiError>, reload: Response<(seq<Transaction>, real)>, today: string)
      modifies this
      ensures !loading
      ensures created == old(created) + [TransactionData(old(formData))]
      ensures createFailure.Some? ==>
        formData == old(formData) && error == ErrorText(createFailure.value)
        && transactions == old(transactions) && balance == old(balance)
      ensures createFailure.None? ==> formData == BlankForm(today)
      ensures createFailure.None? && reload.Ok? ==>
        error == "" && transactions == reload.value.0 && balance == reload.value.1
      ensures createFailure.None? && reload.Err? ==>
        error == ErrorText(reload.error) && transactions == old(transactions) && balance == old(balance)
    {
      loading := true;
      error := "";
      var data := BuildTransactionData(formData);
      created := created + [data];
      if createFailure.Some? {
        error := ErrorText(createFailure.value);
      } else {
        formData := BlankForm(today);
        match reload {
          case Ok((list, total)) =>
            transactions := list;
            balance := total;
          case Err(e) =>
            error := ErrorText(e);
        }
      }
      loading := false;
    }
  }
}
