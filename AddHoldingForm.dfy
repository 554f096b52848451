/** The add-holding dialog (frontend PortfolioManager/AddHoldingForm.tsx): validation of the form,
    construction of the new holding, and the dialog's field, submit and close handlers. */
module AddHoldingForm {
  import opened Wrappers
  import opened Seqs
  import opened Market
  import opened PortfolioSlice

  /** The form's fields as typed; the numeric ones are still text. */
  datatype FormData = FormData(
    symbol: string,
    kind: HoldingType,
    shares: string,
    purchasePrice: string,
    triggerPrice: string,
    optionType: OptionSide,
    strike: string,
    expiry: string)

  const EmptyForm: FormData := FormData("", StockHolding, "", "", "", CE, "", "")

  datatype FormError = MissingRequired | MissingOptionDetails

  function Message(e: FormError): string
  {
    match e
    case MissingRequired => "Please fill in all required fields"
    case MissingOptionDetails => "Please fill in strike price and expiry for options"
  }

  /** Upper-cases the ASCII letters; other characters are kept. */
  function UpperCase(s: string): (u: string)
    ensures |u| == |s|
    ensures forall i :: 0 <= i < |s| ==> ('a' <= s[i] <= 'z' ==> u[i] as int == s[i] as int - 32)
    ensures forall i :: 0 <= i < |s| ==> !('a' <= s[i] <= 'z') ==> u[i] == s[i]
    ensures forall i :: 0 <= i < |s| ==> !('a' <= u[i] <= 'z')
  {
    Map(s, (c: char) => if 'a' <= c <= 'z' then (c as int - 32) as char else c)
  }

  lemma UpperCaseIdempotent(s: string)
    ensures UpperCase(UpperCase(s)) == UpperCase(s)
  {
  }

  /** `handleSubmit`'s validation and construction. `parseInt` and `parseFloat` stand for the
      JavaScript number parsers; `id` for the caller's fresh id. */
  function BuildHolding(form: FormData, id: string, parseInt: string -> real, parseFloat: string -> real): (r: Result<Holding, FormError>)
    ensures r.Err? ==> form.symbol == "" || form.shares == "" || form.purchasePrice == "" || form.kind == OptionHolding
    ensures r.Ok? ==> r.value.id == id && r.value.kind == form.kind && r.value.currentPrice == r.value.purchasePrice
  {
    if form.symbol == "" || form.shares == "" || form.purchasePrice == "" then Err(MissingRequired)
    else if form.kind == OptionHolding && (form.strike == "" || form.expiry == "") then Err(MissingOptionDetails)
    else
      var isOption := form.kind == OptionHolding;
      Ok(Holding(
        id,
        UpperCase(form.symbol),
        form.kind,
        parseInt(form.shares),
        parseFloat(form.purchasePrice),
        parseFloat(form.purchasePrice),
        if form.triggerPrice != "" then Some(parseFloat(form.triggerPrice)) else None,
        if isOption then Some(form.optionType) else None,
        if isOption && form.strike != "" then Some(parseFloat(form.strike)) else None,
        if isOption then Some(form.expiry) else None))
  }

  /** Which error a form gets, if any: the required-field check comes first, and only options are
      checked for strike and expiry. */
  lemma BuildHoldingValidation(form: FormData, id: string, parseInt: string -> real, parseFloat: string -> real)
    ensures var r := BuildHolding(form, id, parseInt, parseFloat);
      && (r == Err(MissingRequired) <==> form.symbol == "" || form.shares == "" || form.purchasePrice == "")
      && (r == Err(MissingOptionDetails) <==>
            form.symbol != "" && form.shares != "" && form.purchasePrice != ""
            && form.kind == OptionHolding && (form.strike == "" || form.expiry == ""))
      && (form.kind == StockHolding ==> r != Err(MissingOptionDetails))
  {
  }

  /** An accepted holding: the given id, the upper-cased symbol, the current price equal to the
      purchase price, a trigger price exactly when one was typed, and option details exactly for
      options. */
  lemma AcceptedHolding(form: FormData, id: string, parseInt: string -> real, parseFloat: string -> real)
    requires BuildHolding(form, id, parseInt, parseFloat).Ok?
    ensures var h := BuildHolding(form, id, parseInt, parseFloat).value;
      && h.id == id && h.symbol == UpperCase(form.symbol) && h.kind == form.kind
      && h.currentPrice == h.purchasePrice == parseFloat(form.purchasePrice)
      && h.shares == parseInt(form.shares)
      && (h.triggerPrice.None? <==> form.triggerPrice == "")
      && (form.kind == StockHolding ==> h.optionType.None? && h.strike.None? && h.expiry.None?)
      && (form.kind == OptionHolding ==>
            h.optionType == Some(form.optionType) && h.strike == Some(parseFloat(form.strike))
            && h.expiry == Some(form.expiry))
  {
  }

  /** A stock's strike, expiry and option side fields play no part in what is built. */
  lemma StockIgnoresOptionFields(form: FormData, id: string, parseInt: string -> real, parseFloat: string -> real,
                                 strike: string, expiry: string, side: OptionSide)
    requires form.kind == StockHolding
    ensures BuildHolding(form.(strike := strike, expiry := expiry, optionType := side), id, parseInt, parseFloat)
      == BuildHolding(form, id, parseInt, parseFloat)
  {
  }

  /** One change made in the form. */
  datatype FieldEdit =
    | SymbolEdit(symbol: string)
    | KindEdit(kind: HoldingType)
    | SharesEdit(shares: string)
    | PurchasePriceEdit(purchasePrice: string)
    | TriggerPriceEdit(triggerPrice: string)
    | OptionTypeEdit(optionType: OptionSide)
    | StrikeEdit(strike: string)
    | ExpiryEdit(expiry: string)

  function ApplyEdit(form: FormData, edit: FieldEdit): FormData
  {
    match edit
    case SymbolEdit(v) => form.(symbol := v)
    case KindEdit(v) => form.(kind := v)
    case SharesEdit(v) => form.(shares := v)
    case PurchasePriceEdit(v) => form.(purchasePrice := v)
    case TriggerPriceEdit(v) => form.(triggerPrice := v)
    case OptionTypeEdit(v) => form.(optionType := v)
    case StrikeEdit(v) => form.(strike := v)
    case ExpiryEdit(v) => form.(expiry := v)
  }

  /** The dialog's state. `closeRequests` counts the calls to the parent's close callback. */
  class AddHoldingDialog {
    const store: PortfolioStore
    var formData: FormData
    var error: string
    var closeRequests: nat

    constructor (store: PortfolioStore)
      ensures this.store == store && formData == EmptyForm && error == "" && closeRequests == 0
    {
      this.store := store;
      formData := EmptyForm;
      error := "";
      closeRequests := 0;
    }

    /** Any edit updates its field and clears the error. */
    method HandleInputChange(edit: FieldEdit)
      modifies this`formData, this`error
      ensures formData == ApplyEdit(old(formData), edit) && error == ""
    {
      formData := ApplyEdit(formData, edit);
      error := "";
    }

    /** Resets the form, clears the error and asks the parent to close. */
    method HandleClose()
      modifies this
      ensures formData == EmptyForm && error == "" && closeRequests == old(closeRequests) + 1
    {
      formData := EmptyForm;
      error := "";
      closeRequests := closeRequests + 1;
    }

    /** A rejected form shows its error and stays as it is; an accepted one adds exactly one
        holding to the store and closes the dialog. */
    method HandleSubmit(id: string, parseInt: string -> real, parseFloat: string -> real)
      modifies this, store`holdings
      ensures var built := BuildHolding(old(formData), id, parseInt, parseFloat);
        && (built.Err? ==>
              error == Message(built.error) && formData == old(formData)
              && store.holdings == old(store.holdings) && closeRequests == old(closeRequests))
        && (built.Ok? ==>
              store.holdings == old(store.holdings) + [built.value]
              && formData == EmptyForm && error == "" && closeRequests == old(closeRequests) + 1)
    {
      var built := BuildHolding(formData, id, parseInt, parseFloat);
      if built.Err? {
        error := Message(built.error);
        return;
      }
      store.AddHolding(built.value);
      HandleClose();
    }
  }
}
