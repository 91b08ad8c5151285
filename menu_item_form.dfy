/** The add/edit menu item dialog: three text fields, a validation that records one error
    per field, and a submission of the cleaned-up values. `parseFloat` is a parameter
    `parse`, which answers `None` where JavaScript answers `NaN`. */
module MenuItemForm {
  import opened Wrappers
  import opened Text
  import Backend

  const NameRequired := "Name is required"
  const PriceRequired := "Valid price is required"
  const PriceNegative := "Price cannot be negative"

  /** The `errors` state: at most one message per field. */
  datatype FormErrors = FormErrors(name: Option<string>, price: Option<string>)

  const NoErrors := FormErrors(None, None)

  /** The name check of `validate`. */
  function NameError(name: string): (r: Option<string>)
    ensures r.None? <==> !IsBlank(name)
    ensures r.Some? ==> r.value == NameRequired
  {
    if IsBlank(name) then Some(NameRequired) else None
  }

  /** The price check of `validate`, where `parsed` is `parseFloat(price)`. */
  function PriceError(price: string, parsed: Option<real>): (r: Option<string>)
    ensures r == Some(PriceRequired) <==> price == "" || parsed.None?
    ensures r == Some(PriceNegative) <==> price != "" && parsed.Some? && parsed.value < 0.0
    ensures r.None? <==> price != "" && parsed.Some? && parsed.value >= 0.0
  {
    if price == "" || parsed.None? then Some(PriceRequired)
    else if parsed.value < 0.0 then Some(PriceNegative)
    else None
  }

  /** The values handed to `onSubmit`. */
  datatype Submission = Submission(name: string, price: real, category: string)

  /** What `handleSubmit` hands to `onSubmit` for the three fields, if anything. */
  function SubmissionOf(name: string, price: string, category: string, parse: string -> Option<real>): (r: Option<Submission>)
    ensures r.Some? <==> FormErrors(NameError(name), PriceError(price, parse(price))) == NoErrors
    ensures r.Some? ==>
      && r.value.name == Trim(name)
      && Some(r.value.price) == parse(price)
      && r.value.category == Trim(category)
  {
    if NameError(name).None? && PriceError(price, parse(price)).None? then
      Some(Submission(Trim(name), parse(price).value, Trim(category)))
    else None
  }

  /** A submitted item has a non-empty trimmed name and a price that is not negative. */
  lemma SubmissionWellFormed(name: string, price: string, category: string, parse: string -> Option<real>)
    requires SubmissionOf(name, price, category, parse).Some?
    ensures var s := SubmissionOf(name, price, category, parse).value;
      s.name != "" && Trim(s.name) == s.name && s.price >= 0.0 && Trim(s.category) == s.category
  {
    TrimIdempotent(name);
    TrimIdempotent(category);
  }

  /** Editing an item and submitting it unchanged gives the item back, when its name and
      category are already trimmed and parsing the rendered price restores it. */
  lemma PrefillRoundTrip(item: Backend.MenuItem, render: real -> string, parse: string -> Option<real>)
    requires item.name != "" && Trimmed(item.name) && Trimmed(item.category.GetOr(""))
    requires item.price >= 0.0 && render(item.price) != "" && parse(render(item.price)) == Some(item.price)
    ensures SubmissionOf(item.name, render(item.price), item.category.GetOr(""), parse)
      == Some(Submission(item.name, item.price, item.category.GetOr("")))
  {
    TrimmedIff(item.name);
    TrimmedIff(item.category.GetOr(""));
  }

  class MenuItemForm {
    var name: string
    var price: string
    var category: string
    var errors: FormErrors

    constructor ()
      ensures name == "" && price == "" && category == "" && errors == NoErrors
    {
      name, price, category, errors := "", "", "", NoErrors;
    }

    /** The effect run when the dialog opens or `initialData` changes; `render` stands for
        `price.toString()`. */
    method Prefill(initialData: Option<Backend.MenuItem>, render: real -> string)
      modifies this
      ensures match initialData
        case Some(item) =>
          name == item.name && price == render(item.price) && category == item.category.GetOr("")
        case None => name == "" && price == "" && category == ""
      ensures errors == NoErrors
    {
      if initialData.Some? {
        name := initialData.value.name;
        price := render(initialData.value.price);
        category := initialData.value.category.GetOr("");
      } else {
        name := "";
        price := "";
        category := "";
      }
      errors := NoErrors;
    }

    /** `validate`: collects the field errors, stores them, and answers whether there were
        none. */
    method Validate(parse: string -> Option<real>) returns (ok: bool)
      modifies this
      ensures errors == FormErrors(NameError(name), PriceError(price, parse(price)))
      ensures ok <==> errors == NoErrors
      ensures name == old(name) && price == old(price) && category == old(category)
    {
      var newErrors := NoErrors;
      if IsBlank(name) {
        newErrors := newErrors.(name := Some(NameRequired));
      }
      var priceNum := parse(price);
      if price == "" || priceNum.None? {
        newErrors := newErrors.(price := Some(PriceRequired));
      } else if priceNum.value < 0.0 {
        newErrors := newErrors.(price := Some(PriceNegative));
      }
      errors := newErrors;
      ok := newErrors.name.None? && newErrors.price.None?;
    }

    /** `handleSubmit`: validates, and on success yields what is passed to `onSubmit`. */
    method HandleSubmit(parse: string -> Option<real>) returns (submitted: Option<Submission>)
      modifies this
      ensures submitted == SubmissionOf(name, price, category, parse)
      ensures errors == FormErrors(NameError(name), PriceError(price, parse(price)))
      ensures name == old(name) && price == old(price) && category == old(category)
    {
      var ok := Validate(parse);
      if ok {
        submitted := Some(Submission(Trim(name), parse(price).value, Trim(category)));
      } else {
        submitted := None;
      }
    }
  }
}
