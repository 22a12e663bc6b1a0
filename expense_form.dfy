// The expense form of the client (frontend/src/components/ExpenseForm.js): six controlled
// input fields, their change handlers, and the submit handler that hands a normalised payload
// to `onAdd` and clears the form.

module ExpenseForm {
  import opened Js

  /** The object passed to `onAdd`. `amount` is `Number(amountField)`: `None` when that is
      NaN or infinite. */
  datatype Payload = Payload(
    name: string,
    amount: Option<real>,
    category: string,
    date: string,
    paymentMethod: string,
    status: string)

  /** An `<option>` of the status `<select>`. */
  datatype StatusOption = StatusOption(value: string, disabled: bool)

  /** The status options in document order: a disabled empty placeholder, then three values. */
  const StatusOptions: seq<StatusOption> := [
    StatusOption("", true),
    StatusOption("Pending", false),
    StatusOption("Cleared", false),
    StatusOption("Scheduled", false)
  ]

  /** The values a user can pick: those of the enabled options. */
  function Selectable(options: seq<StatusOption>): (r: set<string>)
    ensures forall i :: 0 <= i < |options| && !options[i].disabled ==> options[i].value in r
    ensures forall v :: v in r ==> exists i :: 0 <= i < |options| && !options[i].disabled && options[i].value == v
  {
    if options == [] then {}
    else
      var rest := Selectable(options[1..]);
      assert forall v :: v in rest ==> exists i :: 0 <= i < |options| - 1 && !options[1..][i].disabled && options[1..][i].value == v;
      if options[0].disabled then rest else {options[0].value} + rest
  }

  /** Exactly Pending, Cleared and Scheduled can be selected; the placeholder cannot. */
  lemma SelectableStatuses()
    ensures Selectable(StatusOptions) == {"Pending", "Cleared", "Scheduled"}
    ensures "" !in Selectable(StatusOptions)
  {
    var r := Selectable(StatusOptions);
    assert StatusOptions[1].value in r && StatusOptions[2].value in r && StatusOptions[3].value in r;
    forall v | v in r ensures v in {"Pending", "Cleared", "Scheduled"} {
      var i :| 0 <= i < |StatusOptions| && !StatusOptions[i].disabled && StatusOptions[i].value == v;
      assert i != 0;
    }
  }

  class Form {
    var name: string
    var amount: string
    var category: string
    var date: string
    var paymentMethod: string
    var status: string

    /** Every `useState("")` starts empty. */
    predicate IsEmpty()
      reads this
    {
      name == "" && amount == "" && category == "" && date == "" && paymentMethod == "" && status == ""
    }

    /** The HTML `required` constraint on all six controls: the browser submits the form only
        when none of them is empty (a number input reads as empty unless it holds a number;
        the select reads as empty on its placeholder). */
    predicate RequiredFilled()
      reads this
    {
      name != "" && amount != "" && category != "" && date != "" && paymentMethod != "" && status != ""
    }

    constructor()
      ensures IsEmpty()
    {
      name, amount, category, date, paymentMethod, status := "", "", "", "", "", "";
    }

    /** `onChange` of the name input. */
    method SetName(v: string)
      modifies this
      ensures name == v
      ensures amount == old(amount) && category == old(category) && date == old(date)
      ensures paymentMethod == old(paymentMethod) && status == old(status)
    {
      name := v;
    }

    /** `onChange` of the amount input. */
    method SetAmount(v: string)
      modifies this
      ensures amount == v
      ensures name == old(name) && category == old(category) && date == old(date)
      ensures paymentMethod == old(paymentMethod) && status == old(status)
    {
      amount := v;
    }

    /** `onChange` of the category input. */
    method SetCategory(v: string)
      modifies this
      ensures category == v
      ensures name == old(name) && amount == old(amount) && date == old(date)
      ensures paymentMethod == old(paymentMethod) && status == old(status)
    {
      category := v;
    }

    /** `onChange` of the date input. */
    method SetDate(v: string)
      modifies this
      ensures date == v
      ensures name == old(name) && amount == old(amount) && category == old(category)
      ensures paymentMethod == old(paymentMethod) && status == old(status)
    {
      date := v;
    }

    /** `onChange` of the payment-method input. */
    method SetPaymentMethod(v: string)
      modifies this
      ensures paymentMethod == v
      ensures name == old(name) && amount == old(amount) && category == old(category)
      ensures date == old(date) && status == old(status)
    {
      paymentMethod := v;
    }

    /** `onChange` of the status select, fired when the user picks the option at `index`;
        a disabled option cannot be picked and changes nothing. */
    method SelectStatus(index: nat) returns (changed: bool)
      modifies this
      ensures changed <==> index < |StatusOptions| && !StatusOptions[index].disabled
      ensures changed ==> status == StatusOptions[index].value && status in Selectable(StatusOptions)
      ensures !changed ==> status == old(status)
      ensures name == old(name) && amount == old(amount) && category == old(category)
      ensures date == old(date) && paymentMethod == old(paymentMethod)
    {
      changed := index < |StatusOptions| && !StatusOptions[index].disabled;
      if changed {
        status := StatusOptions[index].value;
      }
    }

    /** `handleSubmit`: the payload built from the fields as they were (name and method
        trimmed, amount converted, the rest verbatim), then all six fields cleared. */
    method HandleSubmit(rt: Runtime) returns (sent: Payload)
      modifies this
      ensures sent == old(Payload(Trim(name), rt.toFinite(JString(amount)), category, date,
                                  Trim(paymentMethod), status))
      ensures IsEmpty()
    {
      sent := Payload(Trim(name), rt.toFinite(JString(amount)), category, date,
                      Trim(paymentMethod), status);
      name := "";
      amount := "";
      category := "";
      date := "";
      paymentMethod := "";
      status := "";
    }

    /** Pressing the submit button: blocked by the browser while a required field is empty
        (nothing is sent and nothing changes); otherwise `handleSubmit` runs once. */
    method Submit(rt: Runtime) returns (sent: Option<Payload>)
      modifies this
      ensures !old(RequiredFilled()) ==> sent.None? && unchanged(this)
      ensures old(RequiredFilled()) ==>
                && sent == old(Some(Payload(Trim(name), rt.toFinite(JString(amount)), category,
                                            date, Trim(paymentMethod), status)))
                && sent.value.category != "" && sent.value.date != "" && sent.value.status != ""
                && IsEmpty()
    {
      if !RequiredFilled() {
        return None;
      }
      var payload := HandleSubmit(rt);
      sent := Some(payload);
    }
  }
}
