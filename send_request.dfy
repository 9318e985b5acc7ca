/** The customer's request form (`src/components/customer/SendRequest.jsx`):
    a request type chosen from a list, an amount, a reason and a receipt,
    sent as multipart form data to the endpoint of the chosen type. */
module SendRequest {
  import opened JsValues
  import opened Http
  import opened Toasts

  /** A file the customer picked: only its identity matters here. */
  datatype Upload = Upload(name: string)

  datatype FieldValue = Text(s: string) | File(upload: Upload)

  /** One `formData.append(name, value)`. */
  datatype Field = Field(name: string, value: FieldValue)

  /** What is posted: the endpoint and the form's fields in append order. */
  datatype Request = Request(endpoint: string, fields: seq<Field>)

  /** The values of the type list, in order: "Loan Repayment" is `loan`,
      "Loan Request" is `applyloan`. */
  const RequestTypes: seq<string> := ["loan", "applyloan", "withdrawal", "deposit"]

  /** The value of the "Loan Request" entry. */
  const LoanRequest: string := "applyloan"

  /** The loan-request type the reason rule checks for as written. */
  const LoanRequestAsWritten: string := "apply-loan"

  const FillRequired: string := "Please fill in all required fields"
  const InvalidType: string := "Invalid request type"
  const Submitted: string := "Request submitted successfully"
  const SubmitFailed: string := "Failed to submit request"

  /** The form shows a reason box for a withdrawal and for a loan request. */
  predicate ReasonBoxShown(kind: string)
  {
    kind == "withdrawal" || kind == LoanRequest
  }

  /** The form shows a receipt picker for a loan repayment and a deposit. */
  predicate ReceiptPickerShown(kind: string)
  {
    kind == "loan" || kind == "deposit"
  }

  /** Whether `form` has a field called `name`. */
  predicate HasField(form: seq<Field>, name: string)
  {
    exists i :: 0 <= i < |form| && form[i].name == name
  }

  /** The fields posted for a request of type `kind`, where `loanRequest` is
      the loan-request type the reason rule checks for: the amount; the reason
      for that type and for a withdrawal; the receipt for a loan repayment or
      a deposit when a file was picked. */
  function FormFields(kind: string, amount: string, reason: string, receipt: Option<Upload>, loanRequest: string): seq<Field>
  {
    [Field("amount", Text(amount))]
    + (if kind == loanRequest || kind == "withdrawal" then [Field("reason", Text(reason))] else [])
    + (if ReceiptPickerShown(kind) && receipt.Some? then [Field("receipt", File(receipt.value))] else [])
  }

  /** The successive `formData.append` calls. */
  method BuildForm(kind: string, amount: string, reason: string, receipt: Option<Upload>, loanRequest: string)
    returns (form: seq<Field>)
    ensures form == FormFields(kind, amount, reason, receipt, loanRequest)
  {
    form := [];
    form := form + [Field("amount", Text(amount))];
    if kind == loanRequest || kind == "withdrawal" {
      form := form + [Field("reason", Text(reason))];
    }
    if (kind == "loan" || kind == "deposit") && receipt.Some? {
      form := form + [Field("receipt", File(receipt.value))];
    }
  }

  /** The amount is always sent, first, and with the text typed in. */
  lemma AmountAlwaysSent(kind: string, amount: string, reason: string, receipt: Option<Upload>, loanRequest: string)
    ensures var form := FormFields(kind, amount, reason, receipt, loanRequest);
            |form| >= 1 && form[0] == Field("amount", Text(amount)) &&
            forall i :: 1 <= i < |form| ==> form[i].name != "amount"
  {
  }

  /** A reason is sent exactly for the loan-request type the rule names and
      for a withdrawal, and it is the text typed in. */
  lemma ReasonSentIff(kind: string, amount: string, reason: string, receipt: Option<Upload>, loanRequest: string)
    ensures var form := FormFields(kind, amount, reason, receipt, loanRequest);
            HasField(form, "reason") <==> kind == loanRequest || kind == "withdrawal"
    ensures var form := FormFields(kind, amount, reason, receipt, loanRequest);
            forall i :: 0 <= i < |form| && form[i].name == "reason" ==> form[i].value == Text(reason)
  {
    var form := FormFields(kind, amount, reason, receipt, loanRequest);
    if kind == loanRequest || kind == "withdrawal" {
      assert form[1].name == "reason";
    }
  }

  /** A receipt is sent exactly for a loan repayment or a deposit with a
      file picked, and it is that file. */
  lemma ReceiptSentIff(kind: string, amount: string, reason: string, receipt: Option<Upload>, loanRequest: string)
    ensures var form := FormFields(kind, amount, reason, receipt, loanRequest);
            HasField(form, "receipt") <==> ReceiptPickerShown(kind) && receipt.Some?
    ensures var form := FormFields(kind, amount, reason, receipt, loanRequest);
            forall i :: 0 <= i < |form| && form[i].name == "receipt" ==> form[i].value == File(receipt.value)
  {
    var form := FormFields(kind, amount, reason, receipt, loanRequest);
    if ReceiptPickerShown(kind) && receipt.Some? {
      assert form[|form| - 1].name == "receipt";
    }
  }

  /** As written, the reason of a loan request is typed into its box and
      never sent: the rule checks for a type the list does not offer. */
  lemma LoanReasonDroppedAsWritten(amount: string, reason: string, receipt: Option<Upload>)
    ensures LoanRequest in RequestTypes && LoanRequestAsWritten !in RequestTypes
    ensures ReasonBoxShown(LoanRequest)
    ensures !HasField(FormFields(LoanRequest, amount, reason, receipt, LoanRequestAsWritten), "reason")
  {
    ReasonSentIff(LoanRequest, amount, reason, receipt, LoanRequestAsWritten);
  }

  /** Testing for the list's own value, a reason is sent exactly when the
      form shows a box for it. */
  lemma ShownReasonIsSent(kind: string, amount: string, reason: string, receipt: Option<Upload>)
    ensures HasField(FormFields(kind, amount, reason, receipt, LoanRequest), "reason") <==> ReasonBoxShown(kind)
  {
    ReasonSentIff(kind, amount, reason, receipt, LoanRequest);
  }

  /** The `switch (requestType)`: the endpoint of each type in the list, and
      `None` (the "Invalid request type" branch) for any other. */
  function Endpoint(kind: string): (r: Option<string>)
    ensures r.Some? <==> kind in RequestTypes
  {
    if kind == "loan" then Some("http://localhost:8000/api/loan")
    else if kind == "withdrawal" then Some("http://localhost:8000/api/withdraw")
    else if kind == "deposit" then Some("http://localhost:8000/api/deposit")
    else if kind == LoanRequest then Some("http://localhost:8000/api/apply-loan")
    else None
  }

  /** Different types go to different endpoints. */
  lemma EndpointsDistinct(a: string, b: string)
    requires a in RequestTypes && b in RequestTypes && a != b
    ensures Endpoint(a) != Endpoint(b)
  {
  }

  /** The form's state outside its inputs. */
  class RequestForm {
    var loading: bool
    var isSuccessDialogOpen: bool

    constructor()
      ensures !loading && !isSuccessDialogOpen
    {
      loading, isSuccessDialogOpen := false, false;
    }

    /** `handleSubmit`: an empty amount or type, or a type outside the list,
        only raises an error. Otherwise the form, built with the reason rule
        as written (so a loan request goes without its reason, see
        `LoanReasonDroppedAsWritten`), is posted to the type's endpoint; success opens the success dialog, a failure shows the
        server's message or a fallback, and `loading` ends false. */
    method Submit(kind: string, amount: string, reason: string, receipt: Option<Upload>, outcome: Response<Value>)
      returns (sent: Option<Request>, toast: Toast)
      modifies this
      ensures amount == "" || kind == "" ==>
                sent.None? && toast == ErrorToast(FillRequired) &&
                loading == old(loading) && isSuccessDialogOpen == old(isSuccessDialogOpen)
      ensures amount != "" && kind != "" && Endpoint(kind).None? ==>
                sent.None? && toast == ErrorToast(InvalidType) &&
                loading == old(loading) && isSuccessDialogOpen == old(isSuccessDialogOpen)
      ensures amount != "" && kind != "" && Endpoint(kind).Some? ==>
                sent == Some(Request(Endpoint(kind).value, FormFields(kind, amount, reason, receipt, LoanRequestAsWritten))) &&
                !loading &&
                (outcome.Success? ==> toast == SuccessToast(Submitted) && isSuccessDialogOpen) &&
                (outcome.Failure? ==> toast == ErrorToast(RethrownMessage(outcome.error, SubmitFailed)) &&
                                      isSuccessDialogOpen == old(isSuccessDialogOpen))
    {
      if amount == "" || kind == "" {
        return None, ErrorToast(FillRequired);
      }
      var form := BuildForm(kind, amount, reason, receipt, LoanRequestAsWritten);
      var endpoint := Endpoint(kind);
      if endpoint.None? {
        return None, ErrorToast(InvalidType);
      }
      loading := true;
      sent := Some(Request(endpoint.value, form));
      if outcome.Success? {
        toast := SuccessToast(Submitted);
        isSuccessDialogOpen := true;
      } else {
        toast := ErrorToast(RethrownMessage(outcome.error, SubmitFailed));
      }
      loading := false;
    }
  }
}
