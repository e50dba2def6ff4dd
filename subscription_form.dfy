/**
 * The subscription form of the dashboard page: its five text fields, the
 * validation shared by the "new" and "edit" submit handlers, the record each
 * handler sends, and the mapping from a stored subscription back to a form.
 *
 * JavaScript's `Number(text)` is not modelled; it is a parameter `parse` that
 * yields a `Number`, which keeps NaN and the infinities so that the guards
 * compare exactly as in JavaScript.
 */
module SubscriptionForm {
  import opened Common

  /** The value of `Number(text)`: NaN, a finite number, or an infinity. */
  datatype Number = NaN | Finite(value: real) | Infinity(negative: bool)

  /**
   * `n < k` for a finite k: false for NaN, true for minus infinity. Any other
   * number is below k, equal to it, or above it, and exactly one of these.
   */
  predicate Below(n: Number, k: real)
    ensures n.NaN? ==> !Below(n, k)
    ensures !n.NaN? ==> (Below(n, k) <==> !Above(n, k) && n != Finite(k))
  {
    match n
    case NaN => false
    case Finite(v) => v < k
    case Infinity(negative) => negative
  }

  /** `n > k` for a finite k: false for NaN, true for plus infinity; otherwise the negation of `n <= k`. */
  predicate Above(n: Number, k: real)
    ensures n.NaN? ==> !Above(n, k)
    ensures !n.NaN? ==> (Above(n, k) <==> !AtMost(n, k))
  {
    match n
    case NaN => false
    case Finite(v) => v > k
    case Infinity(negative) => !negative
  }

  /** `n <= k` for a finite k: false for NaN, true for minus infinity; `n < k` or `n` equal to k. */
  predicate AtMost(n: Number, k: real)
    ensures AtMost(n, k) <==> (n == Finite(k) || (n.Finite? && n.value < k) || n == Infinity(true))
  {
    match n
    case NaN => false
    case Finite(v) => v <= k
    case Infinity(negative) => negative
  }

  /** A stored subscription as the page holds it; `color` is optional. */
  datatype Subscription = Subscription(
    id: string,
    serviceName: string,
    monthlyCost: real,
    billingDay: real,
    category: string,
    color: Option<string>)

  /** The five inputs of the form, holding the text the user entered. */
  datatype Form = Form(
    serviceName: string,
    monthlyCost: string,
    billingDay: string,
    category: string,
    color: string)

  /** The one input an `onChange` handler updates. */
  datatype Field = ServiceName | MonthlyCost | BillingDay | Category | Color

  /** The colour a form starts with and the one used for a missing colour. */
  const DefaultColor: string := "#3b82f6"

  /** The form `openNewSubscriptionModal` installs: every field empty but the colour. */
  const EmptyForm: Form := Form("", "", "", "", DefaultColor)

  /** The text of one input. */
  function FieldOf(f: Form, field: Field): string
  {
    match field
    case ServiceName => f.serviceName
    case MonthlyCost => f.monthlyCost
    case BillingDay => f.billingDay
    case Category => f.category
    case Color => f.color
  }

  /** `{ ...f, [field]: text }`: the form with one input replaced. */
  function WithField(f: Form, field: Field, text: string): (g: Form)
    ensures FieldOf(g, field) == text
    ensures forall other :: other != field ==> FieldOf(g, other) == FieldOf(f, other)
  {
    match field
    case ServiceName => f.(serviceName := text)
    case MonthlyCost => f.(monthlyCost := text)
    case BillingDay => f.(billingDay := text)
    case Category => f.(category := text)
    case Color => f.(color := text)
  }

  /** The reasons a form is refused, each thrown as an `Error` with `Message(e)`. */
  datatype FormError =
    | MissingServiceName
    | MissingMonthlyCost
    | MissingBillingDay
    | MissingCategory
    | BillingDayOutOfRange
    | CostNotPositive

  /** The message of the `Error` thrown for each reason. */
  function Message(e: FormError): (text: string)
    ensures |text| > 0
  {
    match e
    case MissingServiceName => "Nome do serviço é obrigatório"
    case MissingMonthlyCost => "Valor mensal é obrigatório"
    case MissingBillingDay => "Dia da cobrança é obrigatório"
    case MissingCategory => "Categoria é obrigatória"
    case BillingDayOutOfRange => "Dia da cobrança deve ser entre 1 e 31"
    case CostNotPositive => "Valor mensal deve ser maior que zero"
  }

  /** The required inputs, in the order they are checked. */
  function Required(f: Form): seq<string>
  {
    [f.serviceName, f.monthlyCost, f.billingDay, f.category]
  }

  /** The error reported for a missing required input, in the same order. */
  const MissingErrors: seq<FormError> :=
    [MissingServiceName, MissingMonthlyCost, MissingBillingDay, MissingCategory]

  /** A billing day the range check lets through: any finite number in [1, 31], integral or not. */
  predicate DayAcceptable(n: Number)
  {
    n.Finite? && 1.0 <= n.value <= 31.0
  }

  /** A cost the check lets through: a positive number, plus infinity included. */
  predicate CostAcceptable(n: Number)
  {
    (n.Finite? && n.value > 0.0) || n == Infinity(false)
  }

  /** What the validator extracts from an accepted form. */
  datatype Parsed = Parsed(billingDay: real, monthlyCost: Number)

  /**
   * The guard chain of both submit handlers: four emptiness checks in order,
   * then the billing-day range check, then the cost check.
   */
  function Validate(f: Form, parse: string -> Number): (r: Result<Parsed, FormError>)
    ensures r.Ok? ==> parse(f.billingDay) == Finite(r.value.billingDay)
    ensures r.Ok? ==> 1.0 <= r.value.billingDay <= 31.0
    ensures r.Ok? ==> r.value.monthlyCost == parse(f.monthlyCost) && CostAcceptable(r.value.monthlyCost)
  {
    if f.serviceName == "" then Err(MissingServiceName)
    else if f.monthlyCost == "" then Err(MissingMonthlyCost)
    else if f.billingDay == "" then Err(MissingBillingDay)
    else if f.category == "" then Err(MissingCategory)
    else
      var day := parse(f.billingDay);
      var cost := parse(f.monthlyCost);
      if day.NaN? || Below(day, 1.0) || Above(day, 31.0) then Err(BillingDayOutOfRange)
      else if cost.NaN? || AtMost(cost, 0.0) then Err(CostNotPositive)
      else Ok(Parsed(day.value, cost))
  }

  /** The row `handleNewSubmit` inserts for the signed-in user. */
  datatype NewRow = NewRow(
    userId: string,
    serviceName: string,
    monthlyCost: Number,
    billingDay: real,
    category: string,
    color: string)

  /** The columns `handleEditSubmit` updates. */
  datatype UpdateRow = UpdateRow(
    serviceName: string,
    monthlyCost: Number,
    billingDay: real,
    category: string,
    color: string,
    updatedAt: string)

  /**
   * The inserted row: the form's text fields verbatim and the parsed numbers.
   * Unlike an update, an empty colour is inserted as it is.
   */
  function InsertRow(f: Form, p: Parsed, userId: string): (row: NewRow)
    ensures row.userId == userId
    ensures row.serviceName == f.serviceName && row.category == f.category && row.color == f.color
    ensures row.monthlyCost == p.monthlyCost && row.billingDay == p.billingDay
  {
    NewRow(userId, f.serviceName, p.monthlyCost, p.billingDay, f.category, f.color)
  }

  /** `text || '#3b82f6'`: an empty colour is replaced by the default. */
  function ColorOrDefault(text: string): (c: string)
    ensures c != ""
    ensures text != "" ==> c == text
    ensures text == "" ==> c == DefaultColor
  {
    if text == "" then DefaultColor else text
  }

  /** A stored colour: absent or empty gives the default. */
  function StoredColor(color: Option<string>): (c: string)
    ensures c != ""
    ensures color.Some? && color.value != "" ==> c == color.value
    ensures color.None? || color.value == "" ==> c == DefaultColor
  {
    match color
    case None => DefaultColor
    case Some(text) => ColorOrDefault(text)
  }

  /** The updated columns; `now` is the ISO timestamp of the clock. */
  function UpdateFields(f: Form, p: Parsed, now: string): (row: UpdateRow)
    ensures row.serviceName == f.serviceName && row.category == f.category
    ensures row.monthlyCost == p.monthlyCost && row.billingDay == p.billingDay
    ensures row.color != "" && (f.color != "" ==> row.color == f.color)
    ensures row.updatedAt == now
  {
    UpdateRow(f.serviceName, p.monthlyCost, p.billingDay, f.category, ColorOrDefault(f.color), now)
  }

  /** `openEditModal`'s form for a stored subscription; `show` stands for `String(number)`. */
  function FormOf(s: Subscription, show: real -> string): (f: Form)
    ensures f.serviceName == s.serviceName && f.category == s.category
    ensures f.monthlyCost == show(s.monthlyCost) && f.billingDay == show(s.billingDay)
    ensures f.color != ""
  {
    Form(s.serviceName, show(s.monthlyCost), show(s.billingDay), s.category, StoredColor(s.color))
  }

  // ---------------------------------------------------------------------------
  // Properties of the validator
  // ---------------------------------------------------------------------------

  /** The six messages are pairwise different, so the message identifies the reason. */
  lemma MessagesDistinct(e1: FormError, e2: FormError)
    ensures Message(e1) == Message(e2) <==> e1 == e2
  {
  }

  /**
   * The first empty required input, in the order service name, cost, billing
   * day, category, is the one reported; and a reported missing input is empty
   * with every earlier one filled in.
   */
  lemma FirstMissingReported(f: Form, parse: string -> Number, i: nat)
    requires i < 4
    ensures Validate(f, parse) == Err(MissingErrors[i])
        <==> Required(f)[i] == "" && forall j :: 0 <= j < i ==> Required(f)[j] != ""
  {
    var req := Required(f);
    assert req[0] == f.serviceName && req[1] == f.monthlyCost;
    assert req[2] == f.billingDay && req[3] == f.category;
  }

  /**
   * A range error is reported only when all four required inputs are filled
   * in; in particular an empty category wins over an invalid cost or day.
   */
  lemma RangeChecksAfterRequired(f: Form, parse: string -> Number)
    requires Validate(f, parse) == Err(BillingDayOutOfRange) || Validate(f, parse) == Err(CostNotPositive)
    ensures forall j :: 0 <= j < 4 ==> Required(f)[j] != ""
  {
  }

  /** With the required inputs filled in, the day error is reported exactly when the day is unacceptable. */
  lemma DayRejectedIff(f: Form, parse: string -> Number)
    requires forall j :: 0 <= j < 4 ==> Required(f)[j] != ""
    ensures Validate(f, parse) == Err(BillingDayOutOfRange) <==> !DayAcceptable(parse(f.billingDay))
  {
    assert f.serviceName == Required(f)[0] && f.monthlyCost == Required(f)[1];
    assert f.billingDay == Required(f)[2] && f.category == Required(f)[3];
  }

  /** With the required inputs and the day accepted, the cost error is reported exactly when the cost is unacceptable. */
  lemma CostRejectedIff(f: Form, parse: string -> Number)
    requires forall j :: 0 <= j < 4 ==> Required(f)[j] != ""
    requires DayAcceptable(parse(f.billingDay))
    ensures Validate(f, parse) == Err(CostNotPositive) <==> !CostAcceptable(parse(f.monthlyCost))
  {
    assert f.serviceName == Required(f)[0] && f.monthlyCost == Required(f)[1];
    assert f.billingDay == Required(f)[2] && f.category == Required(f)[3];
  }

  /** A form is accepted exactly when every required input is filled in and both numbers are acceptable. */
  lemma AcceptedIff(f: Form, parse: string -> Number)
    ensures Validate(f, parse).Ok?
        <==> (forall j :: 0 <= j < 4 ==> Required(f)[j] != "")
             && DayAcceptable(parse(f.billingDay)) && CostAcceptable(parse(f.monthlyCost))
  {
    if forall j :: 0 <= j < 4 ==> Required(f)[j] != "" {
      assert f.serviceName == Required(f)[0] && f.monthlyCost == Required(f)[1];
      assert f.billingDay == Required(f)[2] && f.category == Required(f)[3];
    }
  }

  /** The day is only range-checked: a day that parses to 1.5 is accepted as 1.5. */
  lemma FractionalDayAccepted(f: Form, parse: string -> Number)
    requires forall j :: 0 <= j < 4 ==> Required(f)[j] != ""
    requires parse(f.billingDay) == Finite(1.5)
    requires CostAcceptable(parse(f.monthlyCost))
    ensures Validate(f, parse).Ok? && Validate(f, parse).value.billingDay == 1.5
  {
    AcceptedIff(f, parse);
  }

  /** The text "Infinity" parses to plus infinity in JavaScript, and that cost passes the check. */
  lemma InfiniteCostAccepted(f: Form, parse: string -> Number)
    requires forall j :: 0 <= j < 4 ==> Required(f)[j] != ""
    requires DayAcceptable(parse(f.billingDay))
    requires parse(f.monthlyCost) == Infinity(false)
    ensures Validate(f, parse).Ok? && Validate(f, parse).value.monthlyCost == Infinity(false)
  {
    AcceptedIff(f, parse);
  }

  /**
   * The row the new handler inserts and the columns the edit handler updates,
   * for the same accepted form, agree on every shared column but the colour,
   * and the colours differ exactly when the form's colour is empty.
   */
  lemma InsertAndUpdateAgree(f: Form, parse: string -> Number, userId: string, now: string)
    requires Validate(f, parse).Ok?
    ensures var row := InsertRow(f, Validate(f, parse).value, userId);
      var update := UpdateFields(f, Validate(f, parse).value, now);
      && row.serviceName == update.serviceName && row.category == update.category
      && row.monthlyCost == update.monthlyCost && row.billingDay == update.billingDay
      && (row.color == update.color <==> f.color != "")
  {
  }

  /**
   * Opening the edit form for a stored subscription and submitting it untouched
   * is accepted exactly when the stored values would pass the checks, and then
   * writes the stored values back, the colour defaulted. This relies on
   * `Number(String(x)) === x` and on `String(x)` not being empty, for the two
   * stored numbers.
   */
  lemma EditRoundTrip(s: Subscription, show: real -> string, parse: string -> Number, now: string)
    requires parse(show(s.monthlyCost)) == Finite(s.monthlyCost) && show(s.monthlyCost) != ""
    requires parse(show(s.billingDay)) == Finite(s.billingDay) && show(s.billingDay) != ""
    ensures Validate(FormOf(s, show), parse).Ok?
        <==> s.serviceName != "" && s.category != "" && 1.0 <= s.billingDay <= 31.0 && s.monthlyCost > 0.0
    ensures Validate(FormOf(s, show), parse).Ok? ==>
      UpdateFields(FormOf(s, show), Validate(FormOf(s, show), parse).value, now)
        == UpdateRow(s.serviceName, Finite(s.monthlyCost), s.billingDay, s.category, StoredColor(s.color), now)
  {
  }
}
