/**
 * The paystub order page: its form, the exemption check-boxes, the list of
 * pay dates counted back from today, the preview of those dates, and the
 * required-field check on submit.
 */
module Paystub {
  import opened Wrappers
  import Seqs

  /** A form value: text, a switch, the pay-date count, the checked exemption ids, or the (absent) logo file. */
  datatype Value = Str(text: string) | Flag(flag: bool) | Count(count: int) | Ids(ids: seq<string>) | NoFile

  const InitialForm: map<string, Value> := map[
    "companyName" := Str(""), "companyAddress" := Str(""), "companyPhone" := Str(""),
    "companyEIN" := Str(""), "companyLogo" := NoFile,
    "employeeStatus" := Str("employee"), "employeeName" := Str(""), "employeeSSN" := Str(""),
    "employeeAddress" := Str(""), "employeeId" := Str(""), "federalFilingStatus" := Str("single"),
    "stateFilingStatus" := Str("single"), "workingFromHome" := Flag(false),
    "paymentType" := Str("hourly"), "paymentFrequency" := Str("biweekly"), "hourlyRate" := Str(""),
    "salary" := Str(""), "hireDate" := Str(""), "payDatesCount" := Count(1),
    "exemptions" := Ids([]),
    "addDirectDeposit" := Flag(true),
    "email" := Str("")]

  /** JavaScript truthiness of a form value. */
  predicate Truthy(v: Value) {
    match v
    case Str(s) => s != ""
    case Flag(b) => b
    case Count(n) => n != 0
    case Ids(_) => true
    case NoFile => false
  }

  /** `e => e !== id`. */
  function Other(id: string): string -> bool {
    e => e != id
  }

  /** The exemption list after clicking the check-box for `id`. */
  function ToggleId(current: seq<string>, id: string): (r: seq<string>)
    ensures id in r <==> id !in current
    ensures forall e :: e != id ==> (e in r <==> e in current)
    ensures id !in current ==> r == current + [id]
    ensures id in current ==> |r| < |current|
  {
    if id in current then
      RemovingShrinks(current, id);
      Seqs.Filter(current, Other(id))
    else current + [id]
  }

  lemma {:induction false} RemovingShrinks(s: seq<string>, id: string)
    requires id in s
    ensures |Seqs.Filter(s, Other(id))| < |s|
  {
    if s[0] != id {
      RemovingShrinks(s[1..], id);
    }
  }

  /** Checking and then unchecking an exemption restores the list. */
  lemma ToggleAbsentTwice(current: seq<string>, id: string)
    requires id !in current
    ensures ToggleId(ToggleId(current, id), id) == current
  {
    Seqs.FilterAppend(current, [id], Other(id));
    Seqs.FilterAll(current, Other(id));
    assert Seqs.Filter([id], Other(id)) == [];
  }

  /** How far each pay date lies before the next one. */
  datatype Step = Days(days: nat) | Months(months: nat) | Stay

  predicate MovesBack(step: Step) {
    (step.Days? ==> step.days > 0) && (step.Months? ==> step.months > 0)
  }

  /** The frequency switch; a year back is twelve months back, and an unknown frequency does not move. */
  function StepOf(frequency: string): (s: Step)
    ensures MovesBack(s)
    ensures s == Stay <==>
            frequency !in {"daily", "weekly", "biweekly", "semimonthly", "monthly", "quarterly", "semiannually", "annually"}
  {
    match frequency
    case "daily" => Days(1)
    case "weekly" => Days(7)
    case "biweekly" => Days(14)
    case "semimonthly" => Days(15)
    case "monthly" => Months(1)
    case "quarterly" => Months(3)
    case "semiannually" => Months(6)
    case "annually" => Months(12)
    case _ => Stay
  }

  /**
   * One step back from a date, dates being day numbers. `monthsBack(d, m)` is
   * the calendar's date `m` months before `d`.
   */
  function MoveBack(date: int, step: Step, monthsBack: (int, nat) -> int): int {
    match step
    case Days(n) => date - n
    case Months(m) => monthsBack(date, m)
    case Stay => date
  }

  /** Each date is one step before the previous one. */
  predicate Chain(dates: seq<int>, step: Step, monthsBack: (int, nat) -> int) {
    forall i :: 0 < i < |dates| ==> dates[i] == MoveBack(dates[i - 1], step, monthsBack)
  }

  /** `generatePayDates`: `count` dates, the first today, each one step before the previous one. */
  method GeneratePayDates(today: int, frequency: string, count: int, monthsBack: (int, nat) -> int)
    returns (dates: seq<int>)
    ensures |dates| == if count > 0 then count else 0
    ensures |dates| > 0 ==> dates[0] == today
    ensures Chain(dates, StepOf(frequency), monthsBack)
    ensures StepOf(frequency) == Stay ==> forall i :: 0 <= i < |dates| ==> dates[i] == today
    ensures StepOf(frequency).Days? ==> forall i :: 0 <= i < |dates| ==> dates[i] == today - i * StepOf(frequency).days
  {
    var step := StepOf(frequency);
    dates := [];
    var current := today;
    var i := 0;
    while i < count
      invariant 0 <= i <= (if count > 0 then count else 0) && |dates| == i
      invariant i > 0 ==> dates[0] == today
      invariant Chain(dates, step, monthsBack)
      invariant current == if i == 0 then today else MoveBack(dates[i - 1], step, monthsBack)
      invariant step == Stay ==> current == today && forall k :: 0 <= k < i ==> dates[k] == today
      invariant step.Days? ==> current == today - i * step.days &&
                               forall k :: 0 <= k < i ==> dates[k] == today - k * step.days
    {
      dates := dates + [current];
      current := MoveBack(current, step, monthsBack);
      i := i + 1;
    }
  }

  /** The calendar's month steps land strictly earlier. */
  ghost predicate CalendarGoesBack(monthsBack: (int, nat) -> int) {
    forall d: int, m: nat :: m > 0 ==> monthsBack(d, m) < d
  }

  lemma {:induction false} ChainOrdered(dates: seq<int>, step: Step, monthsBack: (int, nat) -> int, i: nat, j: nat)
    requires Chain(dates, step, monthsBack) && MovesBack(step) && CalendarGoesBack(monthsBack)
    requires i <= j < |dates|
    ensures dates[j] <= dates[i]
    ensures step != Stay && i < j ==> dates[j] < dates[i]
    decreases j - i
  {
    if i < j {
      ChainOrdered(dates, step, monthsBack, i, j - 1);
    }
  }

  /** Pay dates never move forward, and with a known frequency each is strictly earlier than the one before. */
  lemma PayDatesOrdered(dates: seq<int>, frequency: string, monthsBack: (int, nat) -> int)
    requires Chain(dates, StepOf(frequency), monthsBack) && CalendarGoesBack(monthsBack)
    ensures forall i, j :: 0 <= i <= j < |dates| ==> dates[j] <= dates[i]
    ensures StepOf(frequency) != Stay ==> forall i, j :: 0 <= i < j < |dates| ==> dates[j] < dates[i]
  {
    forall i, j | 0 <= i <= j < |dates|
      ensures dates[j] <= dates[i]
      ensures StepOf(frequency) != Stay && i < j ==> dates[j] < dates[i]
    {
      ChainOrdered(dates, StepOf(frequency), monthsBack, i, j);
    }
  }

  /** The "Generated Pay Dates" box: at most six dates, and a count of the rest. */
  datatype Preview = Preview(shown: seq<int>, more: Option<nat>)

  /** The box appears only for a positive count. */
  function PreviewOf(count: int, dates: seq<int>): (p: Option<Preview>)
    ensures p.Some? <==> count > 0
    ensures p.Some? ==> |p.value.shown| == (if |dates| < 6 then |dates| else 6)
    ensures p.Some? ==> p.value.shown == dates[..|p.value.shown|]
    ensures p.Some? ==> (p.value.more.Some? <==> |dates| > 6)
    ensures p.Some? ==> |p.value.shown| + p.value.more.GetOr(0) == |dates|
  {
    if count > 0 then
      var shown := Seqs.Take(dates, 6);
      Some(Preview(shown, if |dates| > 6 then Some(|dates| - 6) else None))
    else None
  }

  /** The pay-date count selector's options. */
  function PayDateCountOptions(): (r: seq<int>)
    ensures forall n :: n in r <==> 1 <= n <= 26
  {
    var r := seq(26, i requires 0 <= i < 26 => i + 1);
    assert forall n :: 1 <= n <= 26 ==> n in r by {
      forall n | 1 <= n <= 26 ensures n in r {
        assert r[n - 1] == n;
      }
    }
    r
  }

  function Field(data: map<string, Value>, key: string): Value {
    if key in data then data[key] else NoFile
  }

  /** `handleSubmit`'s check: company name, employee name and e-mail must be filled in. */
  predicate CanSubmit(data: map<string, Value>) {
    Truthy(Field(data, "companyName")) && Truthy(Field(data, "employeeName")) && Truthy(Field(data, "email"))
  }

  /** Which toast `handleSubmit` shows. */
  datatype SubmitToast = MissingRequiredFields | PaystubSubmitted

  function Submit(data: map<string, Value>): (t: SubmitToast)
    ensures t == PaystubSubmitted <==> CanSubmit(data)
  {
    if !Truthy(Field(data, "companyName")) || !Truthy(Field(data, "employeeName")) || !Truthy(Field(data, "email"))
    then MissingRequiredFields
    else PaystubSubmitted
  }

  /** The untouched form cannot be submitted. */
  lemma FreshFormRejected()
    ensures Submit(InitialForm) == MissingRequiredFields
  {
  }

  /** Emptying the company address, though marked as required, does not change the outcome. */
  lemma CompanyAddressNotChecked(data: map<string, Value>)
    ensures Submit(data["companyAddress" := Str("")]) == Submit(data)
  {
  }

  class PaystubForm {
    var data: map<string, Value>

    /** The exemption list is always a list of ids. */
    ghost predicate Valid()
      reads this
    {
      "exemptions" in data && data["exemptions"].Ids?
    }

    constructor ()
      ensures Valid() && data == InitialForm
    {
      data := InitialForm;
    }

    /** `updateField`: the named key gets the value, every other key keeps its own. */
    method UpdateField(field: string, value: Value)
      requires Valid() && (field == "exemptions" ==> value.Ids?)
      modifies this
      ensures Valid() && data == old(data)[field := value]
    {
      data := data[field := value];
    }

    /** `toggleExemption`. */
    method ToggleExemption(id: string)
      requires Valid()
      modifies this
      ensures Valid() && data == old(data)["exemptions" := Ids(ToggleId(old(data)["exemptions"].ids, id))]
    {
      var current := data["exemptions"].ids;
      UpdateField("exemptions", Ids(ToggleId(current, id)));
    }
  }
}
