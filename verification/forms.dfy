/** The two input forms: the split-bill form (its field handlers, the
    expense clamp and the submit guard) and the add-friend form (its guard
    and the record it builds). Field values are integers: an empty bill or
    expense field behaves exactly like 0 wherever the form reads it. */
module Forms {
  import opened Wrappers
  import opened Ledger
  import opened Settlement

  /** Split-bill form state; 0 stands for an empty field. */
  datatype SplitForm = SplitForm(bill: int, myExpense: int, whoPaid: string)

  const EmptySplitForm := SplitForm(0, 0, "user")

  /** The invariant the expense clamp is meant to keep. */
  predicate ExpenseWithinBill(form: SplitForm) {
    form.myExpense <= form.bill
  }

  /** Typing in the bill field, as written: the bill is replaced and nothing else is looked at. */
  function SetBill(form: SplitForm, entered: int): (r: SplitForm)
    ensures r.bill == entered
    ensures r.myExpense == form.myExpense && r.whoPaid == form.whoPaid
  {
    form.(bill := entered)
  }

  /** Typing in the expense field: a value above the bill is refused and the
      previous expense kept. */
  function SetExpense(form: SplitForm, entered: int): (r: SplitForm)
    ensures r.bill == form.bill && r.whoPaid == form.whoPaid
    ensures r.myExpense == entered || r.myExpense == form.myExpense
    ensures r.myExpense == entered <== entered <= form.bill
    ensures entered > form.bill ==> r == form
    ensures ExpenseWithinBill(form) ==> ExpenseWithinBill(r)
  {
    form.(myExpense := if entered > form.bill then form.myExpense else entered)
  }

  function SetWhoPaid(form: SplitForm, choice: string): (r: SplitForm)
    ensures r.whoPaid == choice && r.bill == form.bill && r.myExpense == form.myExpense
  {
    form.(whoPaid := choice)
  }

  /** The submit guard: a split goes through only with a non-zero bill and a
      payer chosen. */
  predicate CanSubmit(form: SplitForm) {
    form.bill != 0 && form.whoPaid != ""
  }

  /** Editing the bill after the expense escapes the clamp: with the bill at
      50 and the expense at 40, shortening the bill to 5 keeps the expense at
      40, and a split the user paid then records that the user owes the
      friend 35. */
  lemma BillEditEscapesClamp()
    ensures var f := SetBill(SetExpense(SetBill(EmptySplitForm, 50), 40), 5);
            CanSubmit(f) && !ExpenseWithinBill(f)
            && NewBalance(f.bill, f.myExpense, PayerOf(f.whoPaid)) == -35
  {
  }

  /** Typing in the bill field, corrected: an expense the new bill no longer
      covers is pulled down to the bill. */
  function SetBillClamped(form: SplitForm, entered: int): (r: SplitForm)
    ensures r.bill == entered && r.whoPaid == form.whoPaid
    ensures ExpenseWithinBill(r)
    ensures form.myExpense <= entered ==> r.myExpense == form.myExpense
    ensures form.myExpense > entered ==> r.myExpense == entered
  {
    form.(bill := entered, myExpense := if form.myExpense > entered then entered else form.myExpense)
  }

  /** One user edit of the split-bill form. */
  datatype Edit = BillEdit(n: int) | ExpenseEdit(n: int) | PayerEdit(choice: string)

  /** The form after a run of edits, with the corrected bill handler. */
  function ApplyEdits(form: SplitForm, edits: seq<Edit>): SplitForm
    decreases |edits|
  {
    if edits == [] then form
    else
      var next := match edits[0]
        case BillEdit(n) => SetBillClamped(form, n)
        case ExpenseEdit(n) => SetExpense(form, n)
        case PayerEdit(c) => SetWhoPaid(form, c);
      ApplyEdits(next, edits[1..])
  }

  /** With the corrected bill handler, no run of edits from a form whose
      expense is within the bill can ever submit an expense above it, so a
      split the user paid never leaves the user owing the friend when the
      expense is not negative. */
  lemma {:induction false} CorrectedEditsKeepExpenseWithinBill(form: SplitForm, edits: seq<Edit>)
    requires ExpenseWithinBill(form)
    ensures ExpenseWithinBill(ApplyEdits(form, edits))
    ensures var f := ApplyEdits(form, edits);
            PayerOf(f.whoPaid).User? && f.myExpense >= 0 ==> NewBalance(f.bill, f.myExpense, User) >= 0
    decreases |edits|
  {
    if edits != [] {
      var next := match edits[0]
        case BillEdit(n) => SetBillClamped(form, n)
        case ExpenseEdit(n) => SetExpense(form, n)
        case PayerEdit(c) => SetWhoPaid(form, c);
      CorrectedEditsKeepExpenseWithinBill(next, edits[1..]);
    }
  }

  /** Add-friend form state; the image field starts at a default avatar URL. */
  datatype AddForm = AddForm(name: string, image: string)

  const DefaultImage := "https://i.pravatar.cc/48"
  const EmptyAddForm := AddForm("", DefaultImage)

  /** Decimal digits of a non-negative number, as a template string prints it. */
  function Decimal(n: nat): (s: string)
    ensures |s| >= 1
    ensures forall i :: 0 <= i < |s| ==> '0' <= s[i] <= '9'
  {
    var d := [('0' as int + n % 10) as char];
    if n < 10 then d else Decimal(n / 10) + d
  }

  /** Submitting the add-friend form with a fresh `id`: refused when the name
      or image is empty, otherwise a record with balance 0 is built (its
      image tagged with the id) and the form is reset. */
  function HandleAdd(form: AddForm, id: nat): (r: (Option<Friend>, AddForm))
    ensures r.0.None? <==> form.name == "" || form.image == ""
    ensures r.0.None? ==> r.1 == form
    ensures r.0.Some? ==> r.1 == EmptyAddForm
    ensures r.0.Some? ==> var f := r.0.value;
            f.id == id && f.name == form.name && f.balance == 0
            && form.image <= f.image
  {
    if form.name == "" || form.image == "" then (None, form)
    else (Some(Friend(id, form.name, form.image + "?=" + Decimal(id), 0)), EmptyAddForm)
  }
}
