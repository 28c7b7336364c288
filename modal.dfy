/**
 * The add/edit transaction dialog: the form it holds, how opening it fills
 * or resets that form, and the guard that lets one submission through at a
 * time and decides between editing a row and adding one.
 */
module Modal {
  import opened Wrappers
  import opened Text
  import opened Amounts
  import opened SheetApi

  /** The form: the amount is a number, or nothing (the empty field). */
  datatype Form = Form(date: string, amount: Option<real>, description: string, category: string)

  /** What a submission asks for: nothing, an edit of the row with that id, or a new row of a kind. */
  datatype Request = NoRequest | EditRequest(typ: string, id: string, form: Form) | AddRequest(form: Form, typ: string)

  /**
   * `parseFloat(String(amount).replace(/[^0-9.]/g, "")) || ""`: every
   * character but digits and dots dropped (the minus sign too); a result that
   * is NaN or 0 leaves the field empty.
   */
  function AmountPrefill(s: string): (a: Option<real>)
    ensures a.Some? ==> a.value > 0.0
  {
    PrefixNonNegative(CleanUnsigned(s));
    match ParseFloatPrefix(CleanUnsigned(s))
    case None => None
    case Some(x) => if x == 0.0 then None else Some(x)
  }

  /** Without a minus sign both cleanings keep the same characters. */
  lemma {:induction false} CleanUnsignedNoMinus(s: string)
    requires '-' !in s
    ensures CleanUnsigned(s) == Clean(s)
  {
    if s != [] {
      assert '-' !in s[1..] by {
        assert forall i :: 0 <= i < |s| - 1 ==> s[1..][i] == s[i + 1];
      }
      CleanUnsignedNoMinus(s[1..]);
    }
  }

  /** For an amount without a minus sign the prefill is the shared `parseVal` reading, empty for 0. */
  lemma PrefillIsParseVal(s: string)
    requires '-' !in s
    ensures AmountPrefill(s) == if ParseVal(s) == 0.0 then None else Some(ParseVal(s))
  {
    CleanUnsignedNoMinus(s);
  }

  /** A positive whole amount written out comes back as itself. */
  lemma PrefillNat(n: nat)
    requires n > 0
    ensures AmountPrefill(NatToString(n)) == Some(n as real)
  {
    var s := NatToString(n);
    assert '-' !in s by {
      assert forall i :: 0 <= i < |s| ==> IsDigit(s[i]);
    }
    PrefillIsParseVal(s);
    ParseValNat(n);
  }

  /** The form as an edit starts: the row's fields, with the amount through `AmountPrefill`. */
  function Prefill(d: TxnData): (f: Form)
    ensures f.date == d.date && f.description == d.description && f.category == d.category
    ensures f.amount == AmountPrefill(d.amount)
  {
    Form(d.date, AmountPrefill(d.amount), d.description, d.category)
  }

  /** A blank form dated today. */
  function EmptyForm(today: string): (f: Form)
    ensures f.amount.None? && f.description == "" && f.category == "" && f.date == today
  {
    Form(today, None, "", "")
  }

  /** `type === "expense" ? categories.expenses : categories.incomes`. */
  function CategoryListFor(typ: string, lists: CategoryLists): (list: seq<Category>)
    ensures KindOf(typ) == Expense ==> list == lists.expenses
    ensures KindOf(typ) == Income ==> list == lists.incomes
  {
    if typ == "expense" then lists.expenses else lists.incomes
  }

  /** What the dialog renders: nothing while closed, otherwise the category list it offers. */
  function View(isOpen: bool, typ: string, lists: CategoryLists): (v: Option<seq<Category>>)
    ensures v.None? <==> !isOpen
    ensures v.Some? ==> v.value == CategoryListFor(typ, lists)
  {
    if isOpen then Some(CategoryListFor(typ, lists)) else None
  }

  /** The dialog's state: the form and whether a submission is in flight. */
  class TransactionModal {
    var form: Form
    var isSubmitting: bool

    /** A fresh dialog: a blank form dated today, nothing in flight. */
    constructor(today: string)
      ensures form == EmptyForm(today) && !isSubmitting
    {
      form := EmptyForm(today);
      isSubmitting := false;
    }

    /**
     * The open effect: when the dialog is open, an edit with data fills the
     * form from it and anything else resets it to a blank form dated today;
     * when closed nothing changes.
     */
    method Open(isOpen: bool, editMode: bool, initialData: Option<TxnData>, today: string)
      modifies this
      ensures isSubmitting == old(isSubmitting)
      ensures !isOpen ==> form == old(form)
      ensures isOpen && editMode && initialData.Some? ==> form == Prefill(initialData.value)
      ensures isOpen && !(editMode && initialData.Some?) ==> form == EmptyForm(today)
    {
      if isOpen {
        if editMode && initialData.Some? {
          form := Prefill(initialData.value);
        } else {
          form := EmptyForm(today);
        }
      }
    }

    /**
     * The start of `handleSubmit`: while a submission is in flight nothing is
     * sent; otherwise the flag is raised and an edit of the row with that id
     * or an addition of the form with its type is sent.
     */
    method BeginSubmit(editMode: bool, typ: string, id: string) returns (req: Request)
      modifies this
      ensures isSubmitting && form == old(form)
      ensures old(isSubmitting) ==> req == NoRequest
      ensures !old(isSubmitting) && editMode ==> req == EditRequest(typ, id, form)
      ensures !old(isSubmitting) && !editMode ==> req == AddRequest(form, typ)
    {
      if isSubmitting {
        return NoRequest;
      }
      isSubmitting := true;
      if editMode {
        req := EditRequest(typ, id, form);
      } else {
        req := AddRequest(form, typ);
      }
    }

    /**
     * The end of `handleSubmit`: the flag is lowered whatever the outcome,
     * and the dialog is closed only after a success.
     */
    method FinishSubmit(succeeded: bool) returns (close: bool)
      modifies this
      ensures !isSubmitting && form == old(form)
      ensures close == succeeded
    {
      close := succeeded;
      isSubmitting := false;
    }
  }
}
