/** pages/prescriptions/add.js: the medication-list editor of the "new
    prescription" page, its submit validation, and who may open the page.
    The list holds one object per medication row; editing a field writes
    that object in place, as the page does. */
module PrescriptionForm {
  import opened Common
  import opened JsText
  import opened Lists

  datatype Field = Name | Dosage | Frequency | Duration | Instructions

  /** The value of one medication row. */
  datatype Entry = Entry(name: string, dosage: string, frequency: string, duration: string, instructions: string)

  const BLANK := Entry("", "", "", "", "")

  function FieldOf(e: Entry, f: Field): string {
    match f
    case Name => e.name
    case Dosage => e.dosage
    case Frequency => e.frequency
    case Duration => e.duration
    case Instructions => e.instructions
  }

  /** `e[field] = value` on the row's value. */
  function WithField(e: Entry, f: Field, v: string): (r: Entry)
    ensures FieldOf(r, f) == v
    ensures forall g :: g != f ==> FieldOf(r, g) == FieldOf(e, g)
  {
    match f
    case Name => e.(name := v)
    case Dosage => e.(dosage := v)
    case Frequency => e.(frequency := v)
    case Duration => e.(duration := v)
    case Instructions => e.(instructions := v)
  }

  /** A row that submission keeps: trimmed name and trimmed dosage both non-empty. */
  predicate IsComplete(e: Entry) {
    Trim(e.name) != "" && Trim(e.dosage) != ""
  }

  /** `medications.filter(med => med.name.trim() && med.dosage.trim())` */
  function CompleteEntries(es: seq<Entry>): seq<Entry> {
    Filter(es, IsComplete)
  }

  /** The submitted rows are exactly the complete ones, in their order: they
      form an order-preserving sublist, and each complete row is submitted
      as many times as it occurs while an incomplete one never is. */
  lemma CompleteEntriesExactly(es: seq<Entry>)
    ensures IsSubsequence(CompleteEntries(es), es)
    ensures forall e :: multiset(CompleteEntries(es))[e] == if IsComplete(e) then multiset(es)[e] else 0
    ensures forall e :: e in CompleteEntries(es) <==> e in es && IsComplete(e)
  {
    FilterIsSubsequence(es, IsComplete);
    forall e
      ensures multiset(CompleteEntries(es))[e] == if IsComplete(e) then multiset(es)[e] else 0
      ensures e in CompleteEntries(es) <==> e in es && IsComplete(e)
    {
      FilterCounts(es, IsComplete, e);
      FilterMembership(es, IsComplete, e);
    }
  }

  /** Submission is aborted exactly when every row has a blank (white space
      only) name or a blank dosage. */
  lemma NothingToSubmit(es: seq<Entry>)
    ensures CompleteEntries(es) == [] <==>
            forall k :: 0 <= k < |es| ==> IsBlank(es[k].name) || IsBlank(es[k].dosage)
  {
    FilterEmpty(es, IsComplete);
    forall k | 0 <= k < |es|
      ensures !IsComplete(es[k]) <==> IsBlank(es[k].name) || IsBlank(es[k].dosage)
    {
      TrimEmptyIffBlank(es[k].name);
      TrimEmptyIffBlank(es[k].dosage);
    }
  }

  /** `medications.filter((_, i) => i !== index)` when more than one row is
      left, the list itself otherwise. */
  function Removed<T>(es: seq<T>, index: int): (r: seq<T>)
    ensures |es| <= 1 ==> r == es
    ensures |es| > 1 ==> r == DropIndex(es, index)
    ensures |es| >= 1 ==> |r| >= 1
  {
    if |es| > 1 then DropIndex(es, index) else es
  }

  /** Removing keeps the other rows in their order. */
  lemma RemovedIsSubsequence<T>(es: seq<T>, index: int)
    ensures IsSubsequence(Removed(es, index), es)
  {
    if |es| > 1 {
      DropIndexIsSubsequence(es, index);
    } else {
      SelfSubsequence(es);
    }
  }

  /** One medication row of the form. */
  class Medication {
    var name: string
    var dosage: string
    var frequency: string
    var duration: string
    var instructions: string

    function Value(): Entry
      reads this
    {
      Entry(name, dosage, frequency, duration, instructions)
    }

    constructor Blank()
      ensures Value() == BLANK
    {
      name, dosage, frequency, duration, instructions := "", "", "", "", "";
    }

    /** `this[field] = value` */
    method Set(field: Field, value: string)
      modifies this
      ensures Value() == WithField(old(Value()), field, value)
    {
      match field
      case Name => name := value;
      case Dosage => dosage := value;
      case Frequency => frequency := value;
      case Duration => duration := value;
      case Instructions => instructions := value;
    }
  }

  /** Where the page sends a caller. */
  datatype Access = ShowLoading | RedirectToLogin | RedirectToHome | ShowForm

  datatype SessionState = Loading | SignedOut | SignedIn(user: Identity)

  /** Only admins and doctors may use the page. */
  function PageAccess(state: SessionState): (a: Access)
    ensures a == ShowForm <==> state.SignedIn? && state.user.role in {ADMIN, DOCTOR}
    ensures a == RedirectToLogin <==> state == SignedOut
    ensures a == ShowLoading <==> state == Loading
  {
    match state
    case Loading => ShowLoading
    case SignedOut => RedirectToLogin
    case SignedIn(user) => if user.role in [ADMIN, DOCTOR] then ShowForm else RedirectToHome
  }

  /** What pressing "submit" does with the medication list. */
  datatype Submission = Aborted | Posted(medications: seq<Entry>)

  /** The `medications` state of the page. */
  class Form {
    var medications: seq<Medication>

    /** Every row is its own object, and there is always at least one. */
    ghost predicate Valid()
      reads this
    {
      |medications| >= 1 &&
      forall i, j :: 0 <= i < j < |medications| ==> medications[i] != medications[j]
    }

    /** The rows' values, in order. */
    function Entries(): (es: seq<Entry>)
      reads this, medications
      ensures |es| == |medications|
    {
      seq(|medications|, k reads this, medications requires 0 <= k < |medications| => medications[k].Value())
    }

    constructor ()
      ensures Valid() && Entries() == [BLANK]
    {
      var m := new Medication.Blank();
      medications := [m];
    }

    /** `addMedication`: one blank row at the end, the others untouched. */
    method AddMedication()
      requires Valid()
      modifies this
      ensures Valid()
      ensures Entries() == old(Entries()) + [BLANK]
    {
      var m := new Medication.Blank();
      medications := medications + [m];
    }

    /** `removeMedication(index)`: nothing when a single row is left. */
    method RemoveMedication(index: int)
      requires Valid()
      modifies this
      ensures Valid()
      ensures Entries() == Removed(old(Entries()), index)
    {
      if |medications| > 1 {
        ghost var before := Entries();
        medications := DropIndex(medications, index);
        assert Entries() == DropIndex(before, index);
      }
    }

    /** `handleMedicationChange(index, field, value)`: the row at `index` is
        written in place; the list and every other row stay as they are. */
    method HandleMedicationChange(index: nat, field: Field, value: string)
      requires Valid() && index < |medications|
      modifies medications[index]
      ensures Valid() && medications == old(medications)
      ensures Entries() == old(Entries())[index := WithField(old(Entries())[index], field, value)]
    {
      ghost var before := Entries();
      medications[index].Set(field, value);
      forall k | 0 <= k < |medications| && k != index
        ensures medications[k].Value() == before[k]
      {
        assert medications[k] != medications[index];
      }
    }

    /** `handleSubmit`: post the complete rows, or abort when there are none. */
    function Submit(): (s: Submission)
      requires Valid()
      reads this, medications
      ensures s == Aborted <==> CompleteEntries(Entries()) == []
      ensures s.Posted? ==> s.medications == CompleteEntries(Entries())
    {
      var valid := CompleteEntries(Entries());
      if |valid| == 0 then Aborted else Posted(valid)
    }
  }
}
