/** pages/billing/index.js: the billing list page. It reads the bills from
    the `/api/billing` reply, totals their amounts by payment status,
    filters them by a search term and a status, and picks a colour, an
    icon and the offered status changes for each bill. Amounts are whole
    minor currency units. */
module BillingPage {
  import opened Common
  import opened JsText
  import opened Lists

  const PAID := "paid"
  const PENDING := "pending"
  const OVERDUE := "overdue"

  /** The key the page looks for in the list reply. */
  const BILLING_KEY := "billing"

  /** A bill row as the page uses it; `patientName` is `bill.patient?.name`. */
  datatype Bill = Bill(id: nat, amount: int, paymentStatus: string, patientName: Option<string>)

  /** `bills.reduce((sum, bill) => sum + bill.amount, 0)` */
  function SumAmounts(bills: seq<Bill>): int {
    if bills == [] then 0 else bills[0].amount + SumAmounts(bills[1..])
  }

  lemma {:induction false} SumAmountsConcat(a: seq<Bill>, b: seq<Bill>)
    ensures SumAmounts(a + b) == SumAmounts(a) + SumAmounts(b)
  {
    if a == [] {
      assert a + b == b;
    } else {
      assert (a + b)[1..] == a[1..] + b;
      SumAmountsConcat(a[1..], b);
    }
  }

  /** `bill => bill.paymentStatus === status` */
  function HasStatus(status: string): Bill -> bool {
    (b: Bill) => b.paymentStatus == status
  }

  /** A status none of the three totals collects. */
  predicate IsOtherStatus(b: Bill) {
    b.paymentStatus != PAID && b.paymentStatus != PENDING && b.paymentStatus != OVERDUE
  }

  /** The four totals shown in the stats cards. */
  datatype Stats = Stats(total: int, paid: int, pending: int, overdue: int)

  function SumWithStatus(bills: seq<Bill>, status: string): int {
    SumAmounts(Filter(bills, HasStatus(status)))
  }

  /** The stats computed in `fetchBills`. */
  function StatsOf(bills: seq<Bill>): Stats {
    Stats(SumAmounts(bills), SumWithStatus(bills, PAID), SumWithStatus(bills, PENDING), SumWithStatus(bills, OVERDUE))
  }

  /** The total splits into the three status totals and the bills of any
      other status: each bill is counted once, in its own status. */
  lemma {:induction false} StatsPartition(bills: seq<Bill>)
    ensures var s := StatsOf(bills);
            s.total == s.paid + s.pending + s.overdue + SumAmounts(Filter(bills, IsOtherStatus))
  {
    if bills != [] {
      StatsPartition(bills[1..]);
    }
  }

  /** Appending a bill changes the sum of a status by the bill's amount
      when the bill has that status, and not at all otherwise. */
  lemma AppendedBillCountsInItsStatus(bills: seq<Bill>, b: Bill, status: string)
    ensures SumWithStatus(bills + [b], status) ==
            SumWithStatus(bills, status) + (if b.paymentStatus == status then b.amount else 0)
  {
    FilterConcat(bills, [b], HasStatus(status));
    assert [b][1..] == [];
    SumAmountsConcat(Filter(bills, HasStatus(status)), Filter([b], HasStatus(status)));
  }

  /** A bill of another status adds to the total and to nothing else. */
  lemma OtherStatusCountsOnlyInTotal(bills: seq<Bill>, b: Bill)
    requires IsOtherStatus(b)
    ensures StatsOf(bills + [b]) == StatsOf(bills).(total := StatsOf(bills).total + b.amount)
  {
    SumAmountsConcat(bills, [b]);
    AppendedBillCountsInItsStatus(bills, b, PAID);
    AppendedBillCountsInItsStatus(bills, b, PENDING);
    AppendedBillCountsInItsStatus(bills, b, OVERDUE);
  }

  /** The search part of the `filteredBills` predicate: the lowercased
      patient name contains the lowercased term, or the id's decimal
      string does. A bill without a patient is found by its id only. */
  predicate MatchesSearch(b: Bill, searchTerm: string) {
    (b.patientName.Some? && Includes(Lower(b.patientName.value), Lower(searchTerm)))
    || Includes(DecimalString(b.id), Lower(searchTerm))
  }

  /** An empty status filter lets every status through. */
  predicate MatchesStatus(b: Bill, statusFilter: string) {
    statusFilter == "" || b.paymentStatus == statusFilter
  }

  function Shown(searchTerm: string, statusFilter: string): Bill -> bool {
    (b: Bill) => MatchesSearch(b, searchTerm) && MatchesStatus(b, statusFilter)
  }

  /** `filteredBills` */
  function FilteredBills(bills: seq<Bill>, searchTerm: string, statusFilter: string): seq<Bill> {
    Filter(bills, Shown(searchTerm, statusFilter))
  }

  /** The shown bills keep the list's order, a bill is shown exactly when
      it is in the list and matches both the search and the status filter,
      and a shown bill appears as often as in the list. */
  lemma FilteredBillsExactly(bills: seq<Bill>, searchTerm: string, statusFilter: string)
    ensures IsSubsequence(FilteredBills(bills, searchTerm, statusFilter), bills)
    ensures forall b :: b in FilteredBills(bills, searchTerm, statusFilter) <==>
                        b in bills && MatchesSearch(b, searchTerm) && MatchesStatus(b, statusFilter)
    ensures forall b :: multiset(FilteredBills(bills, searchTerm, statusFilter))[b] ==
                        if MatchesSearch(b, searchTerm) && MatchesStatus(b, statusFilter) then multiset(bills)[b] else 0
  {
    FilterIsSubsequence(bills, Shown(searchTerm, statusFilter));
    forall b
      ensures b in FilteredBills(bills, searchTerm, statusFilter) <==>
              b in bills && MatchesSearch(b, searchTerm) && MatchesStatus(b, statusFilter)
      ensures multiset(FilteredBills(bills, searchTerm, statusFilter))[b] ==
              if MatchesSearch(b, searchTerm) && MatchesStatus(b, statusFilter) then multiset(bills)[b] else 0
    {
      FilterMembership(bills, Shown(searchTerm, statusFilter), b);
      FilterCounts(bills, Shown(searchTerm, statusFilter), b);
    }
  }

  /** With a status chosen, every shown bill has that status. */
  lemma FilteredBillsHaveStatus(bills: seq<Bill>, searchTerm: string, statusFilter: string)
    requires statusFilter != ""
    ensures forall b :: b in FilteredBills(bills, searchTerm, statusFilter) ==> b.paymentStatus == statusFilter
  {
  }

  /** With no search term and no status chosen, every bill is shown. */
  lemma NoCriteriaShowsAll(bills: seq<Bill>)
    ensures FilteredBills(bills, "", "") == bills
  {
    forall k | 0 <= k < |bills|
      ensures Shown("", "")(bills[k])
    {
      assert StartsWith(DecimalString(bills[k].id), Lower(""));
    }
    FilterKeepsAll(bills, Shown("", ""));
  }

  /** A term with anything but a digit in it finds no bill without a
      patient: the id's decimal string has digits only. */
  lemma NoPatientNeedsDigitTerm(b: Bill, searchTerm: string, k: nat)
    requires b.patientName.None? && k < |searchTerm| && !IsDigit(searchTerm[k])
    ensures !MatchesSearch(b, searchTerm)
  {
    assert !IsDigit(Lower(searchTerm)[k]);
    DecimalMatchNeedsDigits(b.id, Lower(searchTerm), k);
  }

  const GRAY := "from-gray-500 to-slate-500"

  /** `getStatusColor`: the gradient of a status, grey for any other. */
  function StatusColor(status: string): (c: string)
    ensures status == PAID ==> c == "from-green-500 to-emerald-500"
    ensures status == PENDING ==> c == "from-yellow-500 to-amber-500"
    ensures status == OVERDUE ==> c == "from-red-500 to-pink-500"
    ensures c == GRAY <==> status != PAID && status != PENDING && status != OVERDUE
  {
    if status == PAID then "from-green-500 to-emerald-500"
    else if status == PENDING then "from-yellow-500 to-amber-500"
    else if status == OVERDUE then "from-red-500 to-pink-500"
    else GRAY
  }

  datatype Icon = CheckMark | Hourglass | Warning | MoneyBag

  /** `getStatusIcon`: the icon of a status, the money bag for any other. */
  function StatusIcon(status: string): (i: Icon)
    ensures i == CheckMark <==> status == PAID
    ensures i == Hourglass <==> status == PENDING
    ensures i == Warning <==> status == OVERDUE
    ensures i == MoneyBag <==> status != PAID && status != PENDING && status != OVERDUE
  {
    if status == PAID then CheckMark
    else if status == PENDING then Hourglass
    else if status == OVERDUE then Warning
    else MoneyBag
  }

  /** The `PUT /api/billing/{id}` a "Mark Paid" or "Mark Overdue" button sends. */
  datatype StatusUpdate = StatusUpdate(id: nat, paymentStatus: string)

  /** The status changes offered for a bill: both buttons for a pending
      bill, none otherwise. */
  function StatusActions(b: Bill): (r: seq<StatusUpdate>)
    ensures r != [] <==> b.paymentStatus == PENDING
    ensures forall u :: u in r ==> u.id == b.id && u.paymentStatus in {PAID, OVERDUE}
    ensures b.paymentStatus == PENDING ==> StatusUpdate(b.id, PAID) in r && StatusUpdate(b.id, OVERDUE) in r
  {
    if b.paymentStatus == PENDING then [StatusUpdate(b.id, PAID), StatusUpdate(b.id, OVERDUE)] else []
  }

  /** Applying an offered change settles the bill: no change is offered
      for it afterwards. */
  lemma ActionsSettle(b: Bill, u: StatusUpdate)
    requires u in StatusActions(b)
    ensures StatusActions(b.(paymentStatus := u.paymentStatus)) == []
  {
  }

  /** `data.billing || []`, as the page is written: the bills are read
      from a `billing` key, so a bare array reply yields no bills. */
  function BillsReadAsWritten(shape: ListShape, rows: seq<Bill>): (r: seq<Bill>)
    ensures shape == WrappedAs(BILLING_KEY) ==> r == rows
    ensures shape != WrappedAs(BILLING_KEY) ==> r == []
  {
    if shape == WrappedAs(BILLING_KEY) then rows else []
  }

  /** The list route sends its rows as a bare array, so the page as
      written shows no bill and all-zero stats whatever is stored. */
  lemma StoredBillsNeverShown(rows: seq<Bill>)
    requires rows != []
    ensures BillsReadAsWritten(Bare, rows) != rows
    ensures StatsOf(BillsReadAsWritten(Bare, rows)) == Stats(0, 0, 0, 0)
  {
  }

  /** The rows of a list reply of either shape. */
  function BillsRead(shape: ListShape, rows: seq<Bill>): (r: seq<Bill>)
    ensures shape == Bare || shape == WrappedAs(BILLING_KEY) ==> r == rows
    ensures shape.WrappedAs? && shape.key != BILLING_KEY ==> r == []
  {
    match shape
    case Bare => rows
    case WrappedAs(key) => if key == BILLING_KEY then rows else []
  }

  /** What the page holds after `fetchBills`: the bills and their stats. */
  datatype PageData = PageData(bills: seq<Bill>, stats: Stats)

  /** The corrected `fetchBills`: the page holds the rows of a bare-array
      reply, and its total splits into the three status totals and the
      amounts of bills of any other status. */
  function FetchBills(shape: ListShape, rows: seq<Bill>): (p: PageData)
    ensures shape == Bare ==> p.bills == rows
    ensures p.bills == BillsRead(shape, rows)
    ensures p.stats == StatsOf(p.bills)
    ensures p.stats.total == p.stats.paid + p.stats.pending + p.stats.overdue + SumAmounts(Filter(p.bills, IsOtherStatus))
  {
    var bills := BillsRead(shape, rows);
    StatsPartition(bills);
    PageData(bills, StatsOf(bills))
  }

  /** For the bare array the list route sends, the page holds every stored
      row, and its total is their sum split by status. */
  lemma FetchedBillsAreStored(rows: seq<Bill>)
    ensures FetchBills(Bare, rows).bills == rows
    // where the page as written holds nothing
    ensures rows != [] ==> FetchBills(Bare, rows).bills != BillsReadAsWritten(Bare, rows)
    ensures var s := FetchBills(Bare, rows).stats;
            s.total == SumAmounts(rows) &&
            s.total == s.paid + s.pending + s.overdue + SumAmounts(Filter(rows, IsOtherStatus))
  {
    StatsPartition(rows);
  }
}
