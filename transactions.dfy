/**
 * The transaction list (src/app/dashboard/transactions/page.tsx): which rows
 * a user may load, the four list filters, pagination by ten, the CSV export
 * and the volume total of the filtered list.
 */
module TransactionList {

  import opened Wrappers
  import opened Types
  import opened Seqs
  import opened Text

  // ----------------------------------------------------------- visibility

  /** Admins and managers load every row; anyone else only the rows they created. */
  predicate MaySee(user: Session, t: Transaction) {
    IsPrivileged(user.role) || t.createdBy == user.username
  }

  /** The rows `loadTransactions` gets back from the store, in the store's order. */
  function Visible(store: seq<Transaction>, user: Session): (r: seq<Transaction>)
    ensures IsSubsequence(r, store)
    ensures forall t :: t in r <==> t in store && (IsPrivileged(user.role) || t.createdBy == user.username)
    ensures forall t :: multiset(r)[t] == if MaySee(user, t) then multiset(store)[t] else 0
    ensures IsPrivileged(user.role) ==> r == store
  {
    FilterIsSubsequence(store, t => MaySee(user, t));
    FilterCount(store, t => MaySee(user, t));
    if IsPrivileged(user.role) then
      FilterAll(store, t => MaySee(user, t));
      Filter(store, t => MaySee(user, t))
    else
      Filter(store, t => MaySee(user, t))
  }

  // -------------------------------------------------------------- filters

  /** Milliseconds from the start of a day to 23:59:59 of that day. */
  const END_OF_DAY_OFFSET: int := 23 * 3600000 + 59 * 60000 + 59 * 1000

  /**
   * The filter form. A date is the start of the chosen day, `None` when the
   * field is empty; an empty `customer` or `txType` imposes nothing.
   */
  datatype Filters = Filters(startDate: Option<int>, endDate: Option<int>, customer: string, txType: string)

  const NO_FILTERS: Filters := Filters(None, None, "", "")

  predicate StartOk(f: Filters, t: Transaction) {
    f.startDate.None? || t.timestamp >= f.startDate.value
  }

  predicate EndOk(f: Filters, t: Transaction) {
    f.endDate.None? || t.timestamp <= f.endDate.value + END_OF_DAY_OFFSET
  }

  predicate CustomerOk(f: Filters, t: Transaction) {
    f.customer == "" || ContainsIgnoringCase(t.customer, f.customer) || ContainsIgnoringCase(t.sale, f.customer)
  }

  predicate TypeOk(f: Filters, t: Transaction) {
    f.txType == "" || TxTypeName(t.txType) == f.txType
  }

  predicate Matches(f: Filters, t: Transaction) {
    StartOk(f, t) && EndOk(f, t) && CustomerOk(f, t) && TypeOk(f, t)
  }

  function MatchesOf(f: Filters): Transaction -> bool {
    t => Matches(f, t)
  }

  /** What `applyFilters` leaves in `filteredTransactions`. */
  function Filtered(ts: seq<Transaction>, f: Filters): (r: seq<Transaction>)
    ensures IsSubsequence(r, ts)
    ensures forall t :: t in r <==> t in ts && Matches(f, t)
    ensures forall t :: multiset(r)[t] == if Matches(f, t) then multiset(ts)[t] else 0
  {
    FilterIsSubsequence(ts, MatchesOf(f));
    FilterCount(ts, MatchesOf(f));
    Filter(ts, MatchesOf(f))
  }

  // The tests `applyFilters` applies one after the other, and the criteria met after each of them.

  function AfterStart(start: int): Transaction -> bool {
    (t: Transaction) => t.timestamp >= start
  }

  function BeforeEnd(end: int): Transaction -> bool {
    (t: Transaction) => t.timestamp <= end
  }

  function MentionsCustomer(needle: string): Transaction -> bool {
    (t: Transaction) => ContainsIgnoringCase(t.customer, needle) || ContainsIgnoringCase(t.sale, needle)
  }

  function OfType(ty: string): Transaction -> bool {
    (t: Transaction) => TxTypeName(t.txType) == ty
  }

  function NoCriterion(): Transaction -> bool {
    (t: Transaction) => true
  }

  function UpToStart(f: Filters): Transaction -> bool {
    (t: Transaction) => StartOk(f, t)
  }

  function UpToEnd(f: Filters): Transaction -> bool {
    (t: Transaction) => StartOk(f, t) && EndOk(f, t)
  }

  function UpToCustomer(f: Filters): Transaction -> bool {
    (t: Transaction) => StartOk(f, t) && EndOk(f, t) && CustomerOk(f, t)
  }

  lemma NarrowStart(ts: seq<Transaction>, f: Filters)
    ensures (if f.startDate.Some? then Filter(ts, AfterStart(f.startDate.value)) else ts) == Filter(ts, UpToStart(f))
  {
    FilterAll(ts, NoCriterion());
    var q := if f.startDate.Some? then AfterStart(f.startDate.value) else NoCriterion();
    FilterNarrow(ts, ts, NoCriterion(), f.startDate.Some?, q, UpToStart(f));
  }

  lemma NarrowEnd(ts: seq<Transaction>, f: Filters, r: seq<Transaction>)
    requires r == Filter(ts, UpToStart(f))
    ensures (if f.endDate.Some? then Filter(r, BeforeEnd(f.endDate.value + END_OF_DAY_OFFSET)) else r) == Filter(ts, UpToEnd(f))
  {
    var q := if f.endDate.Some? then BeforeEnd(f.endDate.value + END_OF_DAY_OFFSET) else NoCriterion();
    FilterNarrow(ts, r, UpToStart(f), f.endDate.Some?, q, UpToEnd(f));
  }

  lemma NarrowCustomer(ts: seq<Transaction>, f: Filters, r: seq<Transaction>)
    requires r == Filter(ts, UpToEnd(f))
    ensures (if f.customer != "" then Filter(r, MentionsCustomer(f.customer)) else r) == Filter(ts, UpToCustomer(f))
  {
    FilterNarrow(ts, r, UpToEnd(f), f.customer != "", MentionsCustomer(f.customer), UpToCustomer(f));
  }

  lemma NarrowType(ts: seq<Transaction>, f: Filters, r: seq<Transaction>)
    requires r == Filter(ts, UpToCustomer(f))
    ensures (if f.txType != "" then Filter(r, OfType(f.txType)) else r) == Filter(ts, MatchesOf(f))
  {
    FilterNarrow(ts, r, UpToCustomer(f), f.txType != "", OfType(f.txType), MatchesOf(f));
  }

  /**
   * The body of `applyFilters`: a copy of the list is narrowed criterion by
   * criterion, each non-empty criterion in its turn.
   */
  method FilterStepwise(ts: seq<Transaction>, f: Filters) returns (r: seq<Transaction>)
    ensures r == Filtered(ts, f)
  {
    r := ts;
    NarrowStart(ts, f);
    if f.startDate.Some? {
      r := Filter(r, AfterStart(f.startDate.value));
    }
    NarrowEnd(ts, f, r);
    if f.endDate.Some? {
      r := Filter(r, BeforeEnd(f.endDate.value + END_OF_DAY_OFFSET));
    }
    NarrowCustomer(ts, f, r);
    if f.customer != "" {
      r := Filter(r, MentionsCustomer(f.customer));
    }
    NarrowType(ts, f, r);
    if f.txType != "" {
      r := Filter(r, OfType(f.txType));
    }
  }

  /** An empty filter form keeps the whole list, in order. */
  lemma EmptyFiltersKeepAll(ts: seq<Transaction>)
    ensures Filtered(ts, NO_FILTERS) == ts
  {
    FilterAll(ts, MatchesOf(NO_FILTERS));
  }

  /** Both date bounds are inclusive: the start from its first millisecond, the end through 23:59:59. */
  lemma DateBounds(f: Filters, t: Transaction)
    requires f.startDate.Some? && f.endDate.Some?
    ensures StartOk(f, t) && EndOk(f, t)
            <==> f.startDate.value <= t.timestamp <= f.endDate.value + 86399000
  {
  }

  /** The customer box matches the customer or the sale name, whatever the ASCII case. */
  lemma CustomerMatchIgnoresCase(f: Filters, t: Transaction, g: Filters)
    requires f.customer != "" && g == f.(customer := Lower(f.customer))
    ensures CustomerOk(f, t) <==> CustomerOk(g, t)
  {
    LowerIdempotent(f.customer);
  }

  // ----------------------------------------------------------- pagination

  const PAGE_SIZE: int := 10

  /** `Math.ceil(n / pageSize)`. */
  function TotalPages(n: nat): (p: nat)
    ensures n == 0 <==> p == 0
    ensures p > 0 ==> (p - 1) * PAGE_SIZE < n <= p * PAGE_SIZE
  {
    (n + PAGE_SIZE - 1) / PAGE_SIZE
  }

  /** `Array.prototype.slice(begin, end)`: negative positions count from the end, all positions clamp. */
  function Slice<T>(xs: seq<T>, begin: int, end: int): (r: seq<T>)
    ensures |r| <= |xs|
    ensures 0 <= begin <= end <= |xs| ==> r == xs[begin..end]
  {
    var b := if begin < 0 then Max(0, |xs| + begin) else Min(begin, |xs|);
    var e := if end < 0 then Max(0, |xs| + end) else Min(end, |xs|);
    if b < e then xs[b..e] else []
  }

  function Min(a: int, b: int): int { if a < b then a else b }

  function Max(a: int, b: int): int { if a < b then b else a }

  /** `filteredTransactions.slice((page - 1) * pageSize, page * pageSize)`. */
  function PageItems<T>(xs: seq<T>, page: int): (r: seq<T>)
    ensures page >= 1 ==> |r| <= PAGE_SIZE
    ensures page >= 1 && (page - 1) * PAGE_SIZE <= |xs| ==> r == xs[(page - 1) * PAGE_SIZE..Min(page * PAGE_SIZE, |xs|)]
    ensures page >= 1 && page <= TotalPages(|xs|) ==> r != []
  {
    Slice(xs, (page - 1) * PAGE_SIZE, page * PAGE_SIZE)
  }

  /** Pages 1 to k, one after the other. */
  function Pages<T>(xs: seq<T>, k: nat): seq<T>
    decreases k
  {
    if k == 0 then [] else Pages(xs, k - 1) + PageItems(xs, k)
  }

  lemma {:induction false} PagesPrefix<T>(xs: seq<T>, k: nat)
    requires k <= TotalPages(|xs|)
    ensures Pages(xs, k) == xs[..Min(k * PAGE_SIZE, |xs|)]
    decreases k
  {
    if k > 0 {
      PagesPrefix(xs, k - 1);
      var lo, hi := (k - 1) * PAGE_SIZE, Min(k * PAGE_SIZE, |xs|);
      assert xs[..lo] + xs[lo..hi] == xs[..hi];
    }
  }

  /** Reading every page in turn gives back the whole filtered list. */
  lemma PagesCoverList<T>(xs: seq<T>)
    ensures Pages(xs, TotalPages(|xs|)) == xs
  {
    PagesPrefix(xs, TotalPages(|xs|));
  }

  /** The "previous" button: `Math.max(1, p - 1)`. */
  function PrevPage(p: int): int {
    Max(1, p - 1)
  }

  /** The "next" button: `Math.min(totalPages, p + 1)`. */
  function NextPage(p: int, totalPages: int): int {
    Min(totalPages, p + 1)
  }

  /** From any page in range, both buttons stay in [1, totalPages] and move by at most one. */
  lemma PageButtonsStayInRange(p: int, totalPages: int)
    requires 1 <= p <= totalPages
    ensures 1 <= PrevPage(p) <= totalPages && 1 <= NextPage(p, totalPages) <= totalPages
    ensures PrevPage(p) == (if p == 1 then 1 else p - 1)
    ensures NextPage(p, totalPages) == (if p == totalPages then p else p + 1)
  {
  }

  // ------------------------------------------------------------------ csv

  const CSV_HEADERS: seq<string> :=
    ["Mã GD", "Ngày", "Sale", "Đại lý", "Khách hàng", "Ngân hàng", "Loại", "Số tiền", "Lợi nhuận", "Trạng thái"]

  /** The header line of the file. */
  const CSV_HEADER_LINE: string := Join(CSV_HEADERS, ",")

  /** The byte order mark put in front of the file so that spreadsheets read it as UTF-8. */
  const BOM: char := '\U{FEFF}'

  /** One data row: ten fields; `formatDate` is the date printer of the application's utilities. */
  function CsvRow(t: Transaction, formatDate: int -> string): (fields: seq<string>)
    ensures |fields| == |CSV_HEADERS|
    ensures fields[0] == t.id && fields[1] == formatDate(t.timestamp) && fields[2] == t.sale
    ensures fields[3] == t.agency && fields[4] == t.customer && fields[5] == t.bank
    ensures fields[6] == TxTypeName(t.txType) && fields[7] == IntToString(t.amount)
    ensures fields[8] == IntToString(ProfitOrZero(t)) && fields[9] == TxStatusName(t.status)
  {
    [t.id, formatDate(t.timestamp), t.sale, t.agency, t.customer, t.bank,
     TxTypeName(t.txType), IntToString(t.amount), IntToString(ProfitOrZero(t)), TxStatusName(t.status)]
  }

  /** A data row as printed: its fields joined by commas. */
  function CsvLine(t: Transaction, formatDate: int -> string): string {
    Join(CsvRow(t, formatDate), ",")
  }

  /** The data lines, one per row, in the list's order. */
  function CsvBody(ts: seq<Transaction>, formatDate: int -> string): (rows: seq<string>)
    ensures |rows| == |ts|
    ensures forall i :: 0 <= i < |ts| ==> rows[i] == CsvLine(ts[i], formatDate)
  {
    seq(|ts|, i requires 0 <= i < |ts| => CsvLine(ts[i], formatDate))
  }

  function CsvLines(ts: seq<Transaction>, formatDate: int -> string): (lines: seq<string>)
    ensures |lines| == |ts| + 1 && lines[0] == CSV_HEADER_LINE
    ensures forall i :: 1 <= i <= |ts| ==> lines[i] == CsvLine(ts[i - 1], formatDate)
  {
    ConsIndex(CSV_HEADER_LINE, CsvBody(ts, formatDate));
    [CSV_HEADER_LINE] + CsvBody(ts, formatDate)
  }

  /** `exportCSV`: nothing for an empty list, otherwise the BOM and the lines joined by line feeds. */
  function ExportCsv(ts: seq<Transaction>, formatDate: int -> string): (file: Option<string>)
    ensures file.None? <==> ts == []
    ensures file.Some? ==> |file.value| >= 1 && file.value[0] == BOM
  {
    if ts == [] then None else Some([BOM] + Join(CsvLines(ts, formatDate), "\n"))
  }

  /** A free-text field that neither separator occurs in. */
  predicate PlainField(s: string) {
    ',' !in s && '\n' !in s
  }

  predicate PlainRow(t: Transaction, formatDate: int -> string) {
    PlainField(t.id) && PlainField(formatDate(t.timestamp)) && PlainField(t.sale) && PlainField(t.agency)
    && PlainField(t.customer) && PlainField(t.bank)
  }

  lemma RowIsPlain(t: Transaction, formatDate: int -> string)
    requires PlainRow(t, formatDate)
    ensures forall j :: 0 <= j < |CsvRow(t, formatDate)| ==> PlainField(CsvRow(t, formatDate)[j])
  {
    IntToStringHasNoSeparator(t.amount);
    IntToStringHasNoSeparator(ProfitOrZero(t));
    var fields := CsvRow(t, formatDate);
    assert PlainField(fields[6]) by {
      match t.txType
      case Withdraw =>
      case Rollover =>
      case WithdrawAndRollover =>
    }
    assert PlainField(fields[9]) by {
      match t.status
      case Unpaid =>
      case Paid =>
    }
  }

  lemma {:induction false} JoinAvoids(parts: seq<string>, sep: char, c: char)
    requires c != sep
    requires forall j :: 0 <= j < |parts| ==> c !in parts[j]
    ensures c !in Join(parts, [sep])
    decreases |parts|
  {
    if |parts| > 1 {
      JoinAvoids(parts[1..], sep, c);
    }
  }

  /** A plain row prints as one line that splits back into its ten fields. */
  lemma CsvRowLine(t: Transaction, formatDate: int -> string)
    requires PlainRow(t, formatDate)
    ensures '\n' !in CsvLine(t, formatDate)
    ensures Split(CsvLine(t, formatDate), ',') == CsvRow(t, formatDate)
  {
    var fields := CsvRow(t, formatDate);
    RowIsPlain(t, formatDate);
    JoinAvoids(fields, ',', '\n');
    SplitJoin(fields, ',');
  }

  lemma CsvHeaderLine()
    ensures '\n' !in CSV_HEADER_LINE
    ensures Split(CSV_HEADER_LINE, ',') == CSV_HEADERS
  {
    assert forall j :: 0 <= j < |CSV_HEADERS| ==> PlainField(CSV_HEADERS[j]);
    JoinAvoids(CSV_HEADERS, ',', '\n');
    SplitJoin(CSV_HEADERS, ',');
  }

  /** Every printed line is free of line feeds and splits on commas into its fields. */
  lemma CsvLinesSplit(ts: seq<Transaction>, formatDate: int -> string)
    requires forall i :: 0 <= i < |ts| ==> PlainRow(ts[i], formatDate)
    ensures forall k :: 0 <= k < |CsvLines(ts, formatDate)| ==> '\n' !in CsvLines(ts, formatDate)[k]
    ensures Split(CsvLines(ts, formatDate)[0], ',') == CSV_HEADERS
    ensures forall i :: 1 <= i <= |ts| ==> Split(CsvLines(ts, formatDate)[i], ',') == CsvRow(ts[i - 1], formatDate)
  {
    var lines := CsvLines(ts, formatDate);
    CsvHeaderLine();
    assert lines[0] == CSV_HEADER_LINE;
    forall i | 0 <= i < |ts|
      ensures '\n' !in lines[i + 1] && Split(lines[i + 1], ',') == CsvRow(ts[i], formatDate)
    {
      CsvRowLine(ts[i], formatDate);
    }
    assert forall k :: 1 <= k < |lines| ==> lines[k] == lines[(k - 1) + 1];
  }

  /**
   * When no free-text field holds a comma or a line feed, the file after its
   * BOM splits into the header line and one line per row, and each line into
   * its ten fields.
   */
  lemma CsvLayout(ts: seq<Transaction>, formatDate: int -> string)
    requires ts != []
    requires forall i :: 0 <= i < |ts| ==> PlainRow(ts[i], formatDate)
    ensures ExportCsv(ts, formatDate).Some?
    ensures var lines := Split(ExportCsv(ts, formatDate).value[1..], '\n');
            |lines| == |ts| + 1
            && Split(lines[0], ',') == CSV_HEADERS
            && forall i :: 1 <= i <= |ts| ==> Split(lines[i], ',') == CsvRow(ts[i - 1], formatDate)
  {
    var lines := CsvLines(ts, formatDate);
    CsvLinesSplit(ts, formatDate);
    SplitJoin(lines, '\n');
    assert ExportCsv(ts, formatDate).value[1..] == Join(lines, "\n");
  }

  // -------------------------------------------------------------- volume

  function Amount(t: Transaction): int {
    t.amount
  }

  /** `reduce((sum, t) => sum + Number(t.amount), 0)`. */
  function TotalVolume(ts: seq<Transaction>): int {
    Sum(ts, Amount)
  }

  /** The total of a list split in two is the sum of the two totals. */
  lemma TotalVolumeAppend(a: seq<Transaction>, b: seq<Transaction>)
    ensures TotalVolume(a + b) == TotalVolume(a) + TotalVolume(b)
  {
    SumAppend(a, b, Amount);
  }

  /** The page totals add up to the total of the filtered list. */
  lemma {:induction false} TotalVolumeOfPages(xs: seq<Transaction>, k: nat)
    requires k <= TotalPages(|xs|)
    ensures TotalVolume(Pages(xs, k)) == TotalVolume(xs[..Min(k * PAGE_SIZE, |xs|)])
    decreases k
  {
    PagesPrefix(xs, k);
  }

  // ----------------------------------------------------------------- page

  /** The list page: the signed-in user, the loaded and the filtered rows, the form and the page. */
  class TransactionsPage {
    const user: Option<Session>
    var transactions: seq<Transaction>
    var filtered: seq<Transaction>
    var filters: Filters
    var currentPage: int

    /** The page stays on an existing page, or on page 1 of an empty list. */
    predicate Valid()
      reads this
    {
      1 <= currentPage && (currentPage == 1 || currentPage <= TotalPages(|filtered|))
    }

    constructor (user: Option<Session>)
      ensures this.user == user && transactions == [] && filtered == [] && filters == NO_FILTERS && currentPage == 1
      ensures Valid()
    {
      this.user := user;
      transactions, filtered, filters, currentPage := [], [], NO_FILTERS, 1;
    }

    /** `applyFilters`: the narrowed copy of the list, and back to page 1. */
    method ApplyFilters()
      modifies this`filtered, this`currentPage
      ensures filtered == Filtered(transactions, filters) && currentPage == 1
      ensures Valid()
    {
      filtered := FilterStepwise(transactions, filters);
      currentPage := 1;
    }

    /** Mount: with a session, load the rows the user may see (a failed query keeps the old list). */
    method Load(store: seq<Transaction>, failed: bool)
      modifies this
      ensures user.None? || failed ==> transactions == old(transactions) && filtered == old(filtered)
                                       && filters == old(filters) && currentPage == old(currentPage)
      ensures user.Some? && !failed ==> transactions == Visible(store, user.value) && filters == old(filters)
                                        && filtered == Filtered(transactions, filters) && currentPage == 1
    {
      if user.Some? && !failed {
        transactions := Visible(store, user.value);
        ApplyFilters();
      }
    }

    /** Editing the filter form re-runs the filters. */
    method SetFilters(f: Filters)
      modifies this
      ensures transactions == old(transactions) && filters == f
      ensures filtered == Filtered(transactions, f) && currentPage == 1
      ensures Valid()
    {
      filters := f;
      ApplyFilters();
    }

    method Prev()
      requires Valid()
      modifies this`currentPage
      ensures currentPage == PrevPage(old(currentPage))
      ensures Valid()
    {
      currentPage := PrevPage(currentPage);
    }

    /** The buttons are only shown when there is more than one page. */
    method Next()
      requires Valid() && TotalPages(|filtered|) > 1
      modifies this`currentPage
      ensures currentPage == NextPage(old(currentPage), TotalPages(|filtered|))
      ensures Valid()
    {
      currentPage := NextPage(currentPage, TotalPages(|filtered|));
    }

    /** The rows on the current page. */
    function Shown(): (r: seq<Transaction>)
      reads this
      ensures Valid() ==> |r| <= PAGE_SIZE && (filtered != [] ==> r != [])
                          && (currentPage - 1) * PAGE_SIZE + |r| <= |filtered|
      ensures Valid() ==> forall i :: 0 <= i < |r| ==> r[i] == filtered[(currentPage - 1) * PAGE_SIZE + i]
    {
      PageItems(filtered, currentPage)
    }
  }
}
