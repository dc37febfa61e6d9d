/** The payment dashboard's list: the case-insensitive search over email, Stripe id and
    status, the fixed page size, `totalPages`, the page slice and the Previous / Next
    buttons that move `currentPage`. The payment service is reached over HTTP, so the
    fetched list is a parameter. */
module PaymentDashboard {
  import opened Seqs
  import opened Text

  /** A payment, reduced to the fields the list searches and shows; `amount` in cents. */
  datatype Payment = Payment(id: int, email: string, stripeId: string, status: string, amount: int)

  /** `itemsPerPage` */
  const ItemsPerPage: nat := 10

  /** The search predicate of `filteredPayments`. */
  predicate MatchesSearch(payment: Payment, term: string)
  {
    var lowered := ToLower(term);
    || Contains(ToLower(payment.email), lowered)
    || Contains(ToLower(payment.stripeId), lowered)
    || Contains(ToLower(payment.status), lowered)
  }

  /** `filteredPayments` */
  function FilteredPayments(payments: seq<Payment>, term: string): seq<Payment>
  {
    Filter(payments, (p: Payment) => MatchesSearch(p, term))
  }

  /** The list keeps the fetched order and holds exactly the matching payments, each as
      often as it was fetched. */
  lemma FilteredPaymentsExact(payments: seq<Payment>, term: string, x: Payment)
    ensures IsSubsequence(FilteredPayments(payments, term), payments)
    ensures multiset(FilteredPayments(payments, term))[x] ==
      if MatchesSearch(x, term) then multiset(payments)[x] else 0
  {
    FilterIsSubsequence(payments, (p: Payment) => MatchesSearch(p, term));
    FilterCount(payments, (p: Payment) => MatchesSearch(p, term), x);
  }

  /** An empty search keeps every payment. */
  lemma EmptySearchKeepsAll(payments: seq<Payment>)
    ensures FilteredPayments(payments, "") == payments
  {
    forall i | 0 <= i < |payments| ensures MatchesSearch(payments[i], "") {
      ContainsEmpty(ToLower(payments[i].email));
    }
    FilterKeepsAll(payments, (p: Payment) => MatchesSearch(p, ""));
  }

  /** Two search terms that differ only in the case of ASCII letters list the same payments. */
  lemma SearchIgnoresCase(payments: seq<Payment>, t1: string, t2: string)
    requires EqualIgnoringCase(t1, t2)
    ensures FilteredPayments(payments, t1) == FilteredPayments(payments, t2)
  {
    EqualIgnoringCaseLower(t1, t2);
    FilterCongruent(payments, (p: Payment) => MatchesSearch(p, t1), (p: Payment) => MatchesSearch(p, t2));
  }

  /** `Math.ceil(n / itemsPerPage)`: the least number of pages of 10 that hold `n` rows. */
  function TotalPages(n: nat): (r: nat)
    ensures (r - 1) * ItemsPerPage < n <= r * ItemsPerPage
  {
    (n + ItemsPerPage - 1) / ItemsPerPage
  }

  /** Nothing matching means no pages at all. */
  lemma NoPagesIffEmpty(n: nat)
    ensures TotalPages(n) == 0 <==> n == 0
  {
  }

  /** Where `Array.prototype.slice` puts an index: negative ones count from the end, and
      the result is clamped to `0..len`. */
  function SliceIndex(k: int, len: nat): (r: nat)
    ensures r <= len
    ensures 0 <= k <= len ==> r == k
  {
    if k < 0 then (if len + k > 0 then len + k else 0)
    else if k < len then k else len
  }

  /** `s.slice(start, end)` */
  function Slice<T>(s: seq<T>, start: int, end: int): seq<T>
  {
    var from, to := SliceIndex(start, |s|), SliceIndex(end, |s|);
    if from < to then s[from..to] else []
  }

  /** `paginatedPayments` for page `page`. */
  function PageOf(filtered: seq<Payment>, page: int): seq<Payment>
  {
    Slice(filtered, (page - 1) * ItemsPerPage, page * ItemsPerPage)
  }

  /** A page of a valid number is the run of rows starting at `(page - 1) * 10`, cut at
      the list's end. */
  lemma PageContents(filtered: seq<Payment>, page: int)
    requires 1 <= page <= TotalPages(|filtered|)
    ensures PageOf(filtered, page) ==
      filtered[(page - 1) * ItemsPerPage..if page * ItemsPerPage < |filtered| then page * ItemsPerPage else |filtered|]
  {
  }

  /** No page, whatever its number, holds more than 10 rows. */
  lemma PageSizeBounded(filtered: seq<Payment>, page: int)
    ensures |PageOf(filtered, page)| <= ItemsPerPage
  {
  }

  /** A page past the last one is empty, and so is page 0, which `slice(-10, 0)` yields. */
  lemma PagesOutsideRangeAreEmpty(filtered: seq<Payment>, page: int)
    requires page > TotalPages(|filtered|) || page == 0
    ensures PageOf(filtered, page) == []
  {
  }

  /** Pages `1..k` laid end to end. */
  function FirstPages(filtered: seq<Payment>, k: nat): seq<Payment>
  {
    if k == 0 then [] else FirstPages(filtered, k - 1) + PageOf(filtered, k)
  }

  /** The first `k` pages are the first `10 * k` rows (or all of them). */
  lemma {:induction false} FirstPagesArePrefix(filtered: seq<Payment>, k: nat)
    ensures FirstPages(filtered, k) ==
      filtered[..if k * ItemsPerPage < |filtered| then k * ItemsPerPage else |filtered|]
  {
    if k > 0 {
      FirstPagesArePrefix(filtered, k - 1);
      var lo := if (k - 1) * ItemsPerPage < |filtered| then (k - 1) * ItemsPerPage else |filtered|;
      var hi := if k * ItemsPerPage < |filtered| then k * ItemsPerPage else |filtered|;
      assert PageOf(filtered, k) == filtered[lo..hi];
      assert filtered[..lo] + filtered[lo..hi] == filtered[..hi];
    }
  }

  /** Reading pages 1 to `totalPages` in turn shows every matching payment once, in order. */
  lemma PagesCoverFiltered(filtered: seq<Payment>)
    ensures FirstPages(filtered, TotalPages(|filtered|)) == filtered
  {
    FirstPagesArePrefix(filtered, TotalPages(|filtered|));
  }

  /** Previous: `Math.max(prev - 1, 1)` */
  function PreviousPage(page: int): (r: int)
    ensures r >= 1
    ensures r == page - 1 || r == 1
    ensures page > 1 ==> r == page - 1
  {
    if page - 1 > 1 then page - 1 else 1
  }

  /** Next: `Math.min(prev + 1, totalPages)` */
  function NextPage(page: int, totalPages: int): (r: int)
    ensures r <= totalPages
    ensures r == page + 1 || r == totalPages
    ensures page < totalPages ==> r == page + 1
  {
    if page + 1 < totalPages then page + 1 else totalPages
  }

  /** With nothing to list, Next moves from page 1 to page 0, and Previous moves back. */
  lemma NextOnNoPagesReachesZero()
    ensures NextPage(1, TotalPages(0)) == 0
    ensures PreviousPage(0) == 1
  {
  }

  /** The page's state fields. */
  class Dashboard {
    var payments: seq<Payment>
    var loading: bool
    var currentPage: int
    var searchTerm: string

    constructor ()
      ensures payments == [] && loading && currentPage == 1 && searchTerm == ""
    {
      payments, loading, currentPage, searchTerm := [], true, 1, "";
    }

    /** The rows the table shows for the current state. */
    function Shown(): seq<Payment>
      reads this
    {
      PageOf(FilteredPayments(payments, searchTerm), currentPage)
    }

    /** `totalPages` for the current state. */
    function PageCount(): nat
      reads this
    {
      TotalPages(|FilteredPayments(payments, searchTerm)|)
    }

    /** The Previous buttons. */
    method Previous()
      modifies this
      ensures currentPage == PreviousPage(old(currentPage))
      ensures payments == old(payments) && searchTerm == old(searchTerm) && loading == old(loading)
    {
      currentPage := if currentPage - 1 > 1 then currentPage - 1 else 1;
    }

    /** The Next buttons. */
    method Next()
      modifies this
      ensures currentPage == NextPage(old(currentPage), PageCount())
      ensures payments == old(payments) && searchTerm == old(searchTerm) && loading == old(loading)
    {
      var total := PageCount();
      currentPage := if currentPage + 1 < total then currentPage + 1 else total;
    }

    /** Typing in the search box; the page number is kept as it is. */
    method SetSearchTerm(term: string)
      modifies this
      ensures searchTerm == term
      ensures payments == old(payments) && currentPage == old(currentPage) && loading == old(loading)
    {
      searchTerm := term;
    }

    /** `fetchPayments`, the service answering `response` (`None` when the request fails,
        which only raises a notification). */
    method FetchPayments(response: Option<seq<Payment>>)
      modifies this
      ensures !loading
      ensures payments == (if response.Some? then response.value else old(payments))
      ensures currentPage == old(currentPage) && searchTerm == old(searchTerm)
    {
      loading := true;
      if response.Some? {
        payments := response.value;
      }
      loading := false;
    }
  }
}
