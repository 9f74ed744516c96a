/** The transactions home page (src/app/page.tsx): the list of transactions, newest
    first, shown ten to a page with Previous/Next buttons, and the guard on the
    "new transaction" form together with its live price preview. */
module Transactions {
  import opened Common

  datatype Product = Product(id: int, nama: string, harga: int)

  /** `createdAt` stands for the timestamp that `new Date(created_at).getTime()` yields. */
  datatype Transaction = Transaction(id: int, namaPembeli: string, productId: int, quantity: int,
                                     harga: int, total: int, product: Product, createdAt: int)

  /** The values of the new-transaction form. */
  datatype PostForm = PostForm(namaPembeli: string, productId: int, quantity: int)

  const ItemsPerPage := 10

  // ---------------------------------------------------------------------------
  // Pagination

  /** `Math.ceil(n / 10)`: the fewest pages of ten that hold `n` transactions. */
  function TotalPages(n: nat): (pages: nat)
    ensures pages * ItemsPerPage >= n
    ensures pages > 0 ==> (pages - 1) * ItemsPerPage < n
  {
    (n + ItemsPerPage - 1) / ItemsPerPage
  }

  /** The Previous/Next controls are drawn exactly when there is more than one page,
      that is when there are more than ten transactions. */
  lemma PaginationShownIffMoreThanOnePage(n: nat)
    ensures TotalPages(n) > 1 <==> n > ItemsPerPage
  {
  }

  /** `paginatedTransactions`: the slice from (page-1)*10 to page*10. */
  function PageSlice(transactions: seq<Transaction>, page: int): (rows: seq<Transaction>)
    ensures page >= 1 ==> rows == transactions[Min((page - 1) * ItemsPerPage, |transactions|)
                                              ..Min(page * ItemsPerPage, |transactions|)]
  {
    JsSlice(transactions, (page - 1) * ItemsPerPage, page * ItemsPerPage)
  }

  /** Every page from 1 to TotalPages holds between one and ten transactions, and row
      `i` of page `page` is transaction (page-1)*10 + i. */
  lemma PageBounds(transactions: seq<Transaction>, page: int)
    requires 1 <= page <= TotalPages(|transactions|)
    ensures 1 <= |PageSlice(transactions, page)| <= ItemsPerPage
    ensures forall i :: 0 <= i < |PageSlice(transactions, page)| ==>
                          PageSlice(transactions, page)[i] == transactions[(page - 1) * ItemsPerPage + i]
  {
  }

  /** Pages 1 to `count` laid end to end. */
  function FirstPages(transactions: seq<Transaction>, count: nat): seq<Transaction>
  {
    if count == 0 then [] else FirstPages(transactions, count - 1) + PageSlice(transactions, count)
  }

  /** The first `count` pages are exactly the first `count`*10 transactions. */
  lemma {:induction false} FirstPagesArePrefix(transactions: seq<Transaction>, count: nat)
    ensures FirstPages(transactions, count) == transactions[..Min(count * ItemsPerPage, |transactions|)]
  {
    if count > 0 {
      FirstPagesArePrefix(transactions, count - 1);
      var a, b := Min((count - 1) * ItemsPerPage, |transactions|), Min(count * ItemsPerPage, |transactions|);
      assert transactions[..a] + transactions[a..b] == transactions[..b];
    }
  }

  /** Paging loses and repeats nothing: all pages together are the whole list. */
  lemma PagesCoverList(transactions: seq<Transaction>)
    ensures FirstPages(transactions, TotalPages(|transactions|)) == transactions
  {
    FirstPagesArePrefix(transactions, TotalPages(|transactions|));
  }

  /** "Previous": one page back, never below page 1. */
  function PreviousPage(page: int): (p: int)
    ensures p >= 1
    ensures page > 1 ==> p == page - 1
    ensures page <= 1 ==> p == 1
  {
    Max(1, page - 1)
  }

  /** "Next": one page on, never past the last page. */
  function NextPage(page: int, totalPages: int): (p: int)
    ensures p <= totalPages
    ensures page < totalPages ==> p == page + 1
    ensures page >= totalPages ==> p == totalPages
  {
    Min(totalPages, page + 1)
  }

  // ---------------------------------------------------------------------------
  // Newest first

  /** Ordered by creation time, newest first. */
  predicate NewestFirst(s: seq<Transaction>)
  {
    forall i, j :: 0 <= i < j < |s| ==> s[i].createdAt >= s[j].createdAt
  }

  /** The first `n` transactions of `s` are newest first. */
  predicate PrefixNewestFirst(s: seq<Transaction>, n: int)
  {
    forall k, l :: 0 <= k < l < n && l < |s| ==> s[k].createdAt >= s[l].createdAt
  }

  /** The in-place `data.sort((a, b) => time(b) - time(a))` of a fetched list. */
  method SortNewestFirst(a: array<Transaction>)
    modifies a
    ensures NewestFirst(a[..])
    ensures multiset(a[..]) == old(multiset(a[..]))
  {
    var i := 1;
    while i < a.Length
      invariant a.Length == 0 || 1 <= i <= a.Length
      invariant PrefixNewestFirst(a[..], i)
      invariant multiset(a[..]) == old(multiset(a[..]))
    {
      InsertIntoPrefix(a, i);
      i := i + 1;
    }
  }

  /** While a[i] is being moved left it sits at `j`: every other pair among the first
      i + 1 cells is in order, and the cells on either side of it are too. */
  predicate Inserting(s: seq<Transaction>, i: int, j: int)
    requires 0 <= j <= i < |s|
  {
    (forall k, l :: 0 <= k < l <= i && l != j ==> s[k].createdAt >= s[l].createdAt)
    && (0 < j < i ==> s[j - 1].createdAt >= s[j + 1].createdAt)
  }

  /** Swapping the moving transaction with an older left neighbour keeps the invariant. */
  lemma SwapLeft(s: seq<Transaction>, i: int, j: int)
    requires 0 < j <= i < |s| && Inserting(s, i, j)
    requires s[j - 1].createdAt < s[j].createdAt
    ensures Inserting(s[j - 1 := s[j]][j := s[j - 1]], i, j - 1)
  {
  }

  /** Once the left neighbour is at least as new, the first i + 1 cells are in order. */
  lemma InsertDone(s: seq<Transaction>, i: int, j: int)
    requires 0 <= j <= i < |s| && Inserting(s, i, j)
    requires j == 0 || s[j - 1].createdAt >= s[j].createdAt
    ensures PrefixNewestFirst(s, i + 1)
  {
  }

  /** One insertion-sort step: moves a[i] left past every older transaction, so the
      first i + 1 cells become newest first. Equal times are never swapped. */
  method InsertIntoPrefix(a: array<Transaction>, i: int)
    requires 0 < i < a.Length && PrefixNewestFirst(a[..], i)
    modifies a
    ensures PrefixNewestFirst(a[..], i + 1)
    ensures multiset(a[..]) == old(multiset(a[..]))
  {
    var j := i;
    while j > 0 && a[j - 1].createdAt < a[j].createdAt
      invariant 0 <= j <= i
      invariant Inserting(a[..], i, j)
      invariant multiset(a[..]) == old(multiset(a[..]))
    {
      ghost var before := a[..];
      SwapLeft(before, i, j);
      a[j - 1], a[j] := a[j], a[j - 1];
      assert a[..] == before[j - 1 := before[j]][j := before[j - 1]];
      j := j - 1;
    }
    InsertDone(a[..], i, j);
  }

  // ---------------------------------------------------------------------------
  // New-transaction form

  /** `onSubmit`'s guard: the form is refused when the trimmed buyer name is empty,
      no product is selected, or the quantity is not positive; otherwise the request
      body is the form with the buyer name trimmed. */
  function CheckSubmission(form: PostForm, selected: Option<Product>): (body: Option<PostForm>)
    ensures body.None? <==> IsBlank(form.namaPembeli) || selected.None? || form.quantity <= 0
    ensures body.Some? ==>
      body.value.productId == form.productId && body.value.quantity == form.quantity
      && body.value.namaPembeli == Trim(form.namaPembeli)
      && body.value.namaPembeli != []
      && !IsWhitespace(body.value.namaPembeli[0])
      && !IsWhitespace(body.value.namaPembeli[|body.value.namaPembeli| - 1])
  {
    var name := Trim(form.namaPembeli);
    TrimEmptyIffBlank(form.namaPembeli);
    if name == [] || selected.None? || form.quantity <= 0 then None
    else Some(form.(namaPembeli := name))
  }

  /** The price preview under the quantity field: shown only with a product selected
      and a positive quantity, and then it is quantity times unit price. */
  function PreviewTotal(selected: Option<Product>, quantity: int): (total: Option<int>)
    ensures total.Some? <==> selected.Some? && quantity > 0
    ensures total.Some? ==> total.value == quantity * selected.value.harga
  {
    if selected.Some? && quantity > 0 then Some(quantity * selected.value.harga) else None
  }

  // ---------------------------------------------------------------------------
  // Page state

  class HomePage {
    var transactions: seq<Transaction>
    var currentPage: int
    var productSuggestions: seq<Product>
    var selectedProduct: Option<Product>
    var productSearchQuery: string
    /** The `product_id` value react-hook-form holds: undefined (None) until
        `handleProductSelect` sets it, and again after `reset()`. No input is
        registered for it. */
    var productId: Option<int>

    /** The current page is always a page that exists (page 1 when the list is empty),
        and the form's `product_id` is the id of the selected product. */
    ghost predicate Valid()
      reads this
    {
      && 1 <= currentPage && (currentPage == 1 || currentPage <= TotalPages(|transactions|))
      && productId == (if selectedProduct.Some? then Some(selectedProduct.value.id) else None)
    }

    constructor ()
      ensures Valid()
      ensures transactions == [] && currentPage == 1
      ensures productSuggestions == [] && selectedProduct.None? && productSearchQuery == ""
      ensures productId.None?
    {
      transactions := [];
      currentPage := 1;
      productSuggestions := [];
      selectedProduct := None;
      productSearchQuery := "";
      productId := None;
    }

    /** What the table shows: the ten (or fewer) transactions of the current page, never
        an empty page while there are transactions. */
    function Paginated(): (rows: seq<Transaction>)
      reads this
      requires Valid()
      ensures 1 <= |rows| <= ItemsPerPage || (transactions == [] && rows == [])
      ensures forall i :: 0 <= i < |rows| ==>
                (currentPage - 1) * ItemsPerPage + i < |transactions|
                && rows[i] == transactions[(currentPage - 1) * ItemsPerPage + i]
    {
      ShownPageNonEmpty(transactions, currentPage);
      PageSlice(transactions, currentPage)
    }

    /** A successful `fetchTransactions`: the fetched array is sorted in place, newest
        first, becomes the list, and the view goes back to page 1. */
    method FetchSucceeded(data: array<Transaction>)
      requires Valid()
      modifies this, data
      ensures Valid()
      ensures transactions == data[..] && NewestFirst(transactions)
      ensures multiset(transactions) == old(multiset(data[..]))
      ensures currentPage == 1
      ensures productSuggestions == old(productSuggestions) && selectedProduct == old(selectedProduct)
      ensures productSearchQuery == old(productSearchQuery) && productId == old(productId)
    {
      SortNewestFirst(data);
      transactions := data[..];
      currentPage := 1;
    }

    /** "Previous", drawn only when there is more than one page. */
    method GoToPreviousPage()
      requires Valid() && TotalPages(|transactions|) > 1
      modifies this`currentPage
      ensures Valid()
      ensures currentPage == PreviousPage(old(currentPage))
    {
      currentPage := PreviousPage(currentPage);
    }

    /** "Next", drawn only when there is more than one page. */
    method GoToNextPage()
      requires Valid() && TotalPages(|transactions|) > 1
      modifies this`currentPage
      ensures Valid()
      ensures currentPage == NextPage(old(currentPage), TotalPages(|transactions|))
    {
      currentPage := NextPage(currentPage, TotalPages(|transactions|));
    }

    /** Typing in the product search box. A query shorter than two UTF-16 code units
        (JavaScript's `length`) clears the suggestions at once; longer ones start a
        delayed search, not modelled. */
    method SetProductQuery(query: string)
      modifies this`productSearchQuery, this`productSuggestions
      ensures productSearchQuery == query
      ensures productSuggestions == if Utf16Length(query) < 2 then [] else old(productSuggestions)
    {
      productSearchQuery := query;
      if Utf16Length(productSearchQuery) < 2 {
        productSuggestions := [];
      }
    }

    /** `handleProductSelect`: the product is selected, its id goes into the form, its
        name fills the search box and the suggestion list closes. */
    method SelectProduct(p: Product)
      requires Valid()
      modifies this`selectedProduct, this`productId, this`productSearchQuery, this`productSuggestions
      ensures Valid()
      ensures selectedProduct == Some(p) && productId == Some(p.id)
      ensures productSearchQuery == p.nama && productSuggestions == []
    {
      selectedProduct := Some(p);
      productId := Some(p.id);
      productSearchQuery := p.nama;
      productSuggestions := [];
    }

    /** `onSubmit` on what the form holds when it is submitted: the typed buyer name and
        quantity, and the `product_id` stored by `handleProductSelect`. The body that is
        posted, or None when the guard refuses. */
    function Submission(namaPembeli: string, quantity: int): (body: Option<PostForm>)
      reads this
      requires Valid()
      ensures body.Some? <==> !IsBlank(namaPembeli) && selectedProduct.Some? && quantity > 0
      ensures body.Some? ==> body.value == PostForm(Trim(namaPembeli), selectedProduct.value.id, quantity)
    {
      match productId
      case None => None
      case Some(id) => CheckSubmission(PostForm(namaPembeli, id, quantity), selectedProduct)
    }

    /** After the server accepted a new transaction: `reset()` empties the form, and the
        selection and the product search are cleared (and, by the query effect, the
        suggestions). */
    method SubmitSucceeded()
      requires Valid()
      modifies this`selectedProduct, this`productId, this`productSearchQuery, this`productSuggestions
      ensures Valid()
      ensures selectedProduct.None? && productId.None?
      ensures productSearchQuery == "" && productSuggestions == []
    {
      productId := None;
      selectedProduct := None;
      SetProductQuery("");
    }
  }

  /** Whatever page the user is on, the table shows at most ten rows, and at least one
      whenever there are transactions at all. */
  lemma ShownPageNonEmpty(transactions: seq<Transaction>, currentPage: int)
    requires 1 <= currentPage && (currentPage == 1 || currentPage <= TotalPages(|transactions|))
    ensures |PageSlice(transactions, currentPage)| <= ItemsPerPage
    ensures transactions != [] ==> |PageSlice(transactions, currentPage)| >= 1
  {
  }
}
