/** The product management page (src/app/products/page.tsx): the digits-only price
    field, the choice between updating and creating on submit, and the state of the
    add/edit form. */
module Products {
  import opened Common

  datatype Product = Product(id: int, nama: string, harga: int, createdAt: string)

  /** The values of the add/edit form. */
  datatype FormData = FormData(nama: string, harga: int)

  const EmptyForm := FormData("", 0)

  datatype HttpMethod = Put | Post

  /** The API path a submit goes to, after the configured base URL. */
  datatype Endpoint = ProductsCollection | ProductItem(id: int)

  /** The request `handleSubmit` sends: method, path and the JSON body. */
  datatype Request = Request(httpMethod: HttpMethod, endpoint: Endpoint, body: FormData)

  // ---------------------------------------------------------------------------
  // Price field

  predicate IsDigit(c: char)
  {
    '0' <= c <= '9'
  }

  predicate AllDigits(s: string)
  {
    forall i :: 0 <= i < |s| ==> IsDigit(s[i])
  }

  /** `value.replace(/[^0-9]/g, '')`: the digits of the typed text, in order. */
  function KeepDigits(raw: string): (digits: string)
    ensures AllDigits(digits)
    ensures IsSubsequence(digits, raw)
    ensures AllDigits(raw) ==> digits == raw
    decreases |raw|
  {
    if raw == [] then []
    else
      var rest := KeepDigits(raw[1..]);
      if IsDigit(raw[0]) then
        assert ([raw[0]] + rest)[1..] == rest;
        [raw[0]] + rest
      else rest
  }

  /** Dropping the non-digits of two pieces of text one after the other is dropping them
      from the joined text: with the one-character case this pins KeepDigits down. */
  lemma {:induction false} KeepDigitsOfConcat(a: string, b: string)
    ensures KeepDigits(a + b) == KeepDigits(a) + KeepDigits(b)
    decreases |a|
  {
    if a == [] {
      assert a + b == b;
    } else {
      assert (a + b)[1..] == a[1..] + b;
      KeepDigitsOfConcat(a[1..], b);
    }
  }

  function DigitValue(c: char): nat
    requires IsDigit(c)
  {
    c as int - '0' as int
  }

  function DigitChar(d: nat): (c: char)
    requires d < 10
    ensures IsDigit(c) && DigitValue(c) == d
  {
    ('0' as int + d) as char
  }

  /** `parseInt` of a string of decimal digits. */
  function DecimalValue(digits: string): nat
    requires AllDigits(digits)
    decreases |digits|
  {
    if digits == [] then 0
    else DecimalValue(digits[..|digits| - 1]) * 10 + DigitValue(digits[|digits| - 1])
  }

  /** The decimal digits JavaScript prints for a non-negative integer, without leading
      zeros. */
  function DecimalString(n: nat): (s: string)
    ensures AllDigits(s) && |s| >= 1
    ensures s[0] == '0' ==> n == 0
    decreases n
  {
    if n < 10 then [DigitChar(n)] else DecimalString(n / 10) + [DigitChar(n % 10)]
  }

  /** Printing a number and reading it back gives the number. */
  lemma {:induction false} DecimalRoundTrip(n: nat)
    ensures DecimalValue(DecimalString(n)) == n
    decreases n
  {
    if n >= 10 {
      DecimalRoundTrip(n / 10);
      var s := DecimalString(n);
      assert s[..|s| - 1] == DecimalString(n / 10);
    }
  }

  /** The price the `harga` field's onChange stores: the digits of the typed text read
      as a decimal number, or 0 when no digit was typed. Never negative. */
  function PriceFromInput(raw: string): (price: nat)
    ensures KeepDigits(raw) == "" ==> price == 0
    ensures KeepDigits(raw) != "" ==> price == DecimalValue(KeepDigits(raw))
  {
    var digits := KeepDigits(raw);
    if digits == "" then 0 else DecimalValue(digits)
  }

  /** What the `harga` field displays: nothing for 0, the number itself otherwise
      (`String` of a negative price keeps its sign). */
  function PriceDisplay(harga: int): (text: string)
    ensures harga == 0 <==> text == ""
    ensures harga > 0 ==> text == DecimalString(harga) && AllDigits(text)
    ensures harga < 0 ==> text == "-" + DecimalString(-harga)
  {
    if harga == 0 then "" else if harga > 0 then DecimalString(harga) else "-" + DecimalString(-harga)
  }

  /** The field reads back what it shows: re-parsing the displayed text of a
      non-negative price gives that price. */
  lemma PriceDisplayRoundTrip(harga: nat)
    ensures PriceFromInput(PriceDisplay(harga)) == harga
  {
    if harga > 0 {
      DecimalRoundTrip(harga);
    }
  }

  /** Typing one more digit `d` after the displayed price `harga` makes the price
      `harga * 10 + d`; on the empty field shown for 0 the first digit is the price. */
  lemma TypingADigit(harga: nat, d: nat)
    requires d < 10
    ensures PriceFromInput(PriceDisplay(harga) + [DigitChar(d)]) == harga * 10 + d
  {
    var shown := PriceDisplay(harga);
    var typed := shown + [DigitChar(d)];
    assert AllDigits(typed);
    assert KeepDigits(typed) == typed;
    assert typed[..|typed| - 1] == shown;
    assert DecimalValue(typed) == DecimalValue(shown) * 10 + d;
    if harga > 0 {
      DecimalRoundTrip(harga);
    }
    assert DecimalValue(shown) == harga;
  }

  // ---------------------------------------------------------------------------
  // Submit target

  /** `handleSubmit`'s choice of method and URL: PUT to the product when an id is being
      edited, POST to the collection otherwise. The id is checked for JavaScript
      truthiness, so an id of 0 also gives POST. */
  function SubmitTarget(editingId: Option<int>): (target: (HttpMethod, Endpoint))
    ensures target.0 == Put <==> editingId.Some? && editingId.value != 0
    ensures target.0 == Put ==> target.1 == ProductItem(editingId.value)
    ensures target.0 == Post ==> target.1 == ProductsCollection
  {
    if editingId.Some? && editingId.value != 0 then (Put, ProductItem(editingId.value))
    else (Post, ProductsCollection)
  }

  /** The browser's constraint validation, which runs before the form's submit event:
      both inputs are `required` (their shown text is not empty) and the price input's
      shown text must match `pattern="[0-9]*"`. */
  predicate BrowserAccepts(form: FormData)
  {
    form.nama != "" && PriceDisplay(form.harga) != "" && AllDigits(PriceDisplay(form.harga))
  }

  /** The browser lets a form through exactly when it has a name and a positive price:
      0 shows as an empty field and a negative price shows a '-' the pattern refuses. */
  lemma BrowserAcceptsIff(form: FormData)
    ensures BrowserAccepts(form) <==> form.nama != "" && form.harga > 0
  {
    if form.harga < 0 {
      assert PriceDisplay(form.harga)[0] == '-';
    }
  }

  // ---------------------------------------------------------------------------
  // Page state

  class ProductsPage {
    var products: seq<Product>
    var searchResults: seq<Product>
    var showForm: bool
    var editingId: Option<int>
    var formData: FormData
    var searchQuery: string

    constructor ()
      ensures products == [] && searchResults == [] && !showForm && editingId.None?
      ensures formData == EmptyForm && searchQuery == ""
    {
      products := [];
      searchResults := [];
      showForm := false;
      editingId := None;
      formData := EmptyForm;
      searchQuery := "";
    }

    /** A successful `fetchProducts`: the list and the search results both become the
        fetched list. */
    method FetchSucceeded(data: seq<Product>)
      modifies this`products, this`searchResults
      ensures products == data && searchResults == data
    {
      products := data;
      searchResults := data;
    }

    /** `handleEdit`: the form opens on a copy of the product's name and price. */
    method HandleEdit(p: Product)
      modifies this`editingId, this`formData, this`showForm
      ensures editingId == Some(p.id) && formData == FormData(p.nama, p.harga) && showForm
    {
      editingId := Some(p.id);
      formData := FormData(p.nama, p.harga);
      showForm := true;
    }

    /** "+ Tambah Produk": an empty form for a new product. */
    method OpenCreateForm()
      modifies this`showForm, this`editingId, this`formData
      ensures showForm && editingId.None? && formData == EmptyForm
    {
      showForm := true;
      editingId := None;
      formData := EmptyForm;
    }

    /** "Batal": the form closes and forgets the edited id; its values stay. */
    method Cancel()
      modifies this`showForm, this`editingId
      ensures !showForm && editingId.None?
    {
      showForm := false;
      editingId := None;
    }

    /** The name field's onChange. */
    method SetName(nama: string)
      modifies this`formData
      ensures formData == old(formData).(nama := nama)
    {
      formData := formData.(nama := nama);
    }

    /** The price field's onChange. */
    method SetPriceInput(raw: string)
      modifies this`formData
      ensures formData == old(formData).(harga := PriceFromInput(raw))
      ensures formData.harga >= 0 && formData.nama == old(formData).nama
    {
      formData := formData.(harga := PriceFromInput(raw));
    }

    /** Pressing the submit button. A form the browser refuses sends nothing (None) and
        changes nothing. Otherwise `handleSubmit` sends the request, and, when the server
        accepts it (`accepted`), the form closes and resets to empty; a refused request
        changes nothing. */
    method Submit(accepted: bool) returns (sent: Option<Request>)
      modifies this`showForm, this`editingId, this`formData
      ensures sent.Some? <==> BrowserAccepts(old(formData))
      ensures sent.Some? ==>
        var target := SubmitTarget(old(editingId));
        sent.value == Request(target.0, target.1, old(formData))
        && sent.value.body.nama != "" && sent.value.body.harga > 0
      ensures sent.Some? && accepted ==> !showForm && editingId.None? && formData == EmptyForm
      ensures sent.None? || !accepted ==>
        showForm == old(showForm) && editingId == old(editingId) && formData == old(formData)
    {
      if !BrowserAccepts(formData) {
        return None;
      }
      BrowserAcceptsIff(formData);
      var target := SubmitTarget(editingId);
      sent := Some(Request(target.0, target.1, formData));
      if accepted {
        showForm := false;
        editingId := None;
        formData := EmptyForm;
      }
    }
  }
}
