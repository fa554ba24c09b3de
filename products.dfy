/** The product catalogue page: the session check that decides between the
    signed-in and the public catalogue, the search filter, the price and
    specification labels, the edit form and the image-size limit. */
module Products {
  import opened Wrappers
  import opened Strings
  import opened Catalog
  import opened Session

  /** The settled result of an HTTP call: data, an error response with a
      status code, or an error without a response. */
  datatype Reply<T> = Ok(data: T) | Status(code: int) | NetworkError

  /** Requests the page issues. */
  datatype Request =
    | PublicProducts(shopname: Option<string>)
    | FactoryProducts(factoryId: string, bearer: string)
    | ImageUpload(size: int)

  /** Toast messages the page shows. */
  datatype Notice = SessionExpired | LoadFailed | FileTooLarge | ImageUploaded | UploadFailed

  /** Which way the session check goes for a stored token. */
  datatype AuthPath =
    | PublicView                      // no token, or an empty one
    | InvalidToken                    // not three segments: purge and go public
    | MissingClaim                    // three segments, but no usable factoryId
    | Authenticated(factoryId: string)

  function AuthPathOf(token: Option<string>, decode: Decoder): (path: AuthPath)
    ensures path == PublicView <==> !Truthy(token)
    ensures path == InvalidToken <==> Truthy(token) && !HasThreeSegments(token.value)
    ensures path.Authenticated? ==>
      HasThreeSegments(token.value) && Payload(token.value, decode).Some?
      && Payload(token.value, decode).value.factoryId == Some(path.factoryId) && path.factoryId != ""
    ensures path == MissingClaim <==>
      Truthy(token) && HasThreeSegments(token.value) && !HasFactoryClaim(Payload(token.value, decode))
    ensures Truthy(token) && HasThreeSegments(token.value) && HasFactoryClaim(Payload(token.value, decode)) ==>
      path == Authenticated(Payload(token.value, decode).value.factoryId.value)
  {
    if !Truthy(token) then PublicView
    else if !HasThreeSegments(token.value) then InvalidToken
    else
      var claims := Payload(token.value, decode);
      if !HasFactoryClaim(claims) then MissingClaim
      else Authenticated(claims.value.factoryId.value)
  }

  /** Decoded claims carrying a non-empty `factoryId`. */
  predicate HasFactoryClaim(claims: Option<Claims>) {
    claims.Some? && Truthy(claims.value.factoryId)
  }

  /** The largest image accepted for upload: 5 MiB. */
  const MaxUploadBytes: int := 5 * 1024 * 1024

  predicate TooLarge(size: int) {
    size > MaxUploadBytes
  }

  /** Exactly 5 MiB is accepted; one byte more is not. */
  lemma UploadLimit()
    ensures MaxUploadBytes == 5242880
    ensures !TooLarge(5242880) && TooLarge(5242881)
  {
  }

  /** The form loaded for editing: the product, with default specifications
      only when it has none. */
  function EditForm(p: Product): (form: Product)
    ensures form.specifications.Some?
    ensures p.specifications.Some? ==> form == p
    ensures p.specifications.None? ==> form.specifications == Some(DefaultSpecs)
    ensures form.(specifications := p.specifications) == p
  {
    if p.specifications.Some? then p else p.(specifications := Some(DefaultSpecs))
  }

  /** What `handleEdit` is given: a position in the product list, or a
      product's backend id (a 24-character ObjectId, never an array index). */
  datatype EditKey = Position(n: int) | ProductId(id: string)

  /** `products[key]`: the product at an in-range position; every other key
      reads `undefined`. */
  function ProductAt(products: seq<Product>, key: EditKey): (r: Option<Product>)
    ensures r.Some? <==> key.Position? && 0 <= key.n < |products|
    ensures r.Some? ==> r.value == products[key.n]
  {
    if key.Position? && 0 <= key.n < |products| then Some(products[key.n]) else None
  }

  /** The product table's edit button passes the row's id, which never reads
      a product, while the row's position reads it. */
  lemma EditButtonMissesItsRow(p: Product, id: string)
    ensures ProductAt([p], Position(0)) == Some(p)
    ensures ProductAt([p], ProductId(id)) == None
  {
  }

  /** One optional field matches the search term, ignoring letter case. */
  predicate FieldMatches(field: Option<string>, term: string) {
    field.Some? && Includes(Lower(field.value), Lower(term))
  }

  /** The search test: name, category or material type contains the term. */
  predicate Matches(p: Product, term: string) {
    || FieldMatches(p.name, term)
    || FieldMatches(p.category, term)
    || (p.specifications.Some? && FieldMatches(p.specifications.value.materialType, term))
  }

  /** `products.filter(...)` with the search test. */
  function FilteredProducts(products: seq<Product>, term: string): (r: seq<Product>)
    ensures |r| <= |products|
    ensures forall i :: 0 <= i < |r| ==> Matches(r[i], term)
  {
    if |products| == 0 then []
    else (if Matches(products[0], term) then [products[0]] else []) + FilteredProducts(products[1..], term)
  }

  /** Filtering a concatenation filters each part: the kept products stay in
      their original order. */
  lemma {:induction false} FilteredProductsAppend(a: seq<Product>, b: seq<Product>, term: string)
    ensures FilteredProducts(a + b, term) == FilteredProducts(a, term) + FilteredProducts(b, term)
  {
    if |a| == 0 {
      assert a + b == b;
    } else {
      assert (a + b)[1..] == a[1..] + b;
      FilteredProductsAppend(a[1..], b, term);
    }
  }

  /** A product is kept exactly when it is in the list and matches. */
  lemma {:induction false} FilteredProductsMembers(products: seq<Product>, term: string, p: Product)
    ensures p in FilteredProducts(products, term) <==> p in products && Matches(p, term)
  {
    if |products| > 0 {
      FilteredProductsMembers(products[1..], term, p);
      assert products == [products[0]] + products[1..];
    }
  }

  /** The position in `products` of row `row` of the filtered list. */
  function RowSource(products: seq<Product>, term: string, row: nat): (i: nat)
    requires row < |FilteredProducts(products, term)|
    ensures row <= i < |products|
    ensures products[i] == FilteredProducts(products, term)[row]
    decreases |products|
  {
    var rest := FilteredProducts(products[1..], term);
    if Matches(products[0], term) then
      assert FilteredProducts(products, term) == [products[0]] + rest;
      if row == 0 then 0 else 1 + RowSource(products[1..], term, row - 1)
    else
      assert FilteredProducts(products, term) == rest;
      1 + RowSource(products[1..], term, row)
  }

  /** With an empty term every product with a name, a category or a material
      type is kept; one with none of the three is dropped. */
  lemma EmptyTermMatches(p: Product)
    ensures Matches(p, "") <==>
      p.name.Some? || p.category.Some? || (p.specifications.Some? && p.specifications.value.materialType.Some?)
  {
    if p.name.Some? { IncludesEmpty(Lower(p.name.value)); }
    if p.category.Some? { IncludesEmpty(Lower(p.category.value)); }
    if p.specifications.Some? && p.specifications.value.materialType.Some? {
      IncludesEmpty(Lower(p.specifications.value.materialType.value));
    }
  }

  /** The price label of a catalogue card. */
  datatype PriceLabel = Fixed(amount: real) | ContactForPricing

  /** getBasePrice: the first variation's price if non-zero, else the first
      fee if non-zero, else "Contact for pricing". */
  function BasePrice(p: Product): (r: PriceLabel)
    ensures r.Fixed? ==> r.amount != 0.0
    ensures r.Fixed? ==>
      (|p.variations| > 0 && r.amount == p.variations[0].basePrice) || (|p.fees| > 0 && r.amount == p.fees[0].amount)
    ensures r == ContactForPricing <==>
      (|p.variations| == 0 || p.variations[0].basePrice == 0.0) && (|p.fees| == 0 || p.fees[0].amount == 0.0)
  {
    if |p.variations| > 0 && p.variations[0].basePrice != 0.0 then Fixed(p.variations[0].basePrice)
    else if |p.fees| > 0 && p.fees[0].amount != 0.0 then Fixed(p.fees[0].amount)
    else ContactForPricing
  }

  /** Only the first variation and the first fee are looked at. */
  lemma BasePriceReadsFirstOnly(p: Product, moreVariations: seq<Variation>, moreFees: seq<Fee>)
    requires |p.variations| > 0 && |p.fees| > 0
    ensures BasePrice(p.(variations := p.variations[..1] + moreVariations, fees := p.fees[..1] + moreFees))
         == BasePrice(p)
  {
  }

  /** The variation price takes precedence over the fee. */
  lemma BasePricePrecedence(p: Product)
    requires |p.variations| > 0 && p.variations[0].basePrice != 0.0
    ensures BasePrice(p) == Fixed(p.variations[0].basePrice)
  {
  }

  function MaterialOf(p: Product): Option<string> {
    if p.specifications.Some? then p.specifications.value.materialType else None
  }

  function GsmOf(p: Product): Option<string> {
    if p.specifications.Some? then p.specifications.value.gsm else None
  }

  /** getSpecsSummary: the material type, then "<gsm>gsm", joined by ", ". */
  method SpecsSummary(p: Product) returns (summary: string)
    ensures var mt, gsm := MaterialOf(p), GsmOf(p);
      summary ==
        if Truthy(mt) && Truthy(gsm) then mt.value + ", " + gsm.value + "gsm"
        else if Truthy(mt) then mt.value
        else if Truthy(gsm) then gsm.value + "gsm"
        else "Specifications not available"
  {
    var mt, gsm := MaterialOf(p), GsmOf(p);
    var parts: seq<string> := [];
    if Truthy(mt) {
      parts := parts + [mt.value];
    }
    if Truthy(gsm) {
      parts := parts + [gsm.value + "gsm"];
    }
    assert |parts| == 2 ==> Join(parts, ", ") == parts[0] + ", " + Join(parts[1..], ", ");
    summary := if |parts| > 0 then Join(parts, ", ") else "Specifications not available";
  }

  /** The catalogue page's state. */
  class VendorProducts {
    const subdomain: Option<string>
    /** The token held in local storage. */
    var storedToken: Option<string>
    var isAuthenticated: bool
    var isLoading: bool
    var products: seq<Product>
    var form: Product
    var editingIndex: Option<nat>
    var isModalOpen: bool
    var isUploading: bool
    /** The search box's text; the product table shows the products it
        matches. */
    var searchTerm: string
    /** Requests issued so far, in order. */
    var requests: seq<Request>
    /** Toasts shown so far, in order. */
    var notices: seq<Notice>

    constructor (subdomain: Option<string>, storedToken: Option<string>)
      ensures this.subdomain == subdomain && this.storedToken == storedToken
      ensures !isAuthenticated && isLoading && products == [] && form == BlankForm
      ensures editingIndex == None && !isModalOpen && !isUploading && searchTerm == ""
      ensures requests == [] && notices == []
    {
      this.subdomain := subdomain;
      this.storedToken := storedToken;
      isAuthenticated := false;
      isLoading := true;
      products := [];
      form := BlankForm;
      editingIndex := None;
      isModalOpen := false;
      isUploading := false;
      searchTerm := "";
      requests := [];
      notices := [];
    }

    /** fetchPublicProducts: the shop's catalogue, or an empty list on error. */
    method FetchPublicProducts(reply: Reply<seq<Product>>)
      modifies this`isLoading, this`products, this`requests, this`notices
      ensures requests == old(requests) + [PublicProducts(subdomain)]
      ensures products == (if reply.Ok? then reply.data else [])
      ensures notices == old(notices) + (if reply.Ok? then [] else [LoadFailed])
      ensures !isLoading
    {
      isLoading := true;
      requests := requests + [PublicProducts(subdomain)];
      if reply.Ok? {
        products := reply.data;
      } else {
        notices := notices + [LoadFailed];
        products := [];
      }
      isLoading := false;
    }

    /** handleInvalidToken: purge the token, sign out, tell the user, and
        load the public catalogue. */
    method HandleInvalidToken(publicReply: Reply<seq<Product>>)
      modifies this`storedToken, this`isAuthenticated, this`isLoading, this`products,
               this`requests, this`notices
      ensures storedToken == None && !isAuthenticated && !isLoading
      ensures requests == old(requests) + [PublicProducts(subdomain)]
      ensures products == (if publicReply.Ok? then publicReply.data else [])
      ensures notices == old(notices) + [SessionExpired] + (if publicReply.Ok? then [] else [LoadFailed])
    {
      storedToken := None;
      isAuthenticated := false;
      notices := notices + [SessionExpired];
      FetchPublicProducts(publicReply);
    }

    /** fetchProducts: read `factoryId` from the token and load that
        factory's products. Without the claim nothing is requested; a 401
        purges the session. */
    method FetchProducts(token: string, decode: Decoder, reply: Reply<seq<Product>>,
                         publicReply: Reply<seq<Product>>)
      modifies this`storedToken, this`isAuthenticated, this`isLoading, this`products,
               this`requests, this`notices
      ensures !isLoading
      ensures var claims := Payload(token, decode);
        if claims.None? || !Truthy(claims.value.factoryId) then
          && requests == old(requests) && notices == old(notices) + [LoadFailed]
          && products == old(products) && storedToken == old(storedToken)
          && isAuthenticated == old(isAuthenticated)
        else
          var request := FactoryProducts(claims.value.factoryId.value, token);
          match reply
          case Ok(data) =>
            && requests == old(requests) + [request] && products == data
            && notices == old(notices) && storedToken == old(storedToken)
            && isAuthenticated == old(isAuthenticated)
          case Status(code) =>
            if code == 401 then
              && storedToken == None && !isAuthenticated
              && requests == old(requests) + [request, PublicProducts(subdomain)]
              && products == (if publicReply.Ok? then publicReply.data else [])
              && notices == old(notices) + [SessionExpired] + (if publicReply.Ok? then [] else [LoadFailed])
            else
              && requests == old(requests) + [request] && products == old(products)
              && notices == old(notices) + [LoadFailed] && storedToken == old(storedToken)
              && isAuthenticated == old(isAuthenticated)
          case NetworkError =>
            && requests == old(requests) + [request] && products == old(products)
            && notices == old(notices) + [LoadFailed] && storedToken == old(storedToken)
            && isAuthenticated == old(isAuthenticated)
    {
      isLoading := true;
      var claims := Payload(token, decode);
      if claims.None? || !Truthy(claims.value.factoryId) {
        notices := notices + [LoadFailed];
      } else {
        requests := requests + [FactoryProducts(claims.value.factoryId.value, token)];
        match reply {
          case Ok(data) =>
            products := data;
          case Status(code) =>
            if code == 401 {
              HandleInvalidToken(publicReply);
            } else {
              notices := notices + [LoadFailed];
            }
          case NetworkError =>
            notices := notices + [LoadFailed];
        }
      }
      isLoading := false;
    }

    /** checkAuthentication, run once on mount. */
    method CheckAuthentication(decode: Decoder, reply: Reply<seq<Product>>, publicReply: Reply<seq<Product>>)
      modifies this`storedToken, this`isAuthenticated, this`isLoading, this`products,
               this`requests, this`notices
      ensures !isLoading
      ensures var path := AuthPathOf(old(storedToken), decode);
        match path
        case PublicView =>
          && storedToken == old(storedToken) && !isAuthenticated
          && requests == old(requests) + [PublicProducts(subdomain)]
          && notices == old(notices) + (if publicReply.Ok? then [] else [LoadFailed])
          && products == (if publicReply.Ok? then publicReply.data else [])
        case InvalidToken =>
          && storedToken == None && !isAuthenticated
          && requests == old(requests) + [PublicProducts(subdomain)]
          && notices == old(notices) + [SessionExpired] + (if publicReply.Ok? then [] else [LoadFailed])
          && products == (if publicReply.Ok? then publicReply.data else [])
        case MissingClaim =>
          && storedToken == old(storedToken) && isAuthenticated
          && requests == old(requests) && products == old(products)
          && notices == old(notices) + [LoadFailed]
        case Authenticated(factoryId) =>
          var request := FactoryProducts(factoryId, old(storedToken).value);
          match reply
          case Ok(data) =>
            && requests == old(requests) + [request] && products == data
            && notices == old(notices) && storedToken == old(storedToken) && isAuthenticated
          case Status(code) =>
            if code == 401 then
              && storedToken == None && !isAuthenticated
              && requests == old(requests) + [request, PublicProducts(subdomain)]
              && products == (if publicReply.Ok? then publicReply.data else [])
              && notices == old(notices) + [SessionExpired] + (if publicReply.Ok? then [] else [LoadFailed])
            else
              && requests == old(requests) + [request] && products == old(products)
              && notices == old(notices) + [LoadFailed] && storedToken == old(storedToken) && isAuthenticated
          case NetworkError =>
            && requests == old(requests) + [request] && products == old(products)
            && notices == old(notices) + [LoadFailed] && storedToken == old(storedToken) && isAuthenticated
    {
      var token := storedToken;
      if Truthy(token) {
        if HasThreeSegments(token.value) {
          isAuthenticated := true;
          FetchProducts(token.value, decode, reply, publicReply);
        } else {
          HandleInvalidToken(publicReply);
        }
      } else {
        isAuthenticated := false;
        FetchPublicProducts(publicReply);
      }
      isLoading := false;
    }

    /** The search box's change handler. */
    method HandleSearch(term: string)
      modifies this`searchTerm
      ensures searchTerm == term
    {
      searchTerm := term;
    }

    /** The product table's rows: the products the search term matches. */
    function TableRows(): (rows: seq<Product>)
      reads this
      ensures forall p :: p in rows <==> p in products && Matches(p, searchTerm)
    {
      forall p ensures p in FilteredProducts(products, searchTerm) <==> p in products && Matches(p, searchTerm) {
        FilteredProductsMembers(products, searchTerm, p);
      }
      FilteredProducts(products, searchTerm)
    }

    /** handleEdit as intended: open the form on the product in row `row`
        of the table, which lists the filtered products; the editing index
        is that product's position in the full list. */
    method HandleEdit(row: nat)
      requires row < |TableRows()|
      modifies this`form, this`editingIndex, this`isModalOpen
      ensures form == EditForm(TableRows()[row]) && isModalOpen
      ensures editingIndex.Some? && editingIndex.value < |products|
      ensures products[editingIndex.value] == TableRows()[row]
    {
      var i := RowSource(products, searchTerm, row);
      form := EditForm(products[i]);
      editingIndex := Some(i);
      isModalOpen := true;
    }

    /** handleEdit as the product table calls it, with whatever key the table
        passes, read against the full list as `products[index]` reads it.
        When that is undefined, reading its `specifications` throws a
        TypeError: the result is false and nothing changes. */
    method HandleEditByKey(key: EditKey) returns (shown: bool)
      modifies this`form, this`editingIndex, this`isModalOpen
      ensures shown <==> ProductAt(products, key).Some?
      ensures shown ==> form == EditForm(products[key.n]) && editingIndex == Some(key.n) && isModalOpen
      ensures !shown ==>
        form == old(form) && editingIndex == old(editingIndex) && isModalOpen == old(isModalOpen)
    {
      if ProductAt(products, key).Some? {
        form := EditForm(products[key.n]);
        editingIndex := Some(key.n);
        isModalOpen := true;
        shown := true;
      } else {
        shown := false;
      }
    }

    /** handleFileUpload: reject files over the limit before uploading;
        otherwise upload and keep the returned address, if any. `file` is
        the chosen file's size, `None` when no file was chosen. */
    method HandleFileUpload(file: Option<int>, reply: Reply<Option<string>>)
      modifies this`form, this`isUploading, this`requests, this`notices
      ensures file.None? ==>
        form == old(form) && isUploading == old(isUploading) && requests == old(requests) && notices == old(notices)
      ensures file.Some? ==> !isUploading
      ensures file.Some? && TooLarge(file.value) ==>
        form == old(form) && requests == old(requests) && notices == old(notices) + [FileTooLarge]
      ensures file.Some? && !TooLarge(file.value) ==>
        && requests == old(requests) + [ImageUpload(file.value)]
        && (reply.Ok? && Truthy(reply.data) ==>
              form == old(form).(image := reply.data.value) && notices == old(notices) + [ImageUploaded])
        && (reply.Ok? && !Truthy(reply.data) ==> form == old(form) && notices == old(notices))
        && (!reply.Ok? ==> form == old(form) && notices == old(notices) + [UploadFailed])
    {
      if file.Some? {
        isUploading := true;
        if TooLarge(file.value) {
          notices := notices + [FileTooLarge];
          isUploading := false;
          return;
        }
        requests := requests + [ImageUpload(file.value)];
        match reply {
          case Ok(url) =>
            if Truthy(url) {
              form := form.(image := url.value);
              notices := notices + [ImageUploaded];
            }
          case _ =>
            notices := notices + [UploadFailed];
        }
        isUploading := false;
      }
    }
  }
}
