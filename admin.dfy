/** The logic of the admin panel script: which products the list shows for the search box
    and the two filters, the category filter's options, and how the product form becomes
    the body of a create or update request. The panel's own state (the product list it
    fetched, the product being edited, the form, the filter selection and the table rows)
    is the class `Panel`. Fetching, the DOM, dialogs and toasts are not part of this model:
    what the panel fetches is a parameter of `Refresh`, and what it would send is the
    result of `SubmitForm`. */
module AdminPanel {
  import opened Common
  import opened Text
  import opened Catalog

  // ================================================================ the list filter

  /** The search box and the two filter selects. */
  datatype Filters = Filters(search: string, category: string, avail: string)

  /** The text the search box is matched against: name, SKU and tags, space separated. */
  function SearchText(p: Product): string {
    p.name + " " + p.sku + " " + Join(p.tags, " ")
  }

  /** The filter predicate of `render`. */
  predicate Shown(p: Product, f: Filters) {
    && Includes(LowerStr(SearchText(p)), LowerStr(f.search))
    && (f.category == "" || p.category == f.category)
    && (f.avail == "" || (if f.avail == "in" then p.available else !p.available))
  }

  /** `Shown` for fixed filters, as a test to filter with. */
  function ShownBy(f: Filters): Product -> bool {
    (p: Product) => Shown(p, f)
  }

  /** The products the table lists: those passing the filters, in list order. */
  function VisibleProducts(all: seq<Product>, f: Filters): (r: seq<Product>)
    ensures IsSubsequence(r, all)
    ensures forall j :: 0 <= j < |r| ==> Shown(r[j], f)
    ensures forall j :: 0 <= j < |all| && Shown(all[j], f) ==> all[j] in r
  {
    FilterIsSubsequence(all, ShownBy(f));
    FilterMembers(all, ShownBy(f));
    Filter(all, ShownBy(f))
  }

  /** With an empty search and both filters on "all", every product is listed. */
  lemma NoFiltersShowAll(all: seq<Product>)
    ensures VisibleProducts(all, Filters("", "", "")) == all
  {
    forall j | 0 <= j < |all| ensures Shown(all[j], Filters("", "", "")) {
      assert LowerStr("") <= LowerStr(SearchText(all[j]));
    }
    FilterKeepsAll(all, ShownBy(Filters("", "", "")));
  }

  /** The category and availability filters: a listed product has the chosen category,
      is available under "in" and unavailable under any other non-empty choice;
      `ListedWithoutSearch` gives the converse. */
  lemma FilterRules(all: seq<Product>, f: Filters, p: Product)
    requires p in VisibleProducts(all, f)
    ensures p in all
    ensures f.category != "" ==> p.category == f.category
    ensures f.avail == "in" ==> p.available
    ensures f.avail != "" && f.avail != "in" ==> !p.available
  {
    var r := VisibleProducts(all, f);
    var j :| 0 <= j < |r| && r[j] == p;
    assert Shown(r[j], f);
    IsSubsequenceMembers(r, all);
  }

  /** With the search empty, every product that passes the category and availability
      filters is listed. */
  lemma ListedWithoutSearch(all: seq<Product>, f: Filters, p: Product)
    requires f.search == "" && p in all
    requires f.category == "" || p.category == f.category
    requires f.avail == "" || (f.avail == "in" && p.available) || (f.avail != "in" && !p.available)
    ensures p in VisibleProducts(all, f)
  {
    assert LowerStr("") <= LowerStr(SearchText(p));
    assert Shown(p, f);
    var j :| 0 <= j < |all| && all[j] == p;
    FilterMembers(all, ShownBy(f));
  }

  /** Every element of a subsequence is an element of the sequence. */
  lemma {:induction false} IsSubsequenceMembers<T>(r: seq<T>, s: seq<T>)
    requires IsSubsequence(r, s)
    ensures forall j :: 0 <= j < |r| ==> r[j] in s
  {
    if |r| > 0 {
      if r[0] == s[0] {
        IsSubsequenceMembers(r[1..], s[1..]);
        forall j | 0 <= j < |r| ensures r[j] in s {
          if j > 0 { assert r[j] == r[1..][j - 1]; }
        }
      } else {
        IsSubsequenceMembers(r, s[1..]);
      }
    }
  }

  lemma LowerStrAppend(a: string, b: string)
    ensures LowerStr(a + b) == LowerStr(a) + LowerStr(b)
  {
  }

  /** A product whose name contains the query, ignoring case, is found by the search. */
  lemma NameMatchIsFound(p: Product, query: string)
    requires Includes(LowerStr(p.name), LowerStr(query))
    ensures Includes(LowerStr(SearchText(p)), LowerStr(query))
  {
    var rest := " " + p.sku + " " + Join(p.tags, " ");
    assert SearchText(p) == p.name + rest;
    LowerStrAppend(p.name, rest);
    IncludesAppend(LowerStr(p.name), LowerStr(rest), LowerStr(query));
  }

  /** The search ignores the case of the query. */
  lemma SearchIgnoresCase(all: seq<Product>, f: Filters)
    ensures VisibleProducts(all, f) == VisibleProducts(all, f.(search := LowerStr(f.search)))
  {
    assert LowerStr(LowerStr(f.search)) == LowerStr(f.search);
    FilterSame(all, ShownBy(f), ShownBy(f.(search := LowerStr(f.search))));
  }

  // ================================================================ category options

  /** Ascending in the default sort order, hence without repeats. */
  predicate StrictlySorted(s: seq<string>) {
    forall i, j :: 0 <= i < j < |s| ==> Less(s[i], s[j])
  }

  /** Adds `c` to a sorted list of distinct strings. */
  function InsertSorted(c: string, s: seq<string>): (r: seq<string>)
    requires StrictlySorted(s)
    ensures StrictlySorted(r)
    ensures forall x :: x in r <==> x == c || x in s
    decreases |s|
  {
    if |s| == 0 then [c]
    else if c == s[0] then s
    else if Less(c, s[0]) then
      assert StrictlySorted([c] + s) by {
        forall j | 0 <= j < |s| ensures Less(c, s[j]) {
          if j > 0 { LessTransitive(c, s[0], s[j]); }
        }
      }
      [c] + s
    else
      LessTotal(c, s[0]);
      var rest := InsertSorted(c, s[1..]);
      assert forall x :: x in s[1..] ==> Less(s[0], x);
      assert StrictlySorted([s[0]] + rest) by {
        forall j | 0 <= j < |rest| ensures Less(s[0], rest[j]) {
          assert rest[j] in rest;
        }
      }
      assert forall x :: x in s <==> x == s[0] || x in s[1..] by {
        assert s == [s[0]] + s[1..];
      }
      [s[0]] + rest
  }

  /** The categories of the products, as `data.map(p => p.category)`. */
  function Categories(ps: seq<Product>): (cs: seq<string>)
    ensures |cs| == |ps| && forall k :: 0 <= k < |ps| ==> cs[k] == ps[k].category
  {
    seq(|ps|, k requires 0 <= k < |ps| => ps[k].category)
  }

  /** The distinct non-empty strings of `cs`, sorted. */
  function SortedDistinct(cs: seq<string>): (r: seq<string>)
    ensures StrictlySorted(r)
    ensures forall x :: x in r <==> x != "" && x in cs
  {
    if |cs| == 0 then []
    else
      var init := cs[..|cs| - 1];
      var c := cs[|cs| - 1];
      assert cs == init + [c];
      var r := SortedDistinct(init);
      if c == "" then r else InsertSorted(c, r)
  }

  /** `populateCategoryOptions`: the category filter's options after "All categories". */
  function CategoryOptions(ps: seq<Product>): (cats: seq<string>)
    ensures StrictlySorted(cats)
    ensures forall x :: x in cats <==> x != "" && x in Categories(ps)
    ensures forall k :: 0 <= k < |ps| && ps[k].category != "" ==> ps[k].category in cats
  {
    var cs := Categories(ps);
    assert forall k :: 0 <= k < |ps| ==> ps[k].category in cs by {
      forall k | 0 <= k < |ps| ensures ps[k].category in cs { assert cs[k] == ps[k].category; }
    }
    SortedDistinct(cs)
  }

  /** A sorted list of distinct strings is determined by its elements. */
  lemma {:induction false} StrictlySortedUnique(a: seq<string>, b: seq<string>)
    requires StrictlySorted(a) && StrictlySorted(b)
    requires forall x :: x in a <==> x in b
    ensures a == b
  {
    SameElementsBothEmpty(a, b);
    if |a| > 0 && |b| > 0 {
      assert a[0] in a && b[0] in b;
      if a[0] != b[0] {
        var i :| 0 <= i < |a| && a[i] == b[0];
        var j :| 0 <= j < |b| && b[j] == a[0];
        assert i > 0 && j > 0;
        LessTransitive(a[0], b[0], a[0]);
        LessIrreflexive(a[0]);
        assert false;
      }
      assert a == [a[0]] + a[1..] && b == [b[0]] + b[1..];
      forall x ensures x in a[1..] <==> x in b[1..] {
        if x in a[1..] {
          var i :| 0 <= i < |a[1..]| && a[1..][i] == x;
          assert a[i + 1] == x && Less(a[0], a[i + 1]);
          LessIrreflexive(a[0]);
          assert x in b && x != b[0];
        }
        if x in b[1..] {
          var i :| 0 <= i < |b[1..]| && b[1..][i] == x;
          assert b[i + 1] == x && Less(b[0], b[i + 1]);
          LessIrreflexive(b[0]);
          assert x in a && x != a[0];
        }
      }
      StrictlySortedUnique(a[1..], b[1..]);
      assert a == [a[0]] + a[1..] && b == [b[0]] + b[1..];
    }
  }

  /** Sequences with the same elements are empty together. */
  lemma SameElementsBothEmpty(a: seq<string>, b: seq<string>)
    requires forall x :: x in a <==> x in b
    ensures |a| == 0 <==> |b| == 0
  {
    if |a| > 0 { assert a[0] in a; }
    if |b| > 0 { assert b[0] in b; }
  }

  /** The options depend only on which categories occur, not on the products' order or
      how often each category occurs. */
  lemma CategoryOptionsDependOnSet(ps: seq<Product>, qs: seq<Product>)
    requires forall x :: x in Categories(ps) <==> x in Categories(qs)
    ensures CategoryOptions(ps) == CategoryOptions(qs)
  {
    StrictlySortedUnique(CategoryOptions(ps), CategoryOptions(qs));
  }

  /** The selection after the options are rebuilt: kept when it is still an option ("All
      categories" is the empty one), otherwise the select falls back to its first option. */
  function KeptSelection(current: string, cats: seq<string>): (r: string)
    ensures r == current <==> current == "" || current in cats
    ensures r != current ==> r == ""
  {
    if current == "" || current in cats then current else ""
  }

  // ================================================================ the product form

  /** A form field read with `parseFloat`: empty, not a number, or a number. */
  datatype FloatInput = Blank | NotANumber | Number(x: real)

  /** The product form's fields: text inputs as text, the four decimal inputs as what
      `parseFloat` makes of them, the two checkboxes as booleans. */
  datatype ProductForm = ProductForm(
    sku: string, name: string, shortDesc: string, fullDesc: string, category: string,
    tags: string, price: FloatInput, salePrice: FloatInput, costPrice: FloatInput,
    taxRate: FloatInput, imageUrl: string, stockQty: string, maxOrderQty: string,
    prepTimeMins: string, sortOrder: string, available: bool, active: bool)

  /** A tag as the tag box produces it: non-empty, trimmed, without a comma. */
  predicate CleanTag(t: string) {
    t != "" && IsTrimmed(t) && ',' !in t
  }

  /** The pieces of the tag box, each trimmed, the empty ones dropped, in order. */
  function CleanPieces(pieces: seq<string>): (tags: seq<string>)
    requires forall k :: 0 <= k < |pieces| ==> ',' !in pieces[k]
    ensures forall k :: 0 <= k < |tags| ==> CleanTag(tags[k])
  {
    if |pieces| == 0 then []
    else
      var t := Trim(pieces[0]);
      assert ',' !in t;
      (if t == "" then [] else [t]) + CleanPieces(pieces[1..])
  }

  /** The pieces, each trimmed (`map(s => s.trim())`). */
  function TrimAll(pieces: seq<string>): (r: seq<string>)
    ensures |r| == |pieces| && forall k :: 0 <= k < |r| ==> r[k] == Trim(pieces[k])
  {
    seq(|pieces|, k requires 0 <= k < |pieces| => Trim(pieces[k]))
  }

  predicate NonEmpty(t: string) {
    t != ""
  }

  /** Cleaning the pieces is trimming each one and then keeping the non-empty ones
      (`map(s => s.trim()).filter(Boolean)`). */
  lemma {:induction false} CleanPiecesIsTrimThenFilter(pieces: seq<string>)
    requires forall k :: 0 <= k < |pieces| ==> ',' !in pieces[k]
    ensures CleanPieces(pieces) == Filter(TrimAll(pieces), NonEmpty)
  {
    if |pieces| > 0 {
      CleanPiecesIsTrimThenFilter(pieces[1..]);
      var all := TrimAll(pieces);
      assert all[0] == Trim(pieces[0]);
      assert all[1..] == TrimAll(pieces[1..]);
    }
  }

  /** The tag box: split at commas, each piece trimmed, empty pieces dropped. */
  function ParseTags(s: string): (tags: seq<string>)
    ensures forall k :: 0 <= k < |tags| ==> CleanTag(tags[k])
  {
    CleanPieces(Split(s, ','))
  }

  /** The tag box is split at commas, each piece trimmed, and the empty ones dropped. */
  lemma ParseTagsIsTrimThenFilter(s: string)
    ensures ParseTags(s) == Filter(TrimAll(Split(s, ',')), NonEmpty)
  {
    CleanPiecesIsTrimThenFilter(Split(s, ','));
  }

  /** Text without a comma gives its trimmed self as the one tag, or none when that is
      empty. With `ParseTagsAppend` this fixes the tags of every input. */
  lemma ParseTagsPiece(s: string)
    requires ',' !in s
    ensures ParseTags(s) == if Trim(s) == "" then [] else [Trim(s)]
  {
    SplitNoSeparator(s, ',');
    assert [s][1..] == [];
    assert CleanPieces([s]) == (if Trim(s) == "" then [] else [Trim(s)]) + CleanPieces([]);
  }

  lemma {:induction false} CleanPiecesAppend(a: seq<string>, b: seq<string>)
    requires forall k :: 0 <= k < |a| ==> ',' !in a[k]
    requires forall k :: 0 <= k < |b| ==> ',' !in b[k]
    ensures CleanPieces(a + b) == CleanPieces(a) + CleanPieces(b)
  {
    if |a| == 0 {
      assert a + b == b;
    } else {
      assert (a + b)[0] == a[0];
      assert (a + b)[1..] == a[1..] + b;
      CleanPiecesAppend(a[1..], b);
      assert CleanPieces(a + b) == (if Trim(a[0]) == "" then [] else [Trim(a[0])]) + CleanPieces(a[1..] + b);
    }
  }

  /** Tags on either side of a comma are parsed independently, in input order. */
  lemma ParseTagsAppend(a: string, b: string)
    ensures ParseTags(a + [','] + b) == ParseTags(a) + ParseTags(b)
  {
    SplitAppend(a, b, ',');
    CleanPiecesAppend(Split(a, ','), Split(b, ','));
  }

  /** A space after a comma makes no difference. */
  lemma ParseTagsSkipsSpace(s: string)
    ensures ParseTags(" " + s) == ParseTags(s)
  {
    var t := " " + s;
    var rest := Split(s, ',');
    assert t[0] == ' ' && t[1..] == s;
    var pieces := Split(t, ',');
    assert pieces == [[' '] + rest[0]] + rest[1..];
    TrimSkipsLeading(' ', rest[0]);
    assert pieces[1..] == rest[1..];
  }

  /** An empty tag box gives no tags. */
  lemma ParseTagsEmpty()
    ensures ParseTags("") == []
  {
    TrimOfTrimmed("");
    SplitNoSeparator("", ',');
  }

  /** A clean tag on its own is parsed to itself. */
  lemma ParseTagsSingle(t: string)
    requires CleanTag(t)
    ensures ParseTags(t) == [t]
  {
    SplitNoSeparator(t, ',');
    TrimOfTrimmed(t);
    assert [t][1..] == [];
    assert CleanPieces([t]) == [t] + CleanPieces([]);
  }

  /** Joining with ", " puts a comma, then a space, before every tag after the first. */
  lemma JoinCommaSpace(tags: seq<string>)
    requires |tags| >= 2
    ensures Join(tags, ", ") == tags[0] + [','] + (" " + Join(tags[1..], ", "))
  {
    var rest := Join(tags[1..], ", ");
    assert Join(tags, ", ") == tags[0] + ", " + rest;
    assert ", " == [','] + " ";
  }

  /** A clean tag, a comma and a space in front of a tag list add that one tag. */
  lemma ParseTagsAfterTag(t: string, rest: string)
    requires CleanTag(t)
    ensures ParseTags(t + [','] + (" " + rest)) == [t] + ParseTags(rest)
  {
    ParseTagsAppend(t, " " + rest);
    ParseTagsSkipsSpace(rest);
    ParseTagsSingle(t);
  }

  /** The tags the edit form shows (joined with ", ") are parsed back to the same tags. */
  lemma {:induction false} ParseTagsJoin(tags: seq<string>)
    requires forall k :: 0 <= k < |tags| ==> CleanTag(tags[k])
    ensures ParseTags(Join(tags, ", ")) == tags
  {
    if |tags| == 0 {
      ParseTagsEmpty();
    } else if |tags| == 1 {
      ParseTagsSingle(tags[0]);
    } else {
      var tail := tags[1..];
      assert forall k :: 0 <= k < |tail| ==> CleanTag(tail[k]) by {
        forall k | 0 <= k < |tail| ensures CleanTag(tail[k]) { assert tail[k] == tags[k + 1]; }
      }
      ParseTagsJoin(tail);
      JoinCommaSpace(tags);
      ParseTagsAfterTag(tags[0], Join(tail, ", "));
      assert tags == [tags[0]] + tail;
    }
  }

  /** An integer input: 0 when empty or when `parseInt` finds no number. */
  function IntField(v: string): (n: int)
    ensures ParseInt(v).Some? ==> n == ParseInt(v).value
    ensures ParseInt(v).None? ==> n == 0
    ensures v == "" ==> n == 0
  {
    if v == "" then 0
    else match ParseInt(v)
      case Some(n) => n
      case None => 0
  }

  /** An integer shown in the form is read back unchanged. */
  lemma IntFieldRoundTrip(n: int)
    ensures IntField(IntToString(n)) == n
  {
    ParseIntToString(n);
  }

  /** A decimal input with a default for empty or unreadable text. */
  function FloatOr(v: FloatInput, default: real): (r: real)
    ensures v.Number? ==> r == v.x
    ensures !v.Number? ==> r == default
  {
    if v.Number? then v.x else default
  }

  /** The request body `addProduct` builds, or `None` when it alerts for a missing name or
      price. */
  function BuildPayload(form: ProductForm): (r: Option<ProductPayload>)
    ensures r.None? <==> form.name == "" || !form.price.Number?
    ensures r.Some? ==> CompletePayload(r.value)
    ensures r.Some? ==> r.value.name == Some(form.name) && r.value.price == Some(form.price.x)
    ensures r.Some? ==> r.value.tags == Array(ParseTags(form.tags)) && r.value.images == Array([])
    ensures r.Some? ==> (r.value.salePrice.Null? <==> !form.salePrice.Number?)
    ensures r.Some? && form.salePrice.Number? ==> r.value.salePrice == Given(form.salePrice.x)
  {
    if form.name == "" || !form.price.Number? then None
    else Some(ProductPayload(
      Some(form.sku), Some(form.name), Some(form.shortDesc), Some(form.fullDesc),
      Some(form.category), Array(ParseTags(form.tags)), Some(form.price.x),
      if form.salePrice.Number? then Given(form.salePrice.x) else Null,
      Some(form.imageUrl), Array([]), Some(FloatOr(form.costPrice, 0.0)),
      Some(form.available), Some(FloatOr(form.taxRate, 0.0)),
      Some(IntField(form.stockQty)), Some(IntField(form.maxOrderQty)),
      Some(IntField(form.prepTimeMins)), Some(form.active), Some(IntField(form.sortOrder))))
  }

  /** The other members of the body: the text boxes and check boxes as they are, a decimal
      box that is empty or unreadable as 0, an integer box as `IntField` reads it. */
  lemma PayloadMembers(form: ProductForm)
    requires BuildPayload(form).Some?
    ensures var b := BuildPayload(form).value;
      && b.sku == Some(form.sku) && b.shortDesc == Some(form.shortDesc)
      && b.fullDesc == Some(form.fullDesc) && b.category == Some(form.category)
      && b.imageUrl == Some(form.imageUrl)
      && b.available == Some(form.available) && b.active == Some(form.active)
      && (form.costPrice.Number? ==> b.costPrice == Some(form.costPrice.x))
      && (!form.costPrice.Number? ==> b.costPrice == Some(0.0))
      && (form.taxRate.Number? ==> b.taxRate == Some(form.taxRate.x))
      && (!form.taxRate.Number? ==> b.taxRate == Some(0.0))
      && b.stockQty == Some(IntField(form.stockQty)) && b.maxOrderQty == Some(IntField(form.maxOrderQty))
      && b.prepTimeMins == Some(IntField(form.prepTimeMins)) && b.sortOrder == Some(IntField(form.sortOrder))
  {
  }

  /** What submitting the form does. */
  datatype Submission = Alert(message: string) | Create(payload: ProductPayload) | Update(id: string, payload: ProductPayload)

  /** Create when no product is being edited (`currentEditId` null or empty), otherwise
      update that product. */
  function Submit(editId: Option<string>, form: ProductForm): (s: Submission)
    ensures s.Alert? <==> BuildPayload(form).None?
    ensures s.Update? <==> BuildPayload(form).Some? && editId.Some? && editId.value != ""
    ensures s.Update? ==> s.id == editId.value
    ensures !s.Alert? ==> s.payload == BuildPayload(form).value
  {
    match BuildPayload(form)
    case None => Alert("Name and price required")
    case Some(payload) =>
      if editId.None? || editId.value == "" then Create(payload) else Update(editId.value, payload)
  }

  /** A form the panel accepts is accepted by the server too, which creates the product
      with the name, price, tags and numbers the form shows. */
  lemma AcceptedFormCreates(form: ProductForm, id: string, now: string)
    requires BuildPayload(form).Some?
    ensures var p := NewProduct(BuildPayload(form).value, id, now);
      && p.Some?
      && p.value.name == form.name && p.value.price == form.price.x
      && p.value.tags == ParseTags(form.tags) && p.value.images == []
      && (p.value.salePrice.None? <==> !form.salePrice.Number?)
      && p.value.stockQty == IntField(form.stockQty) && p.value.sortOrder == IntField(form.sortOrder)
      && p.value.available == form.available && p.value.active == form.active
  {
  }

  /** The form after "new product": reset, both checkboxes ticked. */
  const BlankForm := ProductForm("", "", "", "", "", "", Blank, Blank, Blank, Blank, "", "", "", "", "", true, true)

  /** `openEdit`: the form filled from a product. */
  function EditForm(p: Product): (f: ProductForm)
    ensures f.name == p.name && f.price == Number(p.price)
    ensures f.salePrice.Number? <==> p.salePrice.Some?
    ensures f.available == p.available && f.active == p.active
  {
    ProductForm(
      p.sku, p.name, p.shortDesc, p.fullDesc, p.category, Join(p.tags, ", "),
      Number(p.price), if p.salePrice.Some? then Number(p.salePrice.value) else Blank,
      Number(p.costPrice), Number(p.taxRate), p.imageUrl,
      IntToString(p.stockQty), IntToString(p.maxOrderQty), IntToString(p.prepTimeMins),
      IntToString(p.sortOrder), p.available, p.active)
  }

  /** The request body saving the unchanged edit form of `p` sends: every member of `p` as
      it is, with the tags parsed back and no images. */
  function EditPayload(p: Product): ProductPayload {
    ProductPayload(
      Some(p.sku), Some(p.name), Some(p.shortDesc), Some(p.fullDesc), Some(p.category),
      Array(p.tags), Some(p.price), if p.salePrice.Some? then Given(p.salePrice.value) else Null,
      Some(p.imageUrl), Array([]), Some(p.costPrice), Some(p.available), Some(p.taxRate),
      Some(p.stockQty), Some(p.maxOrderQty), Some(p.prepTimeMins), Some(p.active),
      Some(p.sortOrder))
  }

  /** The edit form of a product with clean tags sends `EditPayload`. */
  lemma EditFormPayload(p: Product)
    requires p.name != ""
    requires forall k :: 0 <= k < |p.tags| ==> CleanTag(p.tags[k])
    ensures BuildPayload(EditForm(p)) == Some(EditPayload(p))
  {
    ParseTagsJoin(p.tags);
    IntFieldRoundTrip(p.stockQty);
    IntFieldRoundTrip(p.maxOrderQty);
    IntFieldRoundTrip(p.prepTimeMins);
    IntFieldRoundTrip(p.sortOrder);
  }

  /** Saving the edit form of a product with an id sends an update of that product. */
  lemma EditFormSubmits(p: Product)
    requires p.id != "" && p.name != ""
    requires forall k :: 0 <= k < |p.tags| ==> CleanTag(p.tags[k])
    ensures Submit(Some(p.id), EditForm(p)) == Update(p.id, EditPayload(p))
  {
    EditFormPayload(p);
  }

  /** Merging `EditPayload` changes only the images and the update time. */
  lemma MergeEditPayload(p: Product, now: string)
    ensures MergeProduct(p, EditPayload(p), now) == p.(images := [], updatedAt := now)
  {
  }

  /** Opening a product for editing and saving without changes sends an update that leaves
      the product as it was, except that `updatedAt` moves and its images are cleared (the
      form always sends an empty image list). */
  lemma EditSaveRoundTrip(p: Product, now: string)
    requires p.id != "" && p.name != ""
    requires forall k :: 0 <= k < |p.tags| ==> CleanTag(p.tags[k])
    ensures var s := Submit(Some(p.id), EditForm(p));
      && s.Update? && s.id == p.id
      && MergeProduct(p, s.payload, now) == p.(images := [], updatedAt := now)
  {
    EditFormSubmits(p);
    MergeEditPayload(p, now);
  }

  // ================================================================ the panel

  /** One table row of `render`. */
  datatype Row = Row(
    id: string, name: string, skuLabel: string, category: string, tags: seq<string>,
    price: real, salePrice: Option<real>, stock: int, available: bool, active: bool)

  /** The row for one product: "No SKU" for an empty SKU, the sale price only when non-zero. */
  function RowOf(p: Product): (r: Row)
    ensures r.id == p.id && r.name == p.name && r.price == p.price
    ensures r.skuLabel == (if p.sku == "" then "No SKU" else p.sku)
    ensures r.salePrice.Some? <==> p.salePrice.Some? && p.salePrice.value != 0.0
    ensures r.salePrice.Some? ==> r.salePrice == p.salePrice
    ensures r.category == p.category && r.tags == p.tags && r.stock == p.stockQty
    ensures r.available == p.available && r.active == p.active
  {
    Row(p.id, p.name, if p.sku == "" then "No SKU" else p.sku, p.category, p.tags, p.price,
        if p.salePrice.Some? && p.salePrice.value != 0.0 then p.salePrice else None,
        p.stockQty, p.available, p.active)
  }

  /** `_allProducts.find(x => x.id === id)`. */
  function FindById(ps: seq<Product>, id: string): (r: Option<Product>)
    ensures r.None? <==> forall k :: 0 <= k < |ps| ==> ps[k].id != id
    ensures r.Some? ==> r.value in ps && r.value.id == id
    ensures r.Some? ==> exists k :: (0 <= k < |ps| && ps[k] == r.value
                                     && forall j :: 0 <= j < k ==> ps[j].id != id)
  {
    var k := FindIndex(ps, (p: Product) => p.id == id);
    if k == -1 then None else Some(ps[k])
  }

  /** The loop of `render`: one row per product, in order. */
  method BuildRows(data: seq<Product>) returns (rows: seq<Row>)
    ensures |rows| == |data|
    ensures forall k :: 0 <= k < |data| ==> rows[k] == RowOf(data[k])
  {
    rows := [];
    for i := 0 to |data|
      invariant |rows| == i
      invariant forall k :: 0 <= k < i ==> rows[k] == RowOf(data[k])
    {
      rows := rows + [RowOf(data[i])];
    }
  }

  /** The admin panel's state. */
  class Panel {
    var allProducts: seq<Product>
    var currentEditId: Option<string>
    var selectedCategory: string
    var categoryOptions: seq<string>
    var form: ProductForm
    var rows: seq<Row>

    constructor ()
      ensures allProducts == [] && currentEditId.None? && selectedCategory == ""
      ensures categoryOptions == [] && form == BlankForm && rows == []
    {
      allProducts := [];
      currentEditId := None;
      selectedCategory := "";
      categoryOptions := [];
      form := BlankForm;
      rows := [];
    }

    /** `render`: one row per listed product, in list order. */
    method Render(search: string, avail: string)
      modifies this
      ensures allProducts == old(allProducts) && currentEditId == old(currentEditId)
      ensures selectedCategory == old(selectedCategory) && categoryOptions == old(categoryOptions)
      ensures form == old(form)
      ensures var data := VisibleProducts(allProducts, Filters(search, selectedCategory, avail));
        |rows| == |data| && forall k :: 0 <= k < |data| ==> rows[k] == RowOf(data[k])
    {
      rows := BuildRows(VisibleProducts(allProducts, Filters(search, selectedCategory, avail)));
    }

    /** `refresh` once the product list has arrived: store it, rebuild the category
        options keeping the selection if possible, and render. */
    method Refresh(data: seq<Product>, search: string, avail: string)
      modifies this
      ensures allProducts == data && categoryOptions == CategoryOptions(data)
      ensures selectedCategory == KeptSelection(old(selectedCategory), categoryOptions)
      ensures currentEditId == old(currentEditId) && form == old(form)
      ensures var shown := VisibleProducts(data, Filters(search, selectedCategory, avail));
        |rows| == |shown| && forall k :: 0 <= k < |shown| ==> rows[k] == RowOf(shown[k])
    {
      allProducts := data;
      categoryOptions := CategoryOptions(data);
      selectedCategory := KeptSelection(selectedCategory, categoryOptions);
      Render(search, avail);
    }

    /** `openModalForCreate`. */
    method OpenCreate()
      modifies this
      ensures currentEditId.None? && form == BlankForm
      ensures allProducts == old(allProducts) && rows == old(rows)
      ensures selectedCategory == old(selectedCategory) && categoryOptions == old(categoryOptions)
    {
      currentEditId := None;
      form := BlankForm;
    }

    /** `openEdit`: does nothing for an id the list does not hold. */
    method OpenEdit(id: string)
      modifies this
      ensures FindById(old(allProducts), id).None? ==>
        currentEditId == old(currentEditId) && form == old(form)
      ensures FindById(old(allProducts), id).Some? ==>
        currentEditId == Some(id) && form == EditForm(FindById(old(allProducts), id).value)
      ensures allProducts == old(allProducts) && rows == old(rows)
      ensures selectedCategory == old(selectedCategory) && categoryOptions == old(categoryOptions)
    {
      var p := FindById(allProducts, id);
      if p.Some? {
        currentEditId, form := Some(id), EditForm(p.value);
      }
    }

    /** `addProduct` up to the request: what submitting the current form sends. */
    method SubmitForm() returns (s: Submission)
      ensures s.Alert? <==> form.name == "" || !form.price.Number?
      ensures s.Update? ==> currentEditId == Some(s.id) && s.id != ""
      ensures s.Create? ==> currentEditId.None? || currentEditId == Some("")
      ensures !s.Alert? ==> s.payload == BuildPayload(form).value
    {
      s := Submit(currentEditId, form);
    }
  }
}
