/**
 * The administrator's product form: its field values, the comma-separated list
 * fields, the image list, the subcategory choices, and the values it starts
 * from when a product is edited. The form is an object from field names to
 * values, updated one field at a time.
 */
module ProductForm {
  import opened Common
  import opened Paging
  import opened CategoryDocs
  import CategoriesPage

  // ---------------------------------------------------------------- comma lists

  /** `split(',')`: the pieces between commas, always at least one. */
  function Split(s: string): (r: seq<string>)
    ensures |r| >= 1
    ensures forall k :: 0 <= k < |r| ==> ',' !in r[k]
  {
    if |s| == 0 then [""]
    else
      var rest := Split(s[1..]);
      if s[0] == ',' then [""] + rest
      else
        assert ',' !in [s[0]] + rest[0];
        [[s[0]] + rest[0]] + rest[1..]
  }

  /** `join(sep)`. */
  function Join(xs: seq<string>, sep: string): string
  {
    if |xs| == 0 then ""
    else if |xs| == 1 then xs[0]
    else xs[0] + sep + Join(xs[1..], sep)
  }

  /** `.map(item => item.trim()).filter(item => item)`. */
  function Clean(pieces: seq<string>): seq<string>
  {
    if |pieces| == 0 then []
    else (if Trim(pieces[0]) == "" then [] else [Trim(pieces[0])]) + Clean(pieces[1..])
  }

  /**
   * The list a comma-separated field's text stands for: every entry is
   * non-empty, trimmed and free of commas.
   */
  function ParseList(s: string): (r: seq<string>)
    ensures forall k :: 0 <= k < |r| ==> CleanEntry(r[k])
  {
    CleanEntries(Split(s));
    Clean(Split(s))
  }

  /** Splitting loses nothing: joining the pieces with commas gives the text back. */
  lemma {:induction false} SplitRejoins(s: string)
    ensures Join(Split(s), ",") == s
  {
    if |s| > 0 {
      SplitRejoins(s[1..]);
      var rest := Split(s[1..]);
      if s[0] != ',' && |rest| > 1 {
        assert Join(rest, ",") == rest[0] + "," + Join(rest[1..], ",");
        assert rest[1..][1..] == rest[2..];
      }
      assert s == [s[0]] + s[1..];
    }
  }

  lemma {:induction false} SplitNoComma(s: string)
    requires ',' !in s
    ensures Split(s) == [s]
  {
    if |s| > 0 {
      SplitNoComma(s[1..]);
      assert s == [s[0]] + s[1..];
    }
  }

  lemma {:induction false} SplitAtComma(a: string, b: string)
    ensures Split(a + [','] + b) == Split(a) + Split(b)
  {
    if |a| > 0 {
      SplitAtComma(a[1..], b);
      var t := a + [','] + b;
      assert t == [a[0]] + (a[1..] + [','] + b);
      assert a == [a[0]] + a[1..];
      SplitCons(a[0], a[1..] + [','] + b);
      SplitCons(a[0], a[1..]);
      if a[0] != ',' {
        JoinFirst([a[0]], Split(a[1..]), Split(b));
      }
    } else {
      assert a + [','] + b == [','] + b;
      SplitCons(',', b);
    }
  }

  lemma JoinFirst(x: string, p: seq<string>, q: seq<string>)
    requires |p| >= 1
    ensures [x + (p + q)[0]] + (p + q)[1..] == [x + p[0]] + p[1..] + q
  {
    assert (p + q)[1..] == p[1..] + q;
  }

  /** One step of the split: a comma starts a new piece, any other character joins the first. */
  lemma SplitCons(c: char, s: string)
    ensures var rest := Split(s);
            Split([c] + s) == if c == ',' then [""] + rest else [[c] + rest[0]] + rest[1..]
  {
    assert ([c] + s)[1..] == s;
  }

  lemma {:induction false} CleanConcat(p: seq<string>, q: seq<string>)
    ensures Clean(p + q) == Clean(p) + Clean(q)
  {
    if |p| > 0 {
      CleanConcat(p[1..], q);
      assert (p + q)[1..] == p[1..] + q;
    } else {
      assert p + q == q;
    }
  }

  /**
   * Parsing keeps the entries' order: the text before a comma contributes its
   * entries ahead of the text after it.
   */
  lemma ParseConcat(a: string, b: string)
    ensures ParseList(a + [','] + b) == ParseList(a) + ParseList(b)
  {
    SplitAtComma(a, b);
    CleanConcat(Split(a), Split(b));
  }

  lemma {:induction false} TrimStartWithin(s: string)
    ensures forall c :: c in TrimStart(s) ==> c in s
  {
    if |s| > 0 && IsWhitespace(s[0]) {
      TrimStartWithin(s[1..]);
    }
  }

  lemma {:induction false} TrimEndWithin(s: string)
    ensures forall c :: c in TrimEnd(s) ==> c in s
  {
    if |s| > 0 && IsWhitespace(s[|s| - 1]) {
      TrimEndWithin(s[..|s| - 1]);
    }
  }

  /** A clean entry: non-empty, no white space at either end, and no comma. */
  predicate CleanEntry(x: string)
  {
    x != "" && IsTrimmed(x) && ',' !in x
  }

  lemma {:induction false} CleanEntries(pieces: seq<string>)
    requires forall k :: 0 <= k < |pieces| ==> ',' !in pieces[k]
    ensures forall k :: 0 <= k < |Clean(pieces)| ==> CleanEntry(Clean(pieces)[k])
  {
    if |pieces| > 0 {
      CleanEntries(pieces[1..]);
      TrimShape(pieces[0]);
      TrimStartWithin(pieces[0]);
      TrimEndWithin(TrimStart(pieces[0]));
      var head := if Trim(pieces[0]) == "" then [] else [Trim(pieces[0])];
      assert forall k :: 0 <= k < |head| ==> CleanEntry(head[k]);
    }
  }

  lemma TrimAfterSpace(lead: string, x: string)
    requires lead == "" || lead == " "
    requires x != "" && IsTrimmed(x)
    ensures Trim(lead + x) == x
  {
    TrimShape(x);
    if lead == " " {
      assert (lead + x)[1..] == x;
      assert TrimStart(lead + x) == TrimStart(x);
    } else {
      assert lead + x == x;
    }
  }

  /** The optional leading space alone parses to no entries. */
  lemma ParseLead(lead: string)
    requires lead == "" || lead == " "
    ensures ParseList(lead) == []
  {
    SplitNoComma(lead);
    if lead == " " {
      assert lead[1..] == "";
      assert TrimStart(lead) == TrimStart("") == "";
    }
    assert Trim(lead) == TrimEnd("") == "";
    assert Clean([lead]) == [] + Clean([]);
  }

  /** A clean entry after the optional leading space parses to itself. */
  lemma ParseLeadEntry(lead: string, x: string)
    requires lead == "" || lead == " "
    requires CleanEntry(x)
    ensures ParseList(lead + x) == [x]
  {
    SplitNoComma(lead + x);
    TrimAfterSpace(lead, x);
    assert Clean([lead + x]) == [x] + Clean([]);
  }

  lemma {:induction false} ParseJoined(xs: seq<string>, lead: string)
    requires lead == "" || lead == " "
    requires forall k :: 0 <= k < |xs| ==> CleanEntry(xs[k])
    ensures ParseList(lead + Join(xs, ", ")) == xs
  {
    if |xs| == 0 {
      assert lead + Join(xs, ", ") == lead;
      ParseLead(lead);
    } else if |xs| == 1 {
      assert lead + Join(xs, ", ") == lead + xs[0];
      ParseLeadEntry(lead, xs[0]);
    } else {
      var rest := Join(xs[1..], ", ");
      assert Join(xs, ", ") == xs[0] + ", " + rest;
      assert lead + (xs[0] + ", " + rest) == (lead + xs[0]) + [','] + (" " + rest);
      ParseConcat(lead + xs[0], " " + rest);
      ParseLeadEntry(lead, xs[0]);
      ParseJoined(xs[1..], " ");
      assert xs == [xs[0]] + xs[1..];
    }
  }

  /**
   * The field shows its list joined with ", ", and parsing that text gives the
   * list back, for any list of clean entries.
   */
  lemma ParseJoinRoundTrip(xs: seq<string>)
    requires forall k :: 0 <= k < |xs| ==> CleanEntry(xs[k])
    ensures ParseList(Join(xs, ", ")) == xs
  {
    ParseJoined(xs, "");
    assert "" + Join(xs, ", ") == Join(xs, ", ");
  }

  /** Once typed and shown again, a list field's value stays as it is. */
  lemma ParsedListStable(s: string)
    ensures ParseList(Join(ParseList(s), ", ")) == ParseList(s)
  {
    ParseJoinRoundTrip(ParseList(s));
  }

  // ---------------------------------------------------------------- images

  /**
   * `filter((_, i) => i !== index)`: every position except `index`, in order.
   * Removing drops exactly the entry at `index`; an index outside the list
   * removes nothing.
   */
  function RemoveAt(s: seq<string>, index: int): (r: seq<string>)
    ensures 0 <= index < |s| ==> r == s[..index] + s[index + 1..]
    ensures !(0 <= index < |s|) ==> r == s
  {
    if |s| == 0 then []
    else
      var r := (if index == 0 then [] else [s[0]]) + RemoveAt(s[1..], index - 1);
      assert index == 0 ==> s[1..] == s[..0] + s[1..];
      assert 0 < index < |s| ==> s[..index] == [s[0]] + s[1..][..index - 1] && s[index + 1..] == s[1..][index..];
      assert !(0 <= index < |s|) ==> s == [s[0]] + s[1..];
      r
  }

  // ---------------------------------------------------------------- the form object

  /** A field value: text, a number, a flag, a list of strings, or a populated reference. */
  datatype FormValue = Text(s: string) | Number(x: real) | Flag(b: bool) | List(items: seq<string>) | Doc(id: string)

  type Form = map<string, FormValue>

  /** The values a new product starts from. */
  const BlankForm: Form := map[
    "name" := Text(""), "description" := Text(""), "shortDescription" := Text(""),
    "brand" := Text(""), "category" := Text(""), "subcategory" := Text(""),
    "images" := List([]), "price" := Number(0.0), "comparePrice" := Number(0.0),
    "costPrice" := Number(0.0), "sku" := Text(""), "barcode" := Text(""),
    "stockQuantity" := Number(0.0), "lowStockThreshold" := Number(5.0), "weight" := Number(0.0),
    "activeIngredient" := Text(""), "strength" := Text(""), "dosageForm" := Text("tablet"),
    "prescriptionRequired" := Flag(false), "controlledSubstance" := Flag(false),
    "expiryDate" := Text(""), "storageConditions" := Text(""), "sideEffects" := List([]),
    "contraindications" := List([]), "drugInteractions" := List([]),
    "pregnancyCategory" := Text("N/A"), "isActive" := Flag(true), "isFeatured" := Flag(false),
    "isOnSale" := Flag(false), "salePercentage" := Number(0.0), "tags" := List([]),
    "requiresColdStorage" := Flag(false), "fragile" := Flag(false)]

  /** The product fields an edit copies as they are. */
  const CopiedKeys: set<string> := {
    "name", "description", "brand", "images", "price", "stockQuantity", "lowStockThreshold",
    "prescriptionRequired", "controlledSubstance", "pregnancyCategory", "isActive",
    "isFeatured", "isOnSale", "requiresColdStorage", "fragile"}

  /** JavaScript truthiness of a value. */
  predicate Truthy(v: FormValue)
  {
    match v
    case Text(s) => s != ""
    case Number(x) => x != 0.0
    case Flag(b) => b
    case List(_) => true
    case Doc(_) => true
  }

  /** `product[key] || fallback`. */
  function OrElse(doc: Form, key: string, fallback: FormValue): FormValue
  {
    if key in doc && Truthy(doc[key]) then doc[key] else fallback
  }

  /** `typeof v === 'object' ? v._id : v`. */
  function RefId(v: FormValue): FormValue
  {
    if v.Doc? then Text(v.id) else v
  }

  /** A product document as the edit receives it: the copied fields and the category are present. */
  predicate EditableDoc(doc: Form)
  {
    (forall k :: k in CopiedKeys ==> k in doc) && "category" in doc
  }

  /** The initial value of one field when a product is edited. */
  function EditValue(doc: Form, key: string): FormValue
    requires EditableDoc(doc) && key in BlankForm
  {
    if key == "category" then RefId(doc["category"])
    else if key == "subcategory" then
      (if key in doc && doc[key].Doc? then Text(doc[key].id) else OrElse(doc, key, Text("")))
    else if key in CopiedKeys then doc[key]
    else OrElse(doc, key, BlankForm[key])
  }

  /** The form an edit starts from: exactly the form's fields. */
  function EditForm(doc: Form): (r: Form)
    requires EditableDoc(doc)
    ensures r.Keys == BlankForm.Keys
  {
    map key | key in BlankForm :: EditValue(doc, key)
  }

  /**
   * An edit fills exactly the form's fields: the required ones as the product has
   * them, the category and subcategory as ids, and every optional field the
   * product lacks, or has empty, zero or false, with the value a new product
   * starts from ("" for text, 0 for numbers, [] for lists, "tablet" for the
   * dosage form).
   */
  lemma EditFormDefaults(doc: Form, key: string)
    requires EditableDoc(doc) && key in BlankForm
    ensures key in EditForm(doc)
    ensures key in CopiedKeys ==> EditForm(doc)[key] == doc[key]
    ensures key !in CopiedKeys && key != "category" && key != "subcategory" ==>
              EditForm(doc)[key] == (if key in doc && Truthy(doc[key]) then doc[key] else BlankForm[key])
    ensures key == "category" ==> EditForm(doc)[key] == (if doc[key].Doc? then Text(doc[key].id) else doc[key])
    ensures key == "subcategory" && key !in doc ==> EditForm(doc)[key] == Text("")
  {
    assert EditForm(doc)[key] == EditValue(doc, key);
  }

  /** The form's shape: every field present, and the image list a list. */
  predicate FormShaped(form: Form)
  {
    form.Keys == BlankForm.Keys && form["images"].List?
  }

  class ProductFormState {
    var form: Form

    constructor ()
      ensures form == BlankForm && FormShaped(form)
    {
      form := BlankForm;
    }

    /** The effect of opening the form on an existing product. */
    constructor Edit(doc: Form)
      requires EditableDoc(doc) && doc["images"].List?
      ensures form == EditForm(doc) && FormShaped(form)
    {
      EditFormDefaults(doc, "images");
      form := EditForm(doc);
    }

    /** `handleInputChange`: the field takes the value and no other field changes. */
    method InputChange(field: string, value: FormValue)
      requires FormShaped(form) && field in BlankForm && (field == "images" ==> value.List?)
      modifies this
      ensures form == old(form)[field := value] && FormShaped(form)
      ensures forall k :: k in form && k != field ==> form[k] == old(form)[k]
    {
      form := form[field := value];
    }

    /** `handleArrayInputChange`: the field takes the parsed list of the typed text. */
    method ArrayInputChange(field: string, text: string)
      requires FormShaped(form) && field in BlankForm
      modifies this
      ensures form == old(form)[field := List(ParseList(text))] && FormShaped(form)
      ensures forall k :: k in form && k != field ==> form[k] == old(form)[k]
    {
      form := form[field := List(ParseList(text))];
    }

    /** `handleImageUpload`: the new files' URLs go after the existing images; no files, no change. */
    method ImageUpload(urls: Option<seq<string>>)
      requires FormShaped(form)
      modifies this
      ensures FormShaped(form)
      ensures urls.None? ==> form == old(form)
      ensures urls.Some? ==> form == old(form)["images" := List(old(form)["images"].items + urls.value)]
    {
      if urls.Some? {
        form := form["images" := List(form["images"].items + urls.value)];
      }
    }

    /** `removeImage`: the image at the index goes; the others keep their order. */
    method RemoveImage(index: int)
      requires FormShaped(form)
      modifies this
      ensures FormShaped(form)
      ensures form == old(form)["images" := List(RemoveAt(old(form)["images"].items, index))]
    {
      form := form["images" := List(RemoveAt(form["images"].items, index))];
    }
  }

  // ---------------------------------------------------------------- subcategories

  /** The subcategory choices as written: the categories whose parent is strictly the selected id. */
  function SubcategoryOptions(cats: seq<CategoryDoc>, category: string): seq<CategoryDoc>
  {
    Select(cats, (c: CategoryDoc) => ParentIs(c.parent, category))
  }

  /**
   * As written, the choices hold exactly the categories whose parent is the bare
   * selected id; one whose parent arrives populated is never offered, so with the
   * category list the server sends the choice is always empty.
   */
  lemma SubcategoryOptionsAsWritten(cats: seq<CategoryDoc>, category: string, c: CategoryDoc)
    ensures c in SubcategoryOptions(cats, category) <==> c in cats && c.parent == ParentId(category)
    ensures (forall k :: 0 <= k < |cats| ==> !cats[k].parent.ParentId?) ==> SubcategoryOptions(cats, category) == []
  {
    SelectComplete(cats, (c: CategoryDoc) => ParentIs(c.parent, category));
    if SubcategoryOptions(cats, category) != [] {
      var x := SubcategoryOptions(cats, category)[0];
      assert ParentIs(x.parent, category) && x in cats;
    }
  }

  /** The choices as intended: the children of the selected category, none when none is selected. */
  function Subcategories(cats: seq<CategoryDoc>, category: string): seq<CategoryDoc>
  {
    if category == "" then [] else CategoriesPage.ChildLevel(cats, category)
  }

  /** The intended choices are exactly the selected category's children, however their parent arrives. */
  lemma SubcategoriesMembers(cats: seq<CategoryDoc>, category: string, c: CategoryDoc)
    ensures c in Subcategories(cats, category) <==> category != "" && c in cats && ParentKey(c.parent) == category
  {
  }
}
