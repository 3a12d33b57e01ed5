/**
 * The category collection and the admin route that creates a category. The
 * schema trims the name, lower-cases the slug, requires both, and keeps a unique
 * index on each; `Valid` is that pair of unique indexes.
 */
module CategoryStore {
  import opened Common
  import opened Store
  import ImportData

  /** The part of a stored category the unique indexes look at. */
  datatype CategoryRecord = CategoryRecord(name: string, slug: string)

  /** No two categories share a name, and no two share a slug. */
  predicate UniqueNamesAndSlugs(cats: seq<CategoryRecord>)
  {
    forall i, j :: 0 <= i < j < |cats| ==> cats[i].name != cats[j].name && cats[i].slug != cats[j].slug
  }

  predicate NameTaken(cats: seq<CategoryRecord>, name: string)
  {
    exists i :: 0 <= i < |cats| && cats[i].name == name
  }

  predicate SlugTaken(cats: seq<CategoryRecord>, slug: string)
  {
    exists i :: 0 <= i < |cats| && cats[i].slug == slug
  }

  /**
   * Saving `new Category(req.body)`: the setters trim the name and lower-case
   * the slug; validation, which runs before the save hooks, refuses an empty
   * name or slug; the unique indexes refuse a name or slug already stored. Any
   * refusal is answered with 400.
   */
  function CreateCategoryResult(cats: seq<CategoryRecord>, name: string, slug: string)
    : (r: Result<CategoryRecord, ApiError>)
    ensures r.Failure? <==>
              Trim(name) == "" || Lower(slug) == ""
              || NameTaken(cats, Trim(name)) || SlugTaken(cats, Lower(slug))
    ensures r.Failure? ==> HttpStatus(r.error) == 400
    ensures r.Success? ==> r.value.name == Trim(name) && r.value.slug == Lower(slug)
  {
    var n := Trim(name);
    var s := Lower(slug);
    if n == "" || s == "" then Failure(CategoryRejected)
    else if NameTaken(cats, n) || SlugTaken(cats, s) then Failure(CategoryRejected)
    // The slug hook would fill an empty slug, but validation has already refused one,
    // so the slug stored is the request's.
    else Success(CategoryRecord(n, s))
  }

  /** A category the route stores keeps both unique indexes intact. */
  lemma CreateKeepsUnique(cats: seq<CategoryRecord>, name: string, slug: string)
    requires UniqueNamesAndSlugs(cats)
    requires CreateCategoryResult(cats, name, slug).Success?
    ensures UniqueNamesAndSlugs(cats + [CreateCategoryResult(cats, name, slug).value])
  {
    var c := CreateCategoryResult(cats, name, slug).value;
    var all := cats + [c];
    forall i, j | 0 <= i < j < |all|
      ensures all[i].name != all[j].name && all[i].slug != all[j].slug
    {
      if j == |cats| {
        assert !NameTaken(cats, c.name) && !SlugTaken(cats, c.slug);
        assert all[i] == cats[i];
      }
    }
  }

  /** Creating twice with the same name, or the same slug, refuses the second. */
  lemma SecondCreateRefused(cats: seq<CategoryRecord>, name: string, slug: string,
                            name2: string, slug2: string)
    requires CreateCategoryResult(cats, name, slug).Success?
    requires Trim(name2) == Trim(name) || Lower(slug2) == Lower(slug)
    ensures CreateCategoryResult(cats + [CreateCategoryResult(cats, name, slug).value], name2, slug2).Failure?
  {
    var c := CreateCategoryResult(cats, name, slug).value;
    var all := cats + [c];
    assert all[|cats|] == c;
    if Trim(name2) == Trim(name) {
      assert NameTaken(all, Trim(name2));
    } else {
      assert SlugTaken(all, Lower(slug2));
    }
  }

  function FromImport(c: ImportData.ImportedCategory): CategoryRecord
  {
    CategoryRecord(c.name, c.slug)
  }

  /**
   * The import script stores the distinct names it collected with slugs made
   * unique, so the collection it leaves behind satisfies both unique indexes.
   */
  lemma ImportedCategoriesUnique(names: seq<string>)
    requires forall i, j :: 0 <= i < j < |names| ==> names[i] != names[j]
    ensures var cats := ImportData.Pair(names, ImportData.ResolveSlugs(ImportData.SlugBases(names)));
            UniqueNamesAndSlugs(seq(|cats|, i requires 0 <= i < |cats| => FromImport(cats[i])))
  {
    var slugs := ImportData.ResolveSlugs(ImportData.SlugBases(names));
    ImportData.ResolveSlugsUnique(ImportData.SlugBases(names));
    var cats := ImportData.Pair(names, slugs);
    var recs := seq(|cats|, i requires 0 <= i < |cats| => FromImport(cats[i]));
    forall i, j | 0 <= i < j < |recs|
      ensures recs[i].name != recs[j].name && recs[i].slug != recs[j].slug
    {
      assert recs[i] == CategoryRecord(names[i], slugs[i]);
      assert recs[j] == CategoryRecord(names[j], slugs[j]);
    }
  }

  /** The stored categories. */
  class Categories {
    var records: seq<CategoryRecord>

    ghost predicate Valid()
      reads this
    {
      UniqueNamesAndSlugs(records)
    }

    constructor ()
      ensures Valid() && records == []
    {
      records := [];
    }

    /** `POST /admin/categories`: store the new category, or refuse it and change nothing. */
    method Create(name: string, slug: string) returns (r: Result<CategoryRecord, ApiError>)
      requires Valid()
      modifies this
      ensures r == CreateCategoryResult(old(records), name, slug)
      ensures r.Success? ==> records == old(records) + [r.value]
      ensures r.Failure? ==> records == old(records)
      ensures Valid()
    {
      r := CreateCategoryResult(records, name, slug);
      if r.Success? {
        CreateKeepsUnique(records, name, slug);
        records := records + [r.value];
      }
    }
  }
}
