/**
 * The administrator's category page: the name shown for a parent id, the nested
 * category tree, and the form that creates or edits a category.
 */
module CategoriesPage {
  import opened Common
  import opened Paging
  import opened CategoryDocs

  // ---------------------------------------------------------------- parent name

  /** The position of the first category with the id. */
  function FindById(cats: seq<CategoryDoc>, id: string): (r: Option<nat>)
    ensures r.Some? ==> r.value < |cats| && cats[r.value].id == id
    ensures r.Some? ==> forall j :: 0 <= j < r.value ==> cats[j].id != id
    ensures r.None? <==> forall j :: 0 <= j < |cats| ==> cats[j].id != id
  {
    if |cats| == 0 then None
    else if cats[0].id == id then Some(0)
    else match FindById(cats[1..], id)
      case None => None
      case Some(j) => Some(j + 1)
  }

  /**
   * `getParentCategoryName`: "None" for an empty id, the name of the first
   * category with the id, and "Unknown" when none has it or the list has not
   * arrived.
   */
  function ParentName(categories: Option<seq<CategoryDoc>>, parentId: string): (r: string)
    ensures parentId == "" ==> r == "None"
    ensures parentId != "" && (categories.None? || forall j :: 0 <= j < |categories.value| ==> categories.value[j].id != parentId)
            ==> r == "Unknown"
    ensures parentId != "" && categories.Some? ==>
              forall j :: 0 <= j < |categories.value| && categories.value[j].id == parentId
                          && (forall i :: 0 <= i < j ==> categories.value[i].id != parentId)
                          ==> r == categories.value[j].name
  {
    if parentId == "" then "None"
    else if categories.None? then "Unknown"
    else match FindById(categories.value, parentId)
      case None => "Unknown"
      case Some(j) => categories.value[j].name
  }

  // ---------------------------------------------------------------- the tree

  /**
   * The filter of `renderCategoryTree` as written: at the top (an empty id) the
   * categories with a falsy parent; under an id those whose parent is that id.
   */
  predicate InLevel(c: CategoryDoc, parentId: string)
  {
    if parentId != "" then ParentIs(c.parent, parentId) else !ParentTruthy(c.parent)
  }

  function Level(cats: seq<CategoryDoc>, parentId: string): (r: seq<CategoryDoc>)
    ensures forall c :: c in r <==> c in cats && InLevel(c, parentId)
  {
    SelectComplete(cats, (c: CategoryDoc) => InLevel(c, parentId));
    Select(cats, (c: CategoryDoc) => InLevel(c, parentId))
  }

  /**
   * As written, a category whose parent arrives populated is on no level at all:
   * the object is truthy, so not at the top, and never strictly equal to an id, so
   * under no parent. Every subcategory from the server is missing from the tree.
   */
  lemma PopulatedChildHidden(cats: seq<CategoryDoc>, c: CategoryDoc, parentId: string)
    requires c in cats && c.parent.Populated?
    ensures c !in Level(cats, parentId)
  {
  }

  /**
   * The filter as intended: the categories whose parent, bare or populated, is
   * the given id. Every category is listed under its own parent, and only there.
   */
  function ChildLevel(cats: seq<CategoryDoc>, parentId: string): (r: seq<CategoryDoc>)
    ensures forall c :: c in r <==> c in cats && ParentKey(c.parent) == parentId
  {
    SelectComplete(cats, (c: CategoryDoc) => ParentKey(c.parent) == parentId);
    Select(cats, (c: CategoryDoc) => ParentKey(c.parent) == parentId)
  }

  /** For parents given as bare ids the two filters agree. */
  lemma LevelsAgreeOnBareIds(cats: seq<CategoryDoc>, parentId: string, c: CategoryDoc)
    requires !c.parent.Populated? && (c.parent.ParentId? ==> c.parent.id != "")
    ensures c in Level(cats, parentId) <==> c in ChildLevel(cats, parentId)
  {
  }

  datatype TreeNode = TreeNode(category: CategoryDoc, children: seq<TreeNode>)

  /**
   * `renderCategoryTree(categories, parentId)` with the intended filter: one node
   * per category on the level, in list order, each recursing into its own id when
   * its `children` list is non-empty. The page recurses without bound along a cycle
   * of parents; `fuel` bounds the depth.
   */
  function Tree(cats: seq<CategoryDoc>, parentId: string, fuel: nat): (r: seq<TreeNode>)
    ensures fuel == 0 ==> r == []
    ensures fuel > 0 ==> |r| == |ChildLevel(cats, parentId)|
                         && forall k :: 0 <= k < |r| ==> r[k].category == ChildLevel(cats, parentId)[k]
    decreases fuel, 1
  {
    if fuel == 0 then []
    else
      var level := ChildLevel(cats, parentId);
      seq(|level|, k requires 0 <= k < |level| => Node(cats, level[k], fuel - 1))
  }

  /** One category's node: its subtree only when its `children` list is non-empty. */
  function Node(cats: seq<CategoryDoc>, c: CategoryDoc, fuel: nat): (n: TreeNode)
    ensures n.category == c
    ensures |c.children| == 0 ==> n.children == []
    decreases fuel, 2
  {
    TreeNode(c, if |c.children| > 0 then Tree(cats, c.id, fuel) else [])
  }

  /** Every node, at every depth, is a listed category sitting under its own parent. */
  predicate Placed(cats: seq<CategoryDoc>, nodes: seq<TreeNode>, parentId: string)
    decreases nodes
  {
    forall k :: 0 <= k < |nodes| ==>
      nodes[k].category in cats && ParentKey(nodes[k].category.parent) == parentId
      && Placed(cats, nodes[k].children, nodes[k].category.id)
  }

  lemma {:induction false} TreePlaced(cats: seq<CategoryDoc>, parentId: string, fuel: nat)
    ensures Placed(cats, Tree(cats, parentId, fuel), parentId)
    decreases fuel
  {
    var r := Tree(cats, parentId, fuel);
    if fuel > 0 {
      var level := ChildLevel(cats, parentId);
      forall k | 0 <= k < |r|
        ensures r[k].category in cats && ParentKey(r[k].category.parent) == parentId
        ensures Placed(cats, r[k].children, r[k].category.id)
      {
        var c := level[k];
        assert r[k] == Node(cats, c, fuel - 1);
        if |c.children| > 0 {
          TreePlaced(cats, c.id, fuel - 1);
        }
      }
    }
  }

  // ---------------------------------------------------------------- the form

  datatype CategoryForm = CategoryForm(
    name: string, description: string, image: string, parent: string,
    sortOrder: int, isActive: bool, metaTitle: string, metaDescription: string, icon: string)

  /** `resetForm`: every field empty, sort order 0, active. */
  const BlankForm: CategoryForm := CategoryForm("", "", "", "", 0, true, "", "", "")

  /** `value || ''` for an optional text field. */
  function OrEmpty(o: Option<string>): (s: string)
    ensures o.None? ==> s == ""
    ensures o.Some? ==> s == o.value
  {
    if o.Some? then o.value else ""
  }

  /**
   * `handleEdit` as written: `typeof parent === 'object'` holds for `null` too,
   * and reading `_id` of `null` throws, which `None` stands for.
   */
  function EditFormAsWritten(c: CategoryDoc): (r: Option<CategoryForm>)
    ensures r.None? <==> c.parent.NullParent?
    ensures r.Some? ==> r.value.parent == ParentKey(c.parent) && r.value.name == c.name
  {
    var parent :=
      match c.parent
      case NullParent => None
      case Populated(id, _) => Some(id)
      case ParentId(id) => Some(id)
      case NoParent => Some("");
    if parent.None? then None
    else Some(CategoryForm(c.name, OrEmpty(c.description), OrEmpty(c.image), parent.value,
                           c.sortOrder, c.isActive, OrEmpty(c.metaTitle), OrEmpty(c.metaDescription), OrEmpty(c.icon)))
  }

  /** A top-level category stored with the schema's default `null` parent cannot be edited. */
  lemma EditNullParentThrows(c: CategoryDoc)
    requires c.parent == NullParent
    ensures EditFormAsWritten(c).None?
  {
  }

  /** The page's form state: the form fields, the category being edited, and whether the form is open. */
  class CategoryEditor {
    var form: CategoryForm
    var editing: Option<CategoryDoc>
    var showForm: bool

    constructor ()
      ensures form == BlankForm && editing == None && !showForm
    {
      form := BlankForm;
      editing := None;
      showForm := false;
    }

    /** `resetForm`: every field back to its default; nothing else changes. */
    method ResetForm()
      modifies this`form
      ensures form == BlankForm
    {
      form := BlankForm;
    }

    /** `handleEdit`, with the parent read as intended: remember the category, fill the form, open it. */
    method HandleEdit(c: CategoryDoc)
      modifies this
      ensures editing == Some(c) && form == EditForm(c) && showForm
    {
      editing := Some(c);
      form := EditForm(c);
      showForm := true;
    }
  }

  /** `handleEdit` as intended: the parent's id whether bare or populated, "" when there is none. */
  function EditForm(c: CategoryDoc): (f: CategoryForm)
    ensures f.parent == ParentKey(c.parent)
    ensures f.name == c.name && f.sortOrder == c.sortOrder && f.isActive == c.isActive
  {
    CategoryForm(c.name, OrEmpty(c.description), OrEmpty(c.image), ParentKey(c.parent),
                 c.sortOrder, c.isActive, OrEmpty(c.metaTitle), OrEmpty(c.metaDescription), OrEmpty(c.icon))
  }

  /**
   * The intended form agrees with the page wherever the page does not throw; it
   * fills a missing optional field with "", and it places the category under the
   * same parent the tree shows it under.
   */
  lemma EditFormMeaning(cats: seq<CategoryDoc>, c: CategoryDoc)
    ensures EditFormAsWritten(c).Some? ==> EditFormAsWritten(c).value == EditForm(c)
    ensures c.description.None? ==> EditForm(c).description == ""
    ensures c.icon.None? ==> EditForm(c).icon == ""
    ensures c in cats ==> c in ChildLevel(cats, EditForm(c).parent)
  {
  }
}
