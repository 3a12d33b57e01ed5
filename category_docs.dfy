/**
 * Categories as the administrator's pages receive them. The category list the
 * server sends has each category's `parent` populated: a category with a parent
 * carries the parent's document (its id and name) rather than the bare id.
 */
module CategoryDocs {
  import opened Common

  /**
   * The `parent` field: absent, `null` (the schema's default, kept by population),
   * a bare parent id, or the parent document the server populated.
   */
  datatype ParentRef = NoParent | NullParent | ParentId(id: string) | Populated(id: string, name: string)

  datatype CategoryDoc = CategoryDoc(
    id: string,
    name: string,
    description: Option<string>,
    image: Option<string>,
    parent: ParentRef,
    children: seq<string>,
    isActive: bool,
    sortOrder: int,
    metaTitle: Option<string>,
    metaDescription: Option<string>,
    icon: Option<string>)

  /** JavaScript truthiness of the `parent` field: absent, `null` and the empty id are falsy; a document is truthy. */
  predicate ParentTruthy(p: ParentRef)
  {
    match p
    case NoParent => false
    case NullParent => false
    case ParentId(id) => id != ""
    case Populated(_, _) => true
  }

  /** `parent === id` for a string id: only a bare id can be strictly equal to a string. */
  predicate ParentIs(p: ParentRef, id: string)
  {
    p.ParentId? && p.id == id
  }

  /** The id a parent reference stands for, whether bare or populated; "" for none. */
  function ParentKey(p: ParentRef): (k: string)
    ensures p.NoParent? || p.NullParent? ==> k == ""
    ensures p.ParentId? || p.Populated? ==> k == p.id
  {
    match p
    case NoParent => ""
    case NullParent => ""
    case ParentId(id) => id
    case Populated(id, _) => id
  }
}
