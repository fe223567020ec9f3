// Category lookups of the auction server (category.model.js): a category's
// name from its id and its id from its name, each taking the first match in
// the list loaded from the database.
module CategoryModel {
  import opened CInt

  /** A category as `formatCategoryFromDB` shapes it. */
  datatype Category = Category(categoryId: int, name: string)

  /** The index of the first category with the given id, if any. */
  function FindById(categoryId: int, categories: seq<Category>): (r: Option<nat>)
    ensures r.Some? ==> r.value < |categories| && categories[r.value].categoryId == categoryId &&
                        forall k :: 0 <= k < r.value ==> categories[k].categoryId != categoryId
    ensures r.None? <==> forall k :: 0 <= k < |categories| ==> categories[k].categoryId != categoryId
  {
    if |categories| == 0 then None
    else if categories[0].categoryId == categoryId then Some(0)
    else
      match FindById(categoryId, categories[1..])
      case None => None
      case Some(k) => Some(k + 1)
  }

  /** The index of the first category with the given name, if any. */
  function FindByName(categoryName: string, categories: seq<Category>): (r: Option<nat>)
    ensures r.Some? ==> r.value < |categories| && categories[r.value].name == categoryName &&
                        forall k :: 0 <= k < r.value ==> categories[k].name != categoryName
    ensures r.None? <==> forall k :: 0 <= k < |categories| ==> categories[k].name != categoryName
  {
    if |categories| == 0 then None
    else if categories[0].name == categoryName then Some(0)
    else
      match FindByName(categoryName, categories[1..])
      case None => None
      case Some(k) => Some(k + 1)
  }

  /** `getCategoryName`: the name of the first category with the id, or
      null (None) when there is none. */
  function GetCategoryName(categoryId: int, categories: seq<Category>): (r: Option<string>)
    ensures r.None? <==> forall k :: 0 <= k < |categories| ==> categories[k].categoryId != categoryId
    // the name is that of the first category with the id
    ensures r.Some? ==> exists k :: 0 <= k < |categories| &&
                          categories[k] == Category(categoryId, r.value) &&
                          forall j :: 0 <= j < k ==> categories[j].categoryId != categoryId
  {
    match FindById(categoryId, categories)
    case None => None
    case Some(k) => Some(categories[k].name)
  }

  /** `getCategoryId`: the id of the first category with the name, or -1
      when there is none. */
  function GetCategoryId(categoryName: string, categories: seq<Category>): (r: int)
    ensures (forall k :: 0 <= k < |categories| ==> categories[k].name != categoryName) ==> r == -1
    ensures r != -1 ==> exists k :: 0 <= k < |categories| && categories[k] == Category(r, categoryName)
    // a present name gives the id of the first category with that name
    ensures forall k :: 0 <= k < |categories| && categories[k].name == categoryName &&
                        (forall j :: 0 <= j < k ==> categories[j].name != categoryName) ==>
                        r == categories[k].categoryId
  {
    match FindByName(categoryName, categories)
    case None => -1
    case Some(k) => categories[k].categoryId
  }

  /** No two categories share an id, and no two share a name. */
  predicate Unique(categories: seq<Category>)
  {
    (forall i, j :: 0 <= i < j < |categories| ==> categories[i].categoryId != categories[j].categoryId) &&
    (forall i, j :: 0 <= i < j < |categories| ==> categories[i].name != categories[j].name)
  }

  /** With unique ids and names the two lookups invert each other. */
  lemma LookupsRoundTrip(categories: seq<Category>, categoryId: int, categoryName: string)
    requires Unique(categories)
    ensures GetCategoryName(categoryId, categories).Some? ==>
              GetCategoryId(GetCategoryName(categoryId, categories).value, categories) == categoryId
    ensures (exists k :: 0 <= k < |categories| && categories[k].name == categoryName) ==>
              GetCategoryName(GetCategoryId(categoryName, categories), categories) == Some(categoryName)
  {
    match FindById(categoryId, categories) {
      case None =>
      case Some(k) =>
        var j := FindByName(categories[k].name, categories).value;
        assert j == k;
    }
    match FindByName(categoryName, categories) {
      case None =>
      case Some(k) =>
        var j := FindById(categories[k].categoryId, categories).value;
        assert j == k;
    }
  }

  /** A category whose id is -1 cannot be told apart from a missing name. */
  lemma MissingIdAmbiguous(categoryName: string)
    ensures GetCategoryId(categoryName, [Category(-1, categoryName)]) ==
            GetCategoryId(categoryName, [])
  {
  }
}
