/** The public service-category routes: the query object of the category
    list, the slug-to-business-type map behind each category's business
    count, and the lookup of one category by ObjectId or slug with its
    availability check. The ServiceCategory and Business models are not part
    of this model: their documents appear with the fields the routes read. */
module ServiceCategories {
  import opened Common

  // ---------------------------------------------------------------------------
  // GET /  — the query object

  /** The query of the category list: only active, approved categories; a
      search over name, description and tags; `isFeatured` only for the
      exact string 'true'; `parentCategory` null for the string 'null' and
      the given id otherwise. */
  method CategoryQuery(search: Option<string>, featured: Option<string>, parent: Option<string>)
      returns (query: map<string, Cond>)
    ensures query.Keys <= {"isActive", "approvalStatus", "$or", "isFeatured", "parentCategory"}
    ensures "isActive" in query && query["isActive"] == Eq(Bool(true))
    ensures "approvalStatus" in query && query["approvalStatus"] == Eq(Str("approved"))
    ensures "$or" in query <==> Present(search)
    ensures "$or" in query ==> query["$or"] == AnyMatches(["name", "description", "tags"], search.value)
    ensures "isFeatured" in query <==> featured == Some("true")
    ensures "isFeatured" in query ==> query["isFeatured"] == Eq(Bool(true))
    ensures "parentCategory" in query <==> Present(parent)
    ensures "parentCategory" in query ==> query["parentCategory"] == (if parent.value == "null" then Eq(Null) else Eq(Str(parent.value)))
  {
    query := map["isActive" := Eq(Bool(true)), "approvalStatus" := Eq(Str("approved"))];
    if Present(search) {
      query := query["$or" := AnyMatches(["name", "description", "tags"], search.value)];
    }
    if featured == Some("true") {
      query := query["isFeatured" := Eq(Bool(true))];
    }
    if Present(parent) {
      if parent.value == "null" {
        query := query["parentCategory" := Eq(Null)];
      } else {
        query := query["parentCategory" := Eq(Str(parent.value))];
      }
    }
  }

  /** No request parameter can widen the list to inactive or unapproved
      categories: whatever the parameters, both conditions are in the query
      unchanged, and a missing or empty parameter adds nothing. */
  lemma CategoryQueryBase(query: map<string, Cond>, search: Option<string>, featured: Option<string>, parent: Option<string>)
    requires query.Keys <= {"isActive", "approvalStatus", "$or", "isFeatured", "parentCategory"}
    requires "isActive" in query && query["isActive"] == Eq(Bool(true))
    requires "approvalStatus" in query && query["approvalStatus"] == Eq(Str("approved"))
    requires "$or" in query <==> Present(search)
    requires "isFeatured" in query <==> featured == Some("true")
    requires "parentCategory" in query <==> Present(parent)
    ensures !Present(search) && featured != Some("true") && !Present(parent) ==> query.Keys == {"isActive", "approvalStatus"}
    ensures featured == Some("True") || featured == Some("1") ==> "isFeatured" !in query
  {
  }

  /** The echo of the request in the list's answer: `search || null`,
      `featured === 'true'`, `parent || null`. */
  function EchoedFilters(search: Option<string>, featured: Option<string>, parent: Option<string>): (r: (Value, bool, Value))
    ensures r.0 == (if Present(search) then Str(search.value) else Null)
    ensures r.1 <==> featured == Some("true")
    ensures r.2 == (if Present(parent) then Str(parent.value) else Null)
  {
    (if Present(search) then Str(search.value) else Null, featured == Some("true"),
     if Present(parent) then Str(parent.value) else Null)
  }

  // ---------------------------------------------------------------------------
  // Business counts

  /** The slugs with their own entry in `businessTypeMap`. */
  const SlugTypes: map<string, string> := map[
    "plumbing-services" := "plumbing",
    "electrical-services" := "electrical",
    "cleaning-services" := "cleaning",
    "painting-services" := "painting",
    "gardening-landscaping" := "gardening",
    "repair-maintenance" := "repair",
    "transport-services" := "transport",
    "security-services" := "security",
    "education-training" := "education",
    "food-catering" := "food",
    "beauty-personal-care" := "beauty",
    "health-medical" := "health",
    "construction-services" := "construction",
    "maintenance-services" := "maintenance",
    "automotive-services" := "automotive",
    "pet-services" := "other",
    "pest-control" := "other",
    "it-technology" := "other",
    "business-services" := "other",
    "other-services" := "other"]

  /** `businessTypeMap[slug] || 'other'`. */
  function BusinessTypeOf(slug: string): (t: string)
    ensures slug in SlugTypes ==> t == SlugTypes[slug]
    ensures slug !in SlugTypes ==> t == "other"
  {
    if slug in SlugTypes && SlugTypes[slug] != "" then SlugTypes[slug] else "other"
  }

  /** Every type the map can produce is one of the sixteen business types. */
  lemma BusinessTypesAreKnown(slug: string)
    ensures BusinessTypeOf(slug) in {"plumbing", "electrical", "cleaning", "painting", "gardening", "repair", "transport",
                                     "security", "education", "food", "beauty", "health", "construction",
                                     "maintenance", "automotive", "other"}
  {
  }

  /** A business, as the count looks at it. */
  datatype BusinessEntry = BusinessEntry(businessType: string, categorySlug: string, status: string)

  /** The `$or` of the count: an active business of the mapped type, or an
      active business filed under the category's slug. */
  predicate CountedFor(b: BusinessEntry, slug: string) {
    (b.businessType == BusinessTypeOf(slug) && b.status == "active")
    || (b.categorySlug == slug && b.status == "active")
  }

  /** `Business.countDocuments(...)` for one category. */
  function BusinessCount(businesses: seq<BusinessEntry>, slug: string): (n: nat)
    ensures n <= |businesses|
  {
    if businesses == [] then 0
    else (if CountedFor(businesses[0], slug) then 1 else 0) + BusinessCount(businesses[1..], slug)
  }

  /** The number of active businesses. */
  function ActiveCount(businesses: seq<BusinessEntry>): nat {
    if businesses == [] then 0
    else (if businesses[0].status == "active" then 1 else 0) + ActiveCount(businesses[1..])
  }

  /** The count is at most the number of active businesses: an inactive
      business is never counted, and one that matches both by type and by
      slug is counted once; it is additive over the collection. */
  lemma {:induction false} CountOnlyActive(businesses: seq<BusinessEntry>, more: seq<BusinessEntry>, slug: string)
    ensures BusinessCount(businesses, slug) <= ActiveCount(businesses)
    ensures BusinessCount(businesses + more, slug) == BusinessCount(businesses, slug) + BusinessCount(more, slug)
  {
    if businesses != [] {
      CountOnlyActive(businesses[1..], more, slug);
      assert (businesses + more)[1..] == businesses[1..] + more;
    } else {
      assert businesses + more == more;
    }
  }

  /** One business of the mapped type filed under the slug adds one, not two. */
  lemma CountedOnce(b: BusinessEntry, slug: string)
    requires b.businessType == BusinessTypeOf(slug) && b.categorySlug == slug && b.status == "active"
    ensures BusinessCount([b], slug) == 1
  {
  }

  // ---------------------------------------------------------------------------
  // GET /:id

  predicate IsHexDigit(c: char) {
    '0' <= c <= '9' || 'a' <= c <= 'f' || 'A' <= c <= 'F'
  }

  /** `/^[0-9a-fA-F]{24}$/`: exactly 24 hexadecimal digits. */
  predicate LooksLikeObjectId(id: string) {
    |id| == 24 && forall i :: 0 <= i < |id| ==> IsHexDigit(id[i])
  }

  /** A category document, with the fields the routes read; `id` is the
      lower-case hexadecimal form of its ObjectId. */
  datatype Category = Category(id: string, slug: string, isActive: bool, approvalStatus: string)

  /** The first category satisfying `matches`. */
  function FindCategory(categories: seq<Category>, byId: bool, key: string): (r: Option<nat>)
    ensures r.Some? ==> r.value < |categories| && (if byId then categories[r.value].id else categories[r.value].slug) == key
    ensures r.None? ==> forall j :: 0 <= j < |categories| ==> (if byId then categories[j].id else categories[j].slug) != key
  {
    if categories == [] then None
    else if (if byId then categories[0].id else categories[0].slug) == key then Some(0)
    else match FindCategory(categories[1..], byId, key)
      case None => None
      case Some(k) => Some(k + 1)
  }

  /** The lookup of `/:id`: 24 hex digits go to `findById`, which reads the
      digits in either case; anything else is a slug. */
  function Lookup(categories: seq<Category>, id: string): (r: Option<nat>)
    ensures r.Some? ==> r.value < |categories|
    ensures LooksLikeObjectId(id) ==>
              (r.Some? ==> categories[r.value].id == ToLower(id))
              && (r.None? ==> forall j :: 0 <= j < |categories| ==> categories[j].id != ToLower(id))
    ensures !LooksLikeObjectId(id) ==>
              (r.Some? ==> categories[r.value].slug == id)
              && (r.None? ==> forall j :: 0 <= j < |categories| ==> categories[j].slug != id)
  {
    if LooksLikeObjectId(id) then FindCategory(categories, true, ToLower(id))
    else FindCategory(categories, false, id)
  }

  datatype CategoryReply = Found(category: Category) | NotFound(message: string, error: string)

  /** GET /:id: not found, then not available (inactive or not approved), both 404. */
  function GetCategory(categories: seq<Category>, id: string): (r: CategoryReply)
    ensures r.Found? ==> r.category.isActive && r.category.approvalStatus == "approved" && r.category in categories
  {
    match Lookup(categories, id)
    case None => NotFound("Service category not found", "The requested category does not exist")
    case Some(k) =>
      if !categories[k].isActive || categories[k].approvalStatus != "approved" then
        NotFound("Category not available", "This category is not currently available")
      else Found(categories[k])
  }

  /** A category is served exactly when the lookup finds it and it is active
      and approved; a slug that happens to be 24 hex digits is looked up as an
      id and never as a slug. */
  lemma GetCategoryLadder(categories: seq<Category>, id: string)
    ensures GetCategory(categories, id).Found? <==>
              Lookup(categories, id).Some? && categories[Lookup(categories, id).value].isActive
              && categories[Lookup(categories, id).value].approvalStatus == "approved"
    ensures LooksLikeObjectId(id) && (forall j :: 0 <= j < |categories| ==> categories[j].id != ToLower(id)) ==>
              GetCategory(categories, id) == NotFound("Service category not found", "The requested category does not exist")
    ensures !LooksLikeObjectId(id) && GetCategory(categories, id).Found? ==> GetCategory(categories, id).category.slug == id
  {
  }

  /** A 23-digit id is a slug; the same digits with one more are an id. */
  lemma ObjectIdNeedsExactly24()
    ensures !LooksLikeObjectId("65a1b2c3d4e5f60718293a4")
    ensures LooksLikeObjectId("65a1b2c3d4e5f60718293a4b")
    ensures !LooksLikeObjectId("65a1b2c3d4e5f60718293a4g")
  {
    assert !IsHexDigit("65a1b2c3d4e5f60718293a4g"[23]);
  }
}
