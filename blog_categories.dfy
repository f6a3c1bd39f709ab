/** The blog's four categories and their lookups by id and by URL slug. Two
    of them have a German slug that differs from their id. */
module BlogCategories {
  import opened Wrappers
  import opened Seqs

  /** A `BlogCategory` record; `labelSingular` is the source's `label`
      field, a name Dafny reserves. */
  datatype BlogCategory = BlogCategory(
    id: string, labelSingular: string, labelPlural: string, slug: string, description: string, color: string)

  /** The keys of `blogCategories`, in declaration order. */
  datatype CategoryKey = Ecommerce | Marketing | Strategy | Technology

  function KeyName(k: CategoryKey): string {
    match k
    case Ecommerce => "ecommerce"
    case Marketing => "marketing"
    case Strategy => "strategy"
    case Technology => "technology"
  }

  /** `blogCategories`: the entry under each key. Every entry's plural
      label is its label. */
  function Category(k: CategoryKey): BlogCategory {
    BlogCategory(CategoryId(k), Label(k), Label(k), SlugOf(k), Description(k), Color(k))
  }

  function CategoryId(k: CategoryKey): string {
    match k
    case Ecommerce => "ecommerce"
    case Marketing => "marketing"
    case Strategy => "strategy"
    case Technology => "technology"
  }

  function Label(k: CategoryKey): string {
    match k
    case Ecommerce => "E-Commerce"
    case Marketing => "Marketing"
    case Strategy => "Strategie"
    case Technology => "Technologie"
  }

  /** The URL slug: German for strategy and technology. */
  function SlugOf(k: CategoryKey): string {
    match k
    case Ecommerce => "ecommerce"
    case Marketing => "marketing"
    case Strategy => "strategie"
    case Technology => "technologie"
  }

  function Color(k: CategoryKey): string {
    match k
    case Ecommerce => "violet"
    case Marketing => "emerald"
    case Strategy => "blue"
    case Technology => "orange"
  }

  function Description(k: CategoryKey): string {
    match k
    case Ecommerce => "Alles rund um Online-Shops, Shopify, WooCommerce und E-Commerce Best Practices."
    case Marketing => "Online-Marketing, SEO, SEA, Social Media und Performance Marketing Strategien."
    case Strategy => "Geschäftsstrategie, digitale Transformation und Wachstumsstrategien."
    case Technology => "Web-Technologien, APIs, Automatisierung und technische Lösungen."
  }

  /** Each entry's id is the key it is stored under. */
  lemma IdIsKey(k: CategoryKey)
    ensures CategoryId(k) == KeyName(k)
  {
    match k
    case Ecommerce =>
    case Marketing =>
    case Strategy =>
    case Technology =>
  }

  /** The key a string names, if any. */
  function ParseKey(s: string): (r: Option<CategoryKey>)
    ensures r.Some? ==> KeyName(r.value) == s
    ensures r.None? ==> forall k :: KeyName(k) != s
  {
    if s == "ecommerce" then Some(Ecommerce)
    else if s == "marketing" then Some(Marketing)
    else if s == "strategy" then Some(Strategy)
    else if s == "technology" then Some(Technology)
    else None
  }

  /** `getCategory`: the entry stored under that id, or nothing. */
  function GetCategory(categoryId: string): (r: Option<BlogCategory>)
    ensures r.None? <==> forall k :: KeyName(k) != categoryId
    ensures forall k :: KeyName(k) == categoryId ==> r == Some(Category(k))
    ensures r.Some? ==> r.value.id == categoryId
  {
    match ParseKey(categoryId)
    case None => None
    case Some(k) =>
      KeyNameInjective(k, categoryId);
      IdIsKey(k);
      Some(Category(k))
  }

  /** Only one key has a given name. */
  lemma KeyNameInjective(k: CategoryKey, s: string)
    requires KeyName(k) == s
    ensures forall j :: KeyName(j) == s ==> j == k
  {
    forall j | KeyName(j) == s ensures j == k {
      ParseKeyOf(j);
      ParseKeyOf(k);
    }
  }

  lemma ParseKeyOf(k: CategoryKey)
    ensures ParseKey(KeyName(k)) == Some(k)
  {
  }

  /** The keys in declaration order. */
  function AllKeys(): (r: seq<CategoryKey>)
    ensures |r| == 4 && forall k :: r[KeyIndex(k)] == k
  {
    [Ecommerce, Marketing, Strategy, Technology]
  }

  function KeyIndex(k: CategoryKey): nat {
    match k
    case Ecommerce => 0
    case Marketing => 1
    case Strategy => 2
    case Technology => 3
  }

  /** `getAllCategories`: the entries in declaration order, each key's entry
      once. */
  function GetAllCategories(): (r: seq<BlogCategory>)
    ensures |r| == 4
    ensures forall k :: r[KeyIndex(k)] == Category(k)
  {
    seq(4, i requires 0 <= i < 4 => Category(AllKeys()[i]))
  }

  /** `getCategoryBySlug`: the first entry, in declaration order, whose URL
      slug is `slug` (the search runs over the keys and takes the entry of
      the key it finds). */
  function GetCategoryBySlug(slug: string): (r: Option<BlogCategory>)
    ensures r.None? <==> forall k :: SlugOf(k) != slug
    ensures forall k :: SlugOf(k) == slug ==> r == Some(Category(k))
  {
    var keys := AllKeys();
    match Find(keys, (k: CategoryKey) => SlugOf(k) == slug)
    case None =>
      assert forall k :: keys[KeyIndex(k)] == k;
      None
    case Some(j) =>
      forall k | SlugOf(k) == slug ensures k == j {
        SlugInjective(j, k);
      }
      Some(Category(j))
  }

  /** No two categories share a URL slug. */
  lemma SlugInjective(j: CategoryKey, k: CategoryKey)
    requires SlugOf(j) == SlugOf(k)
    ensures j == k
  {
    match j
    case Ecommerce => assert SlugOf(k)[0] == 'e';
    case Marketing => assert SlugOf(k)[0] == 'm';
    case Strategy => assert SlugOf(k)[0] == 's';
    case Technology => assert SlugOf(k)[0] == 't';
  }

  /** The slug lookup matches slugs, not ids: the strategy category's id
      "strategy" finds nothing (its slug is "strategie"). */
  lemma SlugIsNotId()
    ensures GetCategoryBySlug(CategoryId(Strategy)).None?
  {
    forall k ensures SlugOf(k) != CategoryId(Strategy) {
      NotStrategyId(k);
    }
  }

  lemma NotStrategyId(k: CategoryKey)
    ensures SlugOf(k) != CategoryId(Strategy)
  {
    match k
    case Ecommerce => assert SlugOf(k)[0] == 'e';
    case Marketing => assert SlugOf(k)[0] == 'm';
    case Strategy => assert SlugOf(k)[7] == 'i';
    case Technology => assert SlugOf(k)[1] == 'e';
  }

  /** `isValidCategory`: the id is a key of the table. */
  predicate IsValidCategory(categoryId: string) {
    ParseKey(categoryId).Some?
  }

  /** The valid ids are exactly the four keys, the ids the lookup by id
      finds. */
  lemma ValidIffFound(categoryId: string)
    ensures IsValidCategory(categoryId) <==> GetCategory(categoryId).Some?
    ensures IsValidCategory(categoryId) <==> exists k :: KeyName(k) == categoryId
  {
    if IsValidCategory(categoryId) {
      assert KeyName(ParseKey(categoryId).value) == categoryId;
    }
  }
}
