/**
 * The FAQ page: questions grouped under a fixed list of categories, a search box that
 * narrows them, and an accordion in which at most one category is open.
 */
module Faq {
  import opened Wrappers
  import opened Seqs
  import opened Text

  /** A `faqs` row. */
  datatype FaqItem = FaqItem(id: int, category: string, question: string, answer: string)

  datatype Category = Category(id: int, name: string, questions: seq<FaqItem>)

  const InitialCategories: seq<Category> :=
    [Category(1, "使い方", []), Category(2, "料金", []), Category(3, "トラブル対応", [])]

  function InCategory(name: string): FaqItem -> bool
  {
    (q: FaqItem) => q.category == name
  }

  /** The `categories.map(...)` of `fetchFAQs`: each category receives the rows filed under its name. */
  function GroupByCategory(categories: seq<Category>, data: seq<FaqItem>): (r: seq<Category>)
    ensures |r| == |categories|
  {
    seq(|categories|, i requires 0 <= i < |categories| =>
      categories[i].(questions := Filter(InCategory(categories[i].name), data)))
  }

  /**
   * Grouping keeps the category ids, names and order; each holds exactly its rows, every
   * copy of each, in row order.
   */
  lemma GroupByCategorySpec(categories: seq<Category>, data: seq<FaqItem>, i: nat, q: FaqItem)
    requires i < |categories|
    ensures var c := GroupByCategory(categories, data)[i];
      && c.id == categories[i].id && c.name == categories[i].name
      && IsSubseq(c.questions, data)
      && (q in c.questions <==> q in data && q.category == categories[i].name)
      && multiset(c.questions)[q] == if q.category == categories[i].name then multiset(data)[q] else 0
  {
    FilterIsSubseq(InCategory(categories[i].name), data);
    FilterMembership(InCategory(categories[i].name), data, q);
    FilterCount(InCategory(categories[i].name), data, q);
  }

  /** A row whose category matches no category name appears nowhere after grouping. */
  lemma GroupDropsUnknownCategories(categories: seq<Category>, data: seq<FaqItem>, q: FaqItem)
    requires forall c :: c in categories ==> c.name != q.category
    ensures forall c :: c in GroupByCategory(categories, data) ==> q !in c.questions
  {
    var r := GroupByCategory(categories, data);
    forall c | c in r ensures q !in c.questions {
      var i :| 0 <= i < |r| && r[i] == c;
      GroupByCategorySpec(categories, data, i, q);
      assert categories[i] in categories;
    }
  }

  /** The search test of `filteredCategories`. */
  predicate MatchesSearch(q: FaqItem, term: string)
  {
    Includes(Lower(q.question), Lower(term)) || Includes(Lower(q.answer), Lower(term))
  }

  function Matching(term: string): FaqItem -> bool
  {
    (q: FaqItem) => MatchesSearch(q, term)
  }

  /** A category with only its questions that match the term. */
  function Narrow(c: Category, term: string): (n: Category)
    ensures n.id == c.id && n.name == c.name && |n.questions| <= |c.questions|
    ensures forall i :: 0 <= i < |n.questions| ==> MatchesSearch(n.questions[i], term)
  {
    c.(questions := Filter(Matching(term), c.questions))
  }

  function HasQuestions(c: Category): bool
  {
    |c.questions| > 0
  }

  function NarrowAll(categories: seq<Category>, term: string): (r: seq<Category>)
    ensures |r| == |categories|
  {
    seq(|categories|, i requires 0 <= i < |categories| => Narrow(categories[i], term))
  }

  /** `filteredCategories`: narrow every category, then drop the empty ones. */
  function FilteredCategories(categories: seq<Category>, term: string): (r: seq<Category>)
    ensures |r| <= |categories|
    ensures forall i :: 0 <= i < |r| ==> |r[i].questions| > 0
  {
    Filter(HasQuestions, NarrowAll(categories, term))
  }

  /**
   * A question survives the search exactly when its lower-cased question or answer contains
   * the lower-cased term; a category is shown exactly when it keeps a question; the
   * categories shown keep their order.
   */
  lemma FilteredCategoriesSpec(categories: seq<Category>, term: string, i: nat, q: FaqItem)
    requires i < |categories|
    ensures var n := Narrow(categories[i], term);
      && n.id == categories[i].id && n.name == categories[i].name
      && (q in n.questions <==> q in categories[i].questions && MatchesSearch(q, term))
      && (n in FilteredCategories(categories, term) <==> exists k :: k in categories[i].questions && MatchesSearch(k, term))
    ensures IsSubseq(FilteredCategories(categories, term), NarrowAll(categories, term))
    ensures forall c :: c in FilteredCategories(categories, term) ==> |c.questions| > 0
  {
    var n := Narrow(categories[i], term);
    var all := NarrowAll(categories, term);
    FilterMembership(Matching(term), categories[i].questions, q);
    FilterMembership(HasQuestions, all, n);
    FilterIsSubseq(HasQuestions, all);
    assert all[i] == n;
    if |n.questions| > 0 {
      FilterMembership(Matching(term), categories[i].questions, n.questions[0]);
    }
    if k :| k in categories[i].questions && MatchesSearch(k, term) {
      FilterMembership(Matching(term), categories[i].questions, k);
    }
  }

  /** An empty search keeps every question, so only categories that were already empty disappear. */
  lemma EmptySearchKeepsAll(categories: seq<Category>)
    ensures FilteredCategories(categories, "") == Filter(HasQuestions, categories)
  {
    forall i | 0 <= i < |categories| ensures Narrow(categories[i], "") == categories[i] {
      forall q | q in categories[i].questions ensures MatchesSearch(q, "") {
        IncludesEmpty(Lower(q.question));
      }
      FilterKeepsAll(Matching(""), categories[i].questions);
    }
    assert NarrowAll(categories, "") == categories;
  }

  /** `toggleCategory`: choosing the open category closes it, choosing any other opens that one. */
  function Toggled(expanded: Option<int>, categoryId: int): (r: Option<int>)
    ensures r == Some(categoryId) <==> expanded != Some(categoryId)
    ensures r == None <==> expanded == Some(categoryId)
  {
    if expanded == Some(categoryId) then None else Some(categoryId)
  }

  /** Toggling the same category twice restores the state when nothing or that category was open. */
  lemma ToggleTwice(expanded: Option<int>, categoryId: int)
    requires expanded == None || expanded == Some(categoryId)
    ensures Toggled(Toggled(expanded, categoryId), categoryId) == expanded
  {
  }

  /** With another category open, toggling twice leaves everything closed instead. */
  lemma ToggleTwiceFromOther(other: int, categoryId: int)
    requires other != categoryId
    ensures Toggled(Toggled(Some(other), categoryId), categoryId) == None
  {
  }

  /** The page's state, as its `useState` hooks hold it. */
  class FaqPage {
    var categories: seq<Category>
    var searchTerm: string
    var expandedCategory: Option<int>

    constructor ()
      ensures categories == InitialCategories && searchTerm == "" && expandedCategory == None
    {
      categories := InitialCategories;
      searchTerm := "";
      expandedCategory := None;
    }

    /** The successful branch of `fetchFAQs`. */
    method LoadFaqs(data: seq<FaqItem>)
      modifies this`categories
      ensures categories == GroupByCategory(old(categories), data)
    {
      categories := GroupByCategory(categories, data);
    }

    /** `handleSearch`. */
    method HandleSearch(value: string)
      modifies this`searchTerm
      ensures searchTerm == value
    {
      searchTerm := value;
    }

    /** `toggleCategory`. */
    method ToggleCategory(categoryId: int)
      modifies this`expandedCategory
      ensures expandedCategory == Toggled(old(expandedCategory), categoryId)
    {
      expandedCategory := Toggled(expandedCategory, categoryId);
    }
  }
}
