/** The Community page's question list: a case-insensitive search, a filter
    on the selected tags, a sort by one counter or by catalogue order, and the
    page state that the search box, the tag buttons and the sort selector
    change. */
module Community {
  import opened Seqs
  import opened Text

  datatype Question = Question(
    id: string,
    title: string,
    content: string,
    tags: seq<string>,
    answers: int,
    votes: int,
    views: int)

  /** The shipped questions, newest first (authors and dates are not modelled). */
  const MockQuestions: seq<Question> := [
    Question("1",
      "What skills do I need to become a data scientist in 2025?",
      "I'm a computer science student looking to become a data scientist after graduation. What skills and technologies should I focus on learning to be competitive in the market by 2025?",
      ["Data Science", "Career Planning", "Skills"], 5, 12, 234),
    Question("2",
      "How to negotiate salary for a new grad position?",
      "I just received my first job offer as a software engineer. The salary is a bit lower than I expected based on my research. What's the best approach to negotiate without risking the offer?",
      ["Salary Negotiation", "New Grad", "Software Engineering"], 8, 24, 542),
    Question("3",
      "Career switch from marketing to UX design at 30 - is it too late?",
      "I've been working in marketing for 7 years but I'm really interested in UX design. Is 30 too late to switch careers? What's the best approach for someone with my background?",
      ["Career Change", "UX Design", "Marketing"], 12, 35, 678),
    Question("4",
      "What certifications are valuable for cloud engineering?",
      "I want to specialize in cloud engineering. Which certifications are most valuable for job prospects between AWS, Azure, and Google Cloud?",
      ["Cloud Computing", "Certifications", "AWS", "Azure"], 6, 18, 412),
    Question("5",
      "How important is GitHub portfolio for frontend development jobs?",
      "I'm applying for frontend developer positions. How much emphasis do employers put on GitHub portfolios versus traditional resumes? What should I include in my portfolio?",
      ["Frontend Development", "Portfolio", "Job Search"], 3, 9, 187)]

  /** The four choices of the sort selector. */
  datatype SortKey = Recent | Votes | Answers | Views

  // ---------------------------------------------------------------------------
  // Filtering

  /** An empty query admits everything; otherwise the lower-cased query must
      occur in the lower-cased title or the lower-cased content. */
  predicate MatchesSearch(q: Question, searchQuery: string) {
    searchQuery == "" ||
    Includes(ToLower(q.title), ToLower(searchQuery)) ||
    Includes(ToLower(q.content), ToLower(searchQuery))
  }

  predicate HasSelectedTag(q: Question, selectedTags: seq<string>) {
    exists i :: 0 <= i < |q.tags| && q.tags[i] in selectedTags
  }

  predicate Passes(q: Question, searchQuery: string, selectedTags: seq<string>) {
    MatchesSearch(q, searchQuery) && (|selectedTags| == 0 || HasSelectedTag(q, selectedTags))
  }

  function PassesFilter(searchQuery: string, selectedTags: seq<string>): Question -> bool {
    q => Passes(q, searchQuery, selectedTags)
  }

  /** `filteredQuestions`: the questions that pass both filters, in their order. */
  function FilterQuestions(questions: seq<Question>, searchQuery: string, selectedTags: seq<string>): (r: seq<Question>)
    ensures IsSubsequence(r, questions)
    ensures forall i :: 0 <= i < |r| ==> r[i] in questions && MatchesSearch(r[i], searchQuery)
    ensures |selectedTags| > 0 ==> forall i :: 0 <= i < |r| ==> HasSelectedTag(r[i], selectedTags)
    ensures forall i :: 0 <= i < |questions| && Passes(questions[i], searchQuery, selectedTags) ==> questions[i] in r
  {
    FilterIsSubsequence(PassesFilter(searchQuery, selectedTags), questions);
    Filter(PassesFilter(searchQuery, selectedTags), questions)
  }

  /** With an empty query and no selected tag every question is shown. */
  lemma NoFilterShowsAll(questions: seq<Question>)
    ensures FilterQuestions(questions, "", []) == questions
  {
    FilterAll(PassesFilter("", []), questions);
  }

  /** For a non-empty query the search is a substring test on the lower-cased texts. */
  lemma MatchesSearchIsSubstring(q: Question, searchQuery: string)
    requires searchQuery != ""
    ensures MatchesSearch(q, searchQuery) <==>
      (exists i :: OccursAt(ToLower(q.title), ToLower(searchQuery), i)) ||
      (exists i :: OccursAt(ToLower(q.content), ToLower(searchQuery), i))
  {
  }

  /** The case of the query does not matter. */
  lemma SearchIgnoresQueryCase(q: Question, searchQuery: string)
    ensures MatchesSearch(q, ToLower(searchQuery)) <==> MatchesSearch(q, searchQuery)
  {
    ToLowerIdempotent(searchQuery);
    assert |ToLower(searchQuery)| == |searchQuery|;
  }

  // ---------------------------------------------------------------------------
  // Sorting

  /** The counter a non-default sort key orders by. */
  function Counter(key: SortKey, q: Question): int {
    match key
    case Votes => q.votes
    case Answers => q.answers
    case Views => q.views
    case Recent => 0
  }

  /** The comparator of `sortedQuestions`: a descending counter, or else the
      position in the catalogue. */
  function CompareQuestions(catalogue: seq<Question>, sortBy: SortKey, a: Question, b: Question): int {
    if sortBy == Votes then b.votes - a.votes
    else if sortBy == Answers then b.answers - a.answers
    else if sortBy == Views then b.views - a.views
    else IndexOf(catalogue, a) - IndexOf(catalogue, b)
  }

  function Comparator(catalogue: seq<Question>, sortBy: SortKey): (Question, Question) -> int {
    (a, b) => CompareQuestions(catalogue, sortBy, a, b)
  }

  /** `sortedQuestions`: a sorted copy of the filtered list. */
  function SortQuestions(catalogue: seq<Question>, sortBy: SortKey, filtered: seq<Question>): (r: seq<Question>)
    ensures multiset(r) == multiset(filtered) && |r| == |filtered|
  {
    SortBy(Comparator(catalogue, sortBy), filtered)
  }

  /** Under votes, answers or views the list is non-increasing in that counter. */
  lemma SortedByCounter(catalogue: seq<Question>, sortBy: SortKey, filtered: seq<Question>)
    requires sortBy != Recent
    ensures forall i, j :: 0 <= i < j < |SortQuestions(catalogue, sortBy, filtered)| ==>
      Counter(sortBy, SortQuestions(catalogue, sortBy, filtered)[i]) >= Counter(sortBy, SortQuestions(catalogue, sortBy, filtered)[j])
  {
    var key := (q: Question) => Counter(sortBy, q);
    SortByDescending(key, Comparator(catalogue, sortBy), filtered);
  }

  /** Under the default key the filtered list keeps the catalogue's order,
      given that the catalogue holds no question twice. */
  lemma RecentKeepsCatalogueOrder(catalogue: seq<Question>, searchQuery: string, selectedTags: seq<string>)
    requires Distinct(catalogue)
    ensures SortQuestions(catalogue, Recent, FilterQuestions(catalogue, searchQuery, selectedTags))
      == FilterQuestions(catalogue, searchQuery, selectedTags)
  {
    var filtered := FilterQuestions(catalogue, searchQuery, selectedTags);
    FilterKeepsIndexOrder(PassesFilter(searchQuery, selectedTags), catalogue);
    var key := (q: Question) => IndexOf(catalogue, q);
    assert NonDecreasing(key, filtered);
    SortByKeepsAscending(key, Comparator(catalogue, Recent), filtered);
  }

  lemma MockQuestionsDistinct()
    ensures Distinct(MockQuestions)
  {
  }

  // ---------------------------------------------------------------------------
  // Tag selection

  function NotEqualTo(tag: string): string -> bool {
    t => t != tag
  }

  /** `toggleTag`: a selected tag is removed everywhere, any other tag is appended. */
  function Toggled(selectedTags: seq<string>, tag: string): (r: seq<string>)
    ensures tag in selectedTags ==> tag !in r && IsSubsequence(r, selectedTags)
    ensures tag in selectedTags ==> forall t :: t != tag ==> multiset(r)[t] == multiset(selectedTags)[t]
    ensures tag !in selectedTags ==> r == selectedTags + [tag]
  {
    if tag in selectedTags then
      FilterIsSubsequence(NotEqualTo(tag), selectedTags);
      FilterMultiset(NotEqualTo(tag), selectedTags);
      Filter(NotEqualTo(tag), selectedTags)
    else selectedTags + [tag]
  }

  /** Toggling the same tag twice restores which tags are selected. */
  lemma ToggleTwiceRestoresMembership(selectedTags: seq<string>, tag: string)
    ensures forall t :: t in Toggled(Toggled(selectedTags, tag), tag) <==> t in selectedTags
  {
    var once := Toggled(selectedTags, tag);
    forall t ensures t in Toggled(once, tag) <==> t in selectedTags {
      assert t in once <==> multiset(once)[t] > 0;
      assert t in selectedTags <==> multiset(selectedTags)[t] > 0;
    }
  }

  // ---------------------------------------------------------------------------
  // Page state

  class CommunityPage {
    /** The question catalogue the page lists. */
    const questions: seq<Question>
    var searchQuery: string
    var selectedTags: seq<string>
    var sortBy: SortKey

    constructor()
      ensures questions == MockQuestions
      ensures searchQuery == "" && selectedTags == [] && sortBy == Recent
    {
      questions := MockQuestions;
      searchQuery := "";
      selectedTags := [];
      sortBy := Recent;
    }

    function FilteredQuestions(): seq<Question>
      reads this
    {
      FilterQuestions(questions, searchQuery, selectedTags)
    }

    function SortedQuestions(): seq<Question>
      reads this
    {
      SortQuestions(questions, sortBy, FilteredQuestions())
    }

    /** The search box. */
    method SetSearchQuery(query: string)
      modifies this
      ensures searchQuery == query
      ensures selectedTags == old(selectedTags) && sortBy == old(sortBy)
    {
      searchQuery := query;
    }

    /** The sort selector. */
    method SetSortBy(key: SortKey)
      modifies this
      ensures sortBy == key
      ensures searchQuery == old(searchQuery) && selectedTags == old(selectedTags)
    {
      sortBy := key;
    }

    /** A tag button. */
    method ToggleTag(tag: string)
      modifies this
      ensures selectedTags == Toggled(old(selectedTags), tag)
      ensures searchQuery == old(searchQuery) && sortBy == old(sortBy)
    {
      if tag in selectedTags {
        selectedTags := Filter(NotEqualTo(tag), selectedTags);
      } else {
        selectedTags := selectedTags + [tag];
      }
    }

    /** The "Clear" link of the tag list. */
    method ClearTags()
      modifies this
      ensures selectedTags == []
      ensures searchQuery == old(searchQuery) && sortBy == old(sortBy)
    {
      selectedTags := [];
    }

    /** "Reset filters" on the empty result: afterwards every question is shown. */
    method ResetFilters()
      modifies this
      ensures searchQuery == "" && selectedTags == [] && sortBy == old(sortBy)
      ensures FilteredQuestions() == questions
    {
      searchQuery := "";
      selectedTags := [];
      NoFilterShowsAll(questions);
    }
  }

  /** In the default order the page lists the questions that pass, in catalogue order. */
  lemma DefaultOrderIsCatalogueOrder(searchQuery: string, selectedTags: seq<string>)
    ensures SortQuestions(MockQuestions, Recent, FilterQuestions(MockQuestions, searchQuery, selectedTags))
      == FilterQuestions(MockQuestions, searchQuery, selectedTags)
  {
    MockQuestionsDistinct();
    RecentKeepsCatalogueOrder(MockQuestions, searchQuery, selectedTags);
  }
}
