/** The template gallery (client/src/pages/TemplatesPage.tsx): the filter
    over the built-in templates and the favourites toggle. */
module Templates {
  import opened Common

  /** The fields of a template the page filters on. `complexity` is one of
      "Basic", "Intermediate" and "Advanced". */
  datatype Template = Template(id: string, title: string, description: string, category: string, complexity: string)

  /** The three templates the page ships with. */
  const TEMPLATES: seq<Template> := [
    Template("1", "Research Grant Template",
             "Comprehensive template for academic and scientific research proposals.", "Research", "Advanced"),
    Template("2", "Community Development Grant",
             "Template for local community improvement and development projects.", "Community", "Intermediate"),
    Template("3", "Education Initiative Template",
             "Designed for educational programs and school improvement projects.", "Education", "Basic")
  ]

  /** The options listed in the two selects after their own "all" option. */
  const CATEGORIES: seq<string> := ["All", "Research", "Community", "Education", "Healthcare", "Arts"]
  const COMPLEXITY_LEVELS: seq<string> := ["All", "Basic", "Intermediate", "Advanced"]

  /** The search test: the lower-cased query occurs in the lower-cased
      title or description. */
  predicate MatchesSearch(t: Template, query: string)
  {
    Includes(ToLower(t.title), ToLower(query)) || Includes(ToLower(t.description), ToLower(query))
  }

  /** A select's test as written: only the exact value "all" switches it
      off. */
  predicate SelectMatches(selected: string, value: string)
  {
    selected == "all" || value == selected
  }

  /** The `filteredTemplates` predicate. */
  predicate Matches(t: Template, query: string, category: string, complexity: string)
  {
    MatchesSearch(t, query) && SelectMatches(category, t.category) && SelectMatches(complexity, t.complexity)
  }

  /** `filteredTemplates`: the templates passing search, category and
      complexity, in their order. */
  function FilterTemplates(ts: seq<Template>, query: string, category: string, complexity: string): (r: seq<Template>)
    ensures forall t :: t in r <==> t in ts && Matches(t, query, category, complexity)
    ensures IsSubsequence(r, ts)
  {
    FilterIsSubsequence((t: Template) => Matches(t, query, category, complexity), ts);
    Filter((t: Template) => Matches(t, query, category, complexity), ts)
  }

  /** Lower-casing twice is lower-casing once. */
  lemma ToLowerIdempotent(s: string)
    ensures ToLower(ToLower(s)) == ToLower(s)
  {
    var once := ToLower(s);
    assert forall i :: 0 <= i < |once| ==> !('A' <= once[i] <= 'Z');
  }

  /** The search ignores the case of the query's letters: a query and its
      lower-cased form select the same templates. */
  lemma SearchIgnoresQueryCase(ts: seq<Template>, query: string, category: string, complexity: string)
    ensures FilterTemplates(ts, query, category, complexity) == FilterTemplates(ts, ToLower(query), category, complexity)
  {
    ToLowerIdempotent(query);
    FilterSameTest((t: Template) => Matches(t, query, category, complexity),
                   (t: Template) => Matches(t, ToLower(query), category, complexity), ts);
  }

  /** The search is a substring test: a template matches exactly when the
      lower-cased query occurs at some offset of its lower-cased title or
      description. */
  lemma SearchIsSubstring(t: Template, query: string)
    ensures MatchesSearch(t, query) <==>
              (exists k :: OccursAt(ToLower(t.title), ToLower(query), k))
              || (exists k :: OccursAt(ToLower(t.description), ToLower(query), k))
  {
    IncludesAt(ToLower(t.title), ToLower(query));
    IncludesAt(ToLower(t.description), ToLower(query));
  }

  /** With an empty query and both selects on "all" every template is
      listed, in order. */
  lemma EmptyFilterKeepsAll(ts: seq<Template>)
    ensures FilterTemplates(ts, "", "all", "all") == ts
  {
    forall t: Template
      ensures Matches(t, "", "all", "all")
    {
      assert StartsWith(ToLower(t.title), ToLower(""));
    }
    FilterAll((t: Template) => Matches(t, "", "all", "all"), ts);
  }

  /** A select set to a value no template has lists nothing. */
  lemma UnknownCategoryListsNothing(ts: seq<Template>, query: string, category: string, complexity: string)
    requires category != "all"
    requires forall t :: t in ts ==> t.category != category
    ensures FilterTemplates(ts, query, category, complexity) == []
  {
    FilterNone((t: Template) => Matches(t, query, category, complexity), ts);
  }

  /** The "All" entry of the category list, which the select offers beside
      its own "all" option, lists no template at all. */
  lemma AllCategoryOptionListsNothing(query: string, complexity: string)
    ensures "All" in CATEGORIES
    ensures FilterTemplates(TEMPLATES, query, "All", complexity) == []
  {
    UnknownCategoryListsNothing(TEMPLATES, query, "All", complexity);
  }

  /** The same for the "All" entry of the complexity list. */
  lemma AllComplexityOptionListsNothing(query: string, category: string)
    ensures "All" in COMPLEXITY_LEVELS
    ensures FilterTemplates(TEMPLATES, query, category, "All") == []
  {
    FilterNone((t: Template) => Matches(t, query, category, "All"), TEMPLATES);
  }

  /** A select's test as evidently intended: both "all" and the listed
      "All" switch it off. */
  predicate SelectMatchesIntended(selected: string, value: string)
  {
    selected == "all" || selected == "All" || value == selected
  }

  /** The filter with the intended select test. */
  function FilterTemplatesIntended(ts: seq<Template>, query: string, category: string, complexity: string): (r: seq<Template>)
    ensures forall t :: t in r <==> (t in ts && MatchesSearch(t, query)
                                    && SelectMatchesIntended(category, t.category)
                                    && SelectMatchesIntended(complexity, t.complexity))
    ensures IsSubsequence(r, ts)
  {
    var p := (t: Template) => MatchesSearch(t, query) && SelectMatchesIntended(category, t.category)
                             && SelectMatchesIntended(complexity, t.complexity);
    FilterIsSubsequence(p, ts);
    Filter(p, ts)
  }

  /** With the intended test, "All" lists the same templates as "all". */
  lemma AllOptionMeansAll(ts: seq<Template>, query: string, category: string, complexity: string)
    ensures FilterTemplatesIntended(ts, query, "All", complexity) == FilterTemplatesIntended(ts, query, "all", complexity)
    ensures FilterTemplatesIntended(ts, query, category, "All") == FilterTemplatesIntended(ts, query, category, "all")
    ensures FilterTemplatesIntended(ts, query, category, complexity) == FilterTemplates(ts, query, category, complexity)
            || category == "All" || complexity == "All"
  {
    FilterSameTest((t: Template) => MatchesSearch(t, query) && SelectMatchesIntended("All", t.category)
                                    && SelectMatchesIntended(complexity, t.complexity),
                   (t: Template) => MatchesSearch(t, query) && SelectMatchesIntended("all", t.category)
                                    && SelectMatchesIntended(complexity, t.complexity), ts);
    FilterSameTest((t: Template) => MatchesSearch(t, query) && SelectMatchesIntended(category, t.category)
                                    && SelectMatchesIntended("All", t.complexity),
                   (t: Template) => MatchesSearch(t, query) && SelectMatchesIntended(category, t.category)
                                    && SelectMatchesIntended("all", t.complexity), ts);
    if category != "All" && complexity != "All" {
      FilterSameTest((t: Template) => MatchesSearch(t, query) && SelectMatchesIntended(category, t.category)
                                      && SelectMatchesIntended(complexity, t.complexity),
                     (t: Template) => Matches(t, query, category, complexity), ts);
    }
  }

  /** `toggleFavorite`: a present id is removed (every occurrence), an
      absent one is appended. */
  function ToggleFavorite(favorites: seq<string>, id: string): (r: seq<string>)
    ensures id in favorites ==> id !in r && forall x :: x != id ==> (x in r <==> x in favorites)
    ensures id !in favorites ==> r == favorites + [id]
  {
    if id in favorites then Remove(favorites, id) else favorites + [id]
  }

  /** Toggling keeps the favourites free of duplicates. */
  lemma ToggleKeepsNoDup(favorites: seq<string>, id: string)
    requires NoDup(favorites)
    ensures NoDup(ToggleFavorite(favorites, id))
  {
    if id in favorites {
      RemoveNoDup(favorites, id);
    }
  }

  /** Toggling twice gives back the same set of favourites. */
  lemma ToggleTwiceSameMembers(favorites: seq<string>, id: string)
    ensures forall x :: x in ToggleFavorite(ToggleFavorite(favorites, id), id) <==> x in favorites
  {
  }

  /** From a duplicate-free list, toggling twice gives back the very list
      exactly when the id was absent or the last entry; otherwise the id
      moves to the end. */
  lemma {:induction false} ToggleTwiceRestores(favorites: seq<string>, id: string)
    requires NoDup(favorites)
    ensures ToggleFavorite(ToggleFavorite(favorites, id), id) == favorites
            <==> id !in favorites || favorites[|favorites| - 1] == id
  {
    var twice := ToggleFavorite(ToggleFavorite(favorites, id), id);
    if id !in favorites {
      assert Add(favorites, id) == favorites + [id];
      RemoveUndoesAdd(favorites, id);
    } else {
      var once := Remove(favorites, id);
      assert twice == once + [id];
      if favorites[|favorites| - 1] == id {
        var front := favorites[..|favorites| - 1];
        assert favorites == front + [id];
        assert id !in front by {
          forall k | 0 <= k < |front|
            ensures front[k] != id
          {
            assert favorites[k] != favorites[|favorites| - 1];
          }
        }
        assert Add(front, id) == favorites;
        RemoveUndoesAdd(front, id);
      } else {
        assert twice[|twice| - 1] == id;
      }
    }
  }
}
