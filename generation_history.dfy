/** The history page: the user's saved generations, the search box and the
    category buttons that narrow them, the four stat cards, and the favourite
    and delete actions that rewrite the loaded list. */
module GenerationHistory {
  import opened Wrappers
  import opened Records
  import opened Text
  import Seqs

  /** The four category buttons. */
  datatype Category = All | Favorites | Male | Female

  /** `field.toLowerCase().includes(query.toLowerCase())` */
  predicate Mentions(field: string, query: string)
  {
    Contains(Lower(field), Lower(query))
  }

  /** The search test: the query occurs, ignoring case, in the gender, the
      ethnicity, the style, the background or a non-empty custom prompt. */
  predicate Matches(g: Generation, query: string)
  {
    var prompt := FirstNonEmpty(g.custom_prompt, g.customPrompt);
    || Mentions(g.gender, query)
    || Mentions(g.ethnicity, query)
    || Mentions(FirstNonEmpty(g.fashion_style, g.fashionStyle), query)
    || Mentions(g.background, query)
    || (prompt != "" && Mentions(prompt, query))
  }

  /** The search agrees with the reference definition of an occurrence: a
      record matches when the lower-cased query occurs in one of its
      lower-cased fields. Its own gender and background, typed as the
      query, always find it. */
  lemma MatchesByOccurrence(g: Generation, query: string)
    ensures var q, prompt := Lower(query), FirstNonEmpty(g.custom_prompt, g.customPrompt);
      Matches(g, query) <==>
        || OccursIn(q, Lower(g.gender))
        || OccursIn(q, Lower(g.ethnicity))
        || OccursIn(q, Lower(FirstNonEmpty(g.fashion_style, g.fashionStyle)))
        || OccursIn(q, Lower(g.background))
        || (prompt != "" && OccursIn(q, Lower(prompt)))
    ensures Matches(g, g.gender) && Matches(g, g.background)
  {
    var q, prompt := Lower(query), FirstNonEmpty(g.custom_prompt, g.customPrompt);
    ContainsIff(Lower(g.gender), q);
    ContainsIff(Lower(g.ethnicity), q);
    ContainsIff(Lower(FirstNonEmpty(g.fashion_style, g.fashionStyle)), q);
    ContainsIff(Lower(g.background), q);
    ContainsIff(Lower(prompt), q);
    ContainsAtFront(Lower(g.gender), "");
    assert Lower(g.gender) + "" == Lower(g.gender);
    ContainsAtFront(Lower(g.background), "");
    assert Lower(g.background) + "" == Lower(g.background);
  }

  /** The test of a category button; "all" lets every record through. */
  predicate InCategory(g: Generation, category: Category)
  {
    match category
    case All => true
    case Favorites => IsFavorite(g)
    case Male => g.gender == "male"
    case Female => g.gender == "female"
  }

  /** The search and a category button as the tests handed to a filter. */
  function SearchTest(query: string): Generation -> bool
  {
    g => Matches(g, query)
  }

  function CategoryTest(filterBy: Category): Generation -> bool
  {
    g => InCategory(g, filterBy)
  }

  /** The records the search alone lets through. */
  function Searched(gs: seq<Generation>, query: string): (r: seq<Generation>)
    ensures Seqs.IsSubsequence(r, gs)
    ensures forall g :: g in r <==> g in gs && (query != "" ==> Matches(g, query))
    ensures forall g :: multiset(r)[g] == if query == "" || Matches(g, query) then multiset(gs)[g] else 0
  {
    if query == "" then
      Seqs.SubsequenceRefl(gs);
      gs
    else
      Seqs.FilterIsSubsequence(gs, SearchTest(query));
      Seqs.FilterMultiplicity(gs, SearchTest(query));
      forall g ensures g in Seqs.Filter(gs, SearchTest(query)) <==> g in gs && Matches(g, query) {
        Seqs.FilterMembership(gs, SearchTest(query), g);
      }
      Seqs.Filter(gs, SearchTest(query))
  }

  /** A record passes the search (when there is a query) and the category. */
  predicate Shown(g: Generation, query: string, filterBy: Category)
  {
    (query == "" || Matches(g, query)) && InCategory(g, filterBy)
  }

  /** `Shown` as the test handed to a filter. */
  function ShownBy(query: string, filterBy: Category): Generation -> bool
  {
    g => Shown(g, query, filterBy)
  }

  /** `filterGenerations()`: the search when the query is non-empty, then the
      category. The result keeps the loaded order, and a record is in it
      exactly when it passes both tests. */
  function FilterGenerations(gs: seq<Generation>, query: string, filterBy: Category): (r: seq<Generation>)
    ensures Seqs.IsSubsequence(r, gs)
    ensures forall g :: g in r <==> g in gs && (query != "" ==> Matches(g, query)) && InCategory(g, filterBy)
    ensures forall g :: multiset(r)[g] == if Shown(g, query, filterBy) then multiset(gs)[g] else 0
    ensures query == "" && filterBy == All ==> r == gs
  {
    var searched := Searched(gs, query);
    if filterBy == All then searched
    else
      Seqs.FilterIsSubsequence(searched, CategoryTest(filterBy));
      Seqs.FilterMultiplicity(searched, CategoryTest(filterBy));
      Seqs.SubsequenceTrans(Seqs.Filter(searched, CategoryTest(filterBy)), searched, gs);
      forall g ensures g in Seqs.Filter(searched, CategoryTest(filterBy)) <==> g in searched && InCategory(g, filterBy) {
        Seqs.FilterMembership(searched, CategoryTest(filterBy), g);
      }
      Seqs.Filter(searched, CategoryTest(filterBy))
  }

  /** With a query and the "all" button, the search is the filter by `Shown`. */
  lemma SearchIsOneFilter(gs: seq<Generation>, query: string)
    requires query != ""
    ensures FilterGenerations(gs, query, All) == Seqs.Filter(gs, ShownBy(query, All))
  {
    forall x ensures SearchTest(query)(x) == ShownBy(query, All)(x) {
      assert ShownBy(query, All)(x) == Shown(x, query, All);
    }
    Seqs.FilterExt(gs, SearchTest(query), ShownBy(query, All));
  }

  /** A category other than "all" filters what the search lets through. */
  lemma CategoryAfterSearch(gs: seq<Generation>, query: string, filterBy: Category)
    requires query != "" && filterBy != All
    ensures FilterGenerations(gs, query, filterBy) == Seqs.Filter(Seqs.Filter(gs, SearchTest(query)), CategoryTest(filterBy))
  {
  }

  /** With a query and a category, the search followed by the category is one
      filter by both tests together. */
  lemma SearchThenCategoryIsOneFilter(gs: seq<Generation>, query: string, filterBy: Category)
    requires query != ""
    ensures FilterGenerations(gs, query, filterBy) == Seqs.Filter(gs, ShownBy(query, filterBy))
  {
    if filterBy == All {
      SearchIsOneFilter(gs, query);
    } else {
      CategoryAfterSearch(gs, query, filterBy);
      forall i | 0 <= i < |gs|
        ensures ShownBy(query, filterBy)(gs[i]) == (SearchTest(query)(gs[i]) && CategoryTest(filterBy)(gs[i]))
      {
        assert ShownBy(query, filterBy)(gs[i]) == Shown(gs[i], query, filterBy);
      }
      Seqs.FilterFilter(gs, SearchTest(query), CategoryTest(filterBy), ShownBy(query, filterBy));
    }
  }

  /** The search ignores case: lower-casing the query changes nothing. */
  lemma SearchIgnoresCase(gs: seq<Generation>, query: string, filterBy: Category)
    ensures FilterGenerations(gs, Lower(query), filterBy) == FilterGenerations(gs, query, filterBy)
  {
    LowerIdempotent(query);
    forall g ensures Matches(g, Lower(query)) == Matches(g, query) {
    }
    if query != "" {
      Seqs.FilterExt(gs, SearchTest(Lower(query)), SearchTest(query));
    }
  }

  /** The search is a substring test, so searching for "male" also finds
      every female record; only the category buttons tell the two apart. */
  lemma SearchForMaleFindsFemale(g: Generation)
    requires g.gender == "female"
    ensures Matches(g, "male")
    ensures !InCategory(g, Male) && InCategory(g, Female)
  {
    assert Lower("female") == "female";
    assert Lower("male") == "male";
    ContainsAtFront("male", "");
    assert "male" + "" == "male";
    ContainsAfter("fe", "male", "male");
    assert "fe" + "male" == "female";
  }

  /** Applying the same search and category again changes nothing. */
  lemma FilterIdempotent(gs: seq<Generation>, query: string, filterBy: Category)
    ensures FilterGenerations(FilterGenerations(gs, query, filterBy), query, filterBy) == FilterGenerations(gs, query, filterBy)
  {
    var r := FilterGenerations(gs, query, filterBy);
    forall i | 0 <= i < |r|
      ensures (query != "" ==> Matches(r[i], query)) && InCategory(r[i], filterBy)
    {
      assert r[i] in r;
    }
    if query != "" {
      Seqs.FilterAll(r, SearchTest(query));
    }
    assert Searched(r, query) == r;
    if filterBy != All {
      Seqs.FilterAll(r, CategoryTest(filterBy));
    }
  }

  /** What the four stat cards show. */
  datatype Stats = Stats(total: nat, favorites: nat, male: nat, female: nat)

  predicate IsMale(g: Generation)
  {
    g.gender == "male"
  }

  predicate IsFemale(g: Generation)
  {
    g.gender == "female"
  }

  /** The stat cards, counted over all loaded records. No card counts more
      records than are loaded, and no record is both male and female. */
  function StatsOf(gs: seq<Generation>): (s: Stats)
    ensures s.total == |gs|
    ensures s.favorites <= s.total
    ensures s.male + s.female <= s.total
  {
    Seqs.DisjointCounts(gs, IsMale, IsFemale);
    Stats(|gs|, Seqs.Count(gs, IsFavorite), Seqs.Count(gs, IsMale), Seqs.Count(gs, IsFemale))
  }

  /** Each card counts the records its button shows with an empty search box. */
  lemma StatsMatchCategories(gs: seq<Generation>)
    ensures StatsOf(gs).total == |FilterGenerations(gs, "", All)|
    ensures StatsOf(gs).favorites == |FilterGenerations(gs, "", Favorites)|
    ensures StatsOf(gs).male == |FilterGenerations(gs, "", Male)|
    ensures StatsOf(gs).female == |FilterGenerations(gs, "", Female)|
  {
    Seqs.FilterExt(gs, CategoryTest(Favorites), IsFavorite);
    Seqs.FilterExt(gs, CategoryTest(Male), IsMale);
    Seqs.FilterExt(gs, CategoryTest(Female), IsFemale);
  }

  /** The list after a successful favourite update: every record with the id
      gets both spellings of the flag set to `value`; the others are kept. */
  function MarkFavorite(gs: seq<Generation>, id: string, value: bool): (r: seq<Generation>)
    ensures |r| == |gs|
    ensures forall i :: 0 <= i < |gs| ==> r[i].id == gs[i].id
    ensures forall i :: 0 <= i < |gs| && gs[i].id == id ==> IsFavorite(r[i]) == value
    ensures forall i :: 0 <= i < |gs| && gs[i].id == id ==>
      r[i] == gs[i].(is_favorite := Bool(value), isFavorite := Bool(value))
    ensures forall i :: 0 <= i < |gs| && gs[i].id != id ==> r[i] == gs[i]
  {
    seq(|gs|, i requires 0 <= i < |gs| =>
      if gs[i].id == id then gs[i].(is_favorite := Bool(value), isFavorite := Bool(value)) else gs[i])
  }

  /** A favourite update leaves the total and the male and female cards as
      they were; marking can only raise the favourites card and unmarking can
      only lower it. */
  lemma MarkFavoriteKeepsCounts(gs: seq<Generation>, id: string, value: bool)
    ensures StatsOf(MarkFavorite(gs, id, value)).total == StatsOf(gs).total
    ensures StatsOf(MarkFavorite(gs, id, value)).male == StatsOf(gs).male
    ensures StatsOf(MarkFavorite(gs, id, value)).female == StatsOf(gs).female
    ensures value ==> StatsOf(gs).favorites <= StatsOf(MarkFavorite(gs, id, value)).favorites
    ensures !value ==> StatsOf(MarkFavorite(gs, id, value)).favorites <= StatsOf(gs).favorites
  {
    var r := MarkFavorite(gs, id, value);
    assert Seqs.Positions(r, IsMale) == Seqs.Positions(gs, IsMale);
    assert Seqs.Positions(r, IsFemale) == Seqs.Positions(gs, IsFemale);
    var before, after := Seqs.Positions(gs, IsFavorite), Seqs.Positions(r, IsFavorite);
    if value {
      assert before <= after;
      assert after == before + (after - before);
    } else {
      assert after <= before;
      assert before == after + (before - after);
    }
  }

  /** Pressing the heart twice on a record restores whether it is a favourite. */
  lemma ToggleTwiceRestoresFavorite(gs: seq<Generation>, i: int)
    requires 0 <= i < |gs|
    ensures var once := MarkFavorite(gs, gs[i].id, !IsFavorite(gs[i]));
            var twice := MarkFavorite(once, once[i].id, !IsFavorite(once[i]));
            IsFavorite(once[i]) == !IsFavorite(gs[i]) && IsFavorite(twice[i]) == IsFavorite(gs[i])
  {
  }

  /** A later update of the same record overrides an earlier one. */
  lemma {:induction false} MarkFavoriteLastWins(gs: seq<Generation>, id: string, a: bool, b: bool)
    ensures MarkFavorite(MarkFavorite(gs, id, a), id, b) == MarkFavorite(gs, id, b)
  {
    var r1 := MarkFavorite(gs, id, a);
    var r2 := MarkFavorite(r1, id, b);
    var r := MarkFavorite(gs, id, b);
    forall i | 0 <= i < |gs|
      ensures r2[i] == r[i]
    {
      if gs[i].id == id {
        assert r1[i].id == id;
      }
    }
  }

  predicate HasOtherId(id: string, g: Generation)
  {
    g.id != id
  }

  /** The list after a successful delete: the records with another id, in order. */
  function WithoutId(gs: seq<Generation>, id: string): (r: seq<Generation>)
    ensures Seqs.IsSubsequence(r, gs)
    ensures forall g :: g in r <==> g in gs && g.id != id
    ensures forall g :: multiset(r)[g] == if g.id != id then multiset(gs)[g] else 0
  {
    Seqs.FilterIsSubsequence(gs, g => HasOtherId(id, g));
    Seqs.FilterMultiplicity(gs, g => HasOtherId(id, g));
    forall g ensures g in Seqs.Filter(gs, g => HasOtherId(id, g)) <==> g in gs && g.id != id {
      Seqs.FilterMembership(gs, g => HasOtherId(id, g), g);
    }
    Seqs.Filter(gs, g => HasOtherId(id, g))
  }

  /** Deleting an id no record has leaves the list as it is. */
  lemma DeleteUnknownId(gs: seq<Generation>, id: string)
    requires forall i :: 0 <= i < |gs| ==> gs[i].id != id
    ensures WithoutId(gs, id) == gs
  {
    Seqs.FilterAll(gs, g => HasOtherId(id, g));
  }

  /** The `isFavorite` update sent to the database. */
  datatype FavoriteUpdate = FavoriteUpdate(id: string, isFavorite: bool)

  /** The page's state: the loaded records, the search box, the selected
      category and the loading flag. The filtered list is derived from them. */
  class HistoryBrowser {
    var generations: seq<Generation>
    var searchQuery: string
    var filterBy: Category
    var loading: bool

    constructor ()
      ensures generations == [] && searchQuery == "" && filterBy == All && loading
    {
      generations := [];
      searchQuery := "";
      filterBy := All;
      loading := true;
    }

    /** `filteredGenerations`, recomputed whenever its inputs change. */
    function Filtered(): seq<Generation>
      reads this
    {
      FilterGenerations(generations, searchQuery, filterBy)
    }

    /** The stat cards. */
    function CurrentStats(): Stats
      reads this
    {
      StatsOf(generations)
    }

    /** `loadGenerations()`: the current user's records, as listed by the
        database for the user's id; on any error the list is kept. Loading
        ends either way. */
    method LoadGenerations(me: Result<User>, list: string -> Result<seq<Generation>>)
      modifies this`generations, this`loading
      ensures !loading
      ensures me.Ok? && list(me.value.id).Ok? ==> generations == list(me.value.id).value
      ensures !(me.Ok? && list(me.value.id).Ok?) ==> generations == old(generations)
    {
      if me.Ok? {
        var data := list(me.value.id);
        if data.Ok? {
          generations := data.value;
        }
      }
      loading := false;
    }

    method SetSearchQuery(query: string)
      modifies this`searchQuery
      ensures searchQuery == query
    {
      searchQuery := query;
    }

    method SetFilterBy(category: Category)
      modifies this`filterBy
      ensures filterBy == category
    {
      filterBy := category;
    }

    /** `toggleFavorite(id, currentFavorite)`: the database is told the new
        value first; only when that succeeds is the local list rewritten. */
    method ToggleFavorite(id: string, currentFavorite: bool, update: Result<()>) returns (request: FavoriteUpdate)
      modifies this`generations
      ensures request == FavoriteUpdate(id, !currentFavorite)
      ensures update.Ok? ==> generations == MarkFavorite(old(generations), id, !currentFavorite)
      ensures update.Err? ==> generations == old(generations)
    {
      request := FavoriteUpdate(id, !currentFavorite);
      if update.Ok? {
        generations := MarkFavorite(generations, id, !currentFavorite);
      }
    }

    /** `deleteGeneration(id)`: nothing happens unless the user confirms; the
        local list loses the record only once the database delete succeeds.
        `requested` says whether the delete was sent. */
    method DeleteGeneration(id: string, confirmed: bool, delete: Result<()>) returns (requested: bool)
      modifies this`generations
      ensures requested == confirmed
      ensures confirmed && delete.Ok? ==> generations == WithoutId(old(generations), id)
      ensures !(confirmed && delete.Ok?) ==> generations == old(generations)
    {
      requested := confirmed;
      if !confirmed {
        return;
      }
      if delete.Ok? {
        generations := WithoutId(generations, id);
      }
    }
  }
}
