/** The catalog of one platform: a search box narrows the programs of each
    category to those whose name or description contains the query, ignoring
    case, and drops the categories left empty; a category button then keeps
    only the categories with that name. The header counts every program of
    the platform, whatever is searched or selected. */
module PlatformSection {
  import opened Util
  import opened Text

  datatype Program = Program(
    id: string,
    name: string,
    description: string,
    version: string,
    size: string,
    downloadUrl: string,
    installCommand: Option<string>,
    icon: string)

  datatype Category = Category(name: string, programs: seq<Program>)

  /** The search predicate of one program. */
  predicate Matches(p: Program, query: string) {
    Includes(Lower(p.name), Lower(query)) || Includes(Lower(p.description), Lower(query))
  }

  function MatchingPrograms(ps: seq<Program>, query: string): seq<Program> {
    Filter(ps, (p: Program) => Matches(p, query))
  }

  /** A category with its programs narrowed to the matching ones. */
  function Narrowed(c: Category, query: string): Category {
    c.(programs := MatchingPrograms(c.programs, query))
  }

  /** `category.programs.length > 0`. */
  predicate NonEmpty(c: Category) {
    |c.programs| > 0
  }

  /** `filteredCategories`: narrow every category, then drop the empty ones. */
  function FilteredCategories(cats: seq<Category>, query: string): seq<Category> {
    Filter(MapSeq(cats, (c: Category) => Narrowed(c, query)), NonEmpty)
  }

  /** `displayedCategories`: a selection that is null or the empty string
      (both falsy) shows everything, any other keeps the categories of that
      name. */
  function DisplayedCategories(filtered: seq<Category>, selected: Option<string>): seq<Category> {
    if selected.Some? && selected.value != "" then Filter(filtered, (c: Category) => c.name == selected.value)
    else filtered
  }

  /** `totalPrograms`: the number of programs over all categories. */
  function TotalPrograms(cats: seq<Category>): nat {
    if cats == [] then 0 else |cats[0].programs| + TotalPrograms(cats[1..])
  }

  /** All programs of a list of categories, category by category. */
  function AllPrograms(cats: seq<Category>): seq<Program> {
    if cats == [] then [] else cats[0].programs + AllPrograms(cats[1..])
  }

  /** A program matches exactly when the lower-cased query occurs in its
      lower-cased name or in its lower-cased description. */
  lemma MatchesSpec(p: Program, query: string)
    ensures Matches(p, query) <==>
      Substring(Lower(query), Lower(p.name)) || Substring(Lower(query), Lower(p.description))
  {
    IncludesSpec(Lower(p.name), Lower(query));
    IncludesSpec(Lower(p.description), Lower(query));
  }

  /** The query's case does not matter. */
  lemma MatchesIgnoresQueryCase(p: Program, query: string)
    ensures Matches(p, query) == Matches(p, Lower(query))
  {
    LowerIdempotent(query);
  }

  /** One step of `FilteredCategories` over the head category. */
  lemma FilteredCons(cats: seq<Category>, query: string)
    requires cats != []
    ensures FilteredCategories(cats, query) ==
      (if |Narrowed(cats[0], query).programs| > 0 then [Narrowed(cats[0], query)] else [])
      + FilteredCategories(cats[1..], query)
  {
    var m := MapSeq(cats, (c: Category) => Narrowed(c, query));
    var m' := MapSeq(cats[1..], (c: Category) => Narrowed(c, query));
    var g := NonEmpty;
    var n := Narrowed(cats[0], query);
    assert m == [n] + m';
    assert m[0] == n && m[1..] == m';
    assert Filter(m, g) == (if g(n) then [n] else []) + Filter(m', g);
    assert FilteredCategories(cats, query) == Filter(m, g);
    assert FilteredCategories(cats[1..], query) == Filter(m', g);
  }

  /** Soundness: every category shown is non-empty and every program in it
      matches the query. */
  lemma FilteredSound(cats: seq<Category>, query: string)
    ensures forall i :: 0 <= i < |FilteredCategories(cats, query)| ==>
      |FilteredCategories(cats, query)[i].programs| > 0
    ensures forall i, j ::
      0 <= i < |FilteredCategories(cats, query)| && 0 <= j < |FilteredCategories(cats, query)[i].programs| ==>
      Matches(FilteredCategories(cats, query)[i].programs[j], query)
  {
    var r := FilteredCategories(cats, query);
    var narrowed := MapSeq(cats, (c: Category) => Narrowed(c, query));
    forall i, j | 0 <= i < |r| && 0 <= j < |r[i].programs|
      ensures Matches(r[i].programs[j], query)
    {
      assert r[i] in narrowed;
      var k :| 0 <= k < |narrowed| && narrowed[k] == r[i];
      assert r[i].programs == MatchingPrograms(cats[k].programs, query);
    }
  }

  /** Completeness: a matching program of any category is shown, inside
      that category narrowed to its matching programs. */
  lemma FilteredComplete(cats: seq<Category>, query: string)
    ensures forall i, j :: 0 <= i < |cats| && 0 <= j < |cats[i].programs| && Matches(cats[i].programs[j], query) ==>
      Narrowed(cats[i], query) in FilteredCategories(cats, query) &&
      cats[i].programs[j] in Narrowed(cats[i], query).programs
  {
    var narrowed := MapSeq(cats, (c: Category) => Narrowed(c, query));
    forall i, j | 0 <= i < |cats| && 0 <= j < |cats[i].programs| && Matches(cats[i].programs[j], query)
      ensures Narrowed(cats[i], query) in FilteredCategories(cats, query)
      ensures cats[i].programs[j] in Narrowed(cats[i], query).programs
    {
      var n := Narrowed(cats[i], query);
      assert cats[i].programs[j] in n.programs;
      assert |n.programs| > 0;
      assert narrowed[i] == n;
    }
  }

  /** Order: the categories shown are the narrowed input categories in input
      order, each program list keeps its input order, and reading the result
      category by category gives exactly the matching programs of the whole
      input, in input order. */
  lemma {:induction false} FilteredOrder(cats: seq<Category>, query: string)
    ensures IsSubsequence(FilteredCategories(cats, query), MapSeq(cats, (c: Category) => Narrowed(c, query)))
    ensures forall i :: 0 <= i < |cats| ==> IsSubsequence(Narrowed(cats[i], query).programs, cats[i].programs)
    ensures AllPrograms(FilteredCategories(cats, query)) == MatchingPrograms(AllPrograms(cats), query)
  {
    FilterIsSubsequence(MapSeq(cats, (c: Category) => Narrowed(c, query)), NonEmpty);
    forall i | 0 <= i < |cats|
      ensures IsSubsequence(Narrowed(cats[i], query).programs, cats[i].programs)
    {
      FilterIsSubsequence(cats[i].programs, (p: Program) => Matches(p, query));
    }
    FlattenFiltered(cats, query);
  }

  lemma {:induction false} FlattenFiltered(cats: seq<Category>, query: string)
    ensures AllPrograms(FilteredCategories(cats, query)) == MatchingPrograms(AllPrograms(cats), query)
  {
    if cats != [] {
      FilteredCons(cats, query);
      FlattenFiltered(cats[1..], query);
      FilterConcat(cats[0].programs, AllPrograms(cats[1..]), (p: Program) => Matches(p, query));
      var n := Narrowed(cats[0], query);
      var rest := FilteredCategories(cats[1..], query);
      if |n.programs| > 0 {
        assert ([n] + rest)[1..] == rest;
      } else {
        assert n.programs == [];
      }
    }
  }

  /** An empty query narrows nothing: every non-empty category is shown
      with all its programs. */
  lemma {:induction false} EmptyQueryKeepsAll(cats: seq<Category>)
    ensures FilteredCategories(cats, "") == Filter(cats, NonEmpty)
  {
    if cats != [] {
      FilteredCons(cats, "");
      EmptyQueryKeepsAll(cats[1..]);
      forall j | 0 <= j < |cats[0].programs| ensures Matches(cats[0].programs[j], "") {
        EmptyIncludedEverywhere(Lower(cats[0].programs[j].name));
      }
      FilterAllPass(cats[0].programs, (p: Program) => Matches(p, ""));
      assert Narrowed(cats[0], "") == cats[0];
    }
  }

  /** No selection (or the empty name) shows the filtered list itself; a
      selection shows exactly the filtered categories of that name, in
      order. */
  lemma DisplayedSpec(filtered: seq<Category>, selected: Option<string>)
    ensures selected.None? || selected.value == "" ==> DisplayedCategories(filtered, selected) == filtered
    ensures selected.Some? && selected.value != "" ==>
      && IsSubsequence(DisplayedCategories(filtered, selected), filtered)
      && (forall i :: 0 <= i < |DisplayedCategories(filtered, selected)| ==>
            DisplayedCategories(filtered, selected)[i].name == selected.value)
      && (forall i :: 0 <= i < |filtered| && filtered[i].name == selected.value ==>
            filtered[i] in DisplayedCategories(filtered, selected))
  {
    if selected.Some? && selected.value != "" {
      FilterIsSubsequence(filtered, (c: Category) => c.name == selected.value);
    }
  }

  /** The header count is the number of programs of the platform. */
  lemma {:induction false} TotalProgramsCountsAll(cats: seq<Category>)
    ensures TotalPrograms(cats) == |AllPrograms(cats)|
  {
    if cats != [] {
      TotalProgramsCountsAll(cats[1..]);
    }
  }

  lemma {:induction false} TotalOfFilter(cats: seq<Category>, f: Category -> bool)
    ensures TotalPrograms(Filter(cats, f)) <= TotalPrograms(cats)
  {
    if cats != [] {
      TotalOfFilter(cats[1..], f);
      if f(cats[0]) {
        assert ([cats[0]] + Filter(cats[1..], f))[1..] == Filter(cats[1..], f);
      }
    }
  }

  /** No search or selection shows more programs than the header counts,
      and an empty search with no selection shows them all. */
  lemma DisplayedWithinTotal(cats: seq<Category>, query: string, selected: Option<string>)
    ensures TotalPrograms(DisplayedCategories(FilteredCategories(cats, query), selected)) <= TotalPrograms(cats)
    ensures TotalPrograms(DisplayedCategories(FilteredCategories(cats, ""), None)) == TotalPrograms(cats)
  {
    var filtered := FilteredCategories(cats, query);
    FlattenFiltered(cats, query);
    TotalProgramsCountsAll(filtered);
    TotalProgramsCountsAll(cats);
    if selected.Some? && selected.value != "" {
      TotalOfFilter(filtered, (c: Category) => c.name == selected.value);
    }
    FlattenFiltered(cats, "");
    TotalProgramsCountsAll(FilteredCategories(cats, ""));
    forall j | 0 <= j < |AllPrograms(cats)| ensures Matches(AllPrograms(cats)[j], "") {
      EmptyIncludedEverywhere(Lower(AllPrograms(cats)[j].name));
    }
    FilterAllPass(AllPrograms(cats), (p: Program) => Matches(p, ""));
  }
}
