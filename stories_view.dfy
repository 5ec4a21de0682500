/**
 * src/app/stories/stories-view.tsx: the signed-in user's story list, sorted newest
 * first when a snapshot arrives, and narrowed by three drop-down filters whose value
 * `All` imposes nothing.
 */
module StoriesView {
  import opened Wrappers
  import opened StoryTypes

  const All: string := "All"

  /** The three filterable fields of a story. */
  datatype Field = AgeGroup | Theme | ReadingLevel

  function FieldOf(s: Story, f: Field): (v: string)
    ensures f == AgeGroup ==> v == s.doc.ageGroup
    ensures f == Theme ==> v == s.doc.theme
    ensures f == ReadingLevel ==> v == s.doc.readingLevel
  {
    match f
    case AgeGroup => s.doc.ageGroup
    case Theme => s.doc.theme
    case ReadingLevel => s.doc.readingLevel
  }

  /** `stories.filter(story => story.<field> === value)`. */
  function Keep(stories: seq<Story>, f: Field, value: string): (r: seq<Story>)
    ensures |r| <= |stories|
  {
    if stories == [] then []
    else (if FieldOf(stories[0], f) == value then [stories[0]] else []) + Keep(stories[1..], f, value)
  }

  /** One `if (value !== 'All')` step of `handleFilterChange`. */
  function FilterBy(stories: seq<Story>, f: Field, value: string): (r: seq<Story>)
  {
    if value != All then Keep(stories, f, value) else stories
  }

  /** The list `handleFilterChange` computes: age group, then theme, then reading level. */
  function Filtered(stories: seq<Story>, age: string, theme: string, level: string): (r: seq<Story>)
  {
    FilterBy(FilterBy(FilterBy(stories, AgeGroup, age), Theme, theme), ReadingLevel, level)
  }

  /** A filter value admits a story when it is `All` or equals the story's field. */
  predicate Admits(value: string, s: Story, f: Field)
  {
    value == All || FieldOf(s, f) == value
  }

  predicate Matches(s: Story, age: string, theme: string, level: string)
  {
    Admits(age, s, AgeGroup) && Admits(theme, s, Theme) && Admits(level, s, ReadingLevel)
  }

  /** Reference definition: one pass keeping, in order, the stories every filter admits. */
  function KeepMatching(stories: seq<Story>, age: string, theme: string, level: string): (r: seq<Story>)
  {
    if stories == [] then []
    else (if Matches(stories[0], age, theme, level) then [stories[0]] else [])
         + KeepMatching(stories[1..], age, theme, level)
  }

  lemma {:induction false} KeepAppend(a: seq<Story>, b: seq<Story>, f: Field, value: string)
    ensures Keep(a + b, f, value) == Keep(a, f, value) + Keep(b, f, value)
  {
    if a == [] {
      assert a + b == b;
    } else {
      var head := if FieldOf(a[0], f) == value then [a[0]] else [];
      assert (a + b)[0] == a[0];
      assert (a + b)[1..] == a[1..] + b;
      assert Keep(a + b, f, value) == head + Keep(a[1..] + b, f, value);
      KeepAppend(a[1..], b, f, value);
      assert Keep(a, f, value) == head + Keep(a[1..], f, value);
      AppendAssociates(head, Keep(a[1..], f, value), Keep(b, f, value));
    }
  }

  lemma AppendAssociates(x: seq<Story>, y: seq<Story>, z: seq<Story>)
    ensures x + (y + z) == (x + y) + z
  {
  }

  lemma FilterByAppend(a: seq<Story>, b: seq<Story>, f: Field, value: string)
    ensures FilterBy(a + b, f, value) == FilterBy(a, f, value) + FilterBy(b, f, value)
  {
    if value != All {
      KeepAppend(a, b, f, value);
    }
  }

  lemma FilterBySingle(x: Story, f: Field, value: string)
    ensures FilterBy([x], f, value) == if Admits(value, x, f) then [x] else []
  {
    assert [x][1..] == [];
  }

  lemma {:induction false} FilteredAppend(a: seq<Story>, b: seq<Story>, age: string, theme: string, level: string)
    ensures Filtered(a + b, age, theme, level) == Filtered(a, age, theme, level) + Filtered(b, age, theme, level)
  {
    FilterByAppend(a, b, AgeGroup, age);
    FilterByAppend(FilterBy(a, AgeGroup, age), FilterBy(b, AgeGroup, age), Theme, theme);
    FilterByAppend(FilterBy(FilterBy(a, AgeGroup, age), Theme, theme),
                   FilterBy(FilterBy(b, AgeGroup, age), Theme, theme), ReadingLevel, level);
  }

  lemma FilteredSingle(x: Story, age: string, theme: string, level: string)
    ensures Filtered([x], age, theme, level) == if Matches(x, age, theme, level) then [x] else []
  {
    FilterBySingle(x, AgeGroup, age);
    FilterBySingle(x, Theme, theme);
    FilterBySingle(x, ReadingLevel, level);
    assert FilterBy([], Theme, theme) == [];
    assert FilterBy([], ReadingLevel, level) == [];
  }

  /**
   * The successive filters compute exactly the one-pass reference: the stories, in
   * their original order, that match every filter other than `All`.
   */
  lemma {:induction false} FilteredIsKeepMatching(stories: seq<Story>, age: string, theme: string, level: string)
    ensures Filtered(stories, age, theme, level) == KeepMatching(stories, age, theme, level)
  {
    if stories != [] {
      assert stories == [stories[0]] + stories[1..];
      FilteredAppend([stories[0]], stories[1..], age, theme, level);
      FilteredSingle(stories[0], age, theme, level);
      FilteredIsKeepMatching(stories[1..], age, theme, level);
    }
  }

  lemma {:induction false} KeepMatchingMembers(stories: seq<Story>, age: string, theme: string, level: string, x: Story)
    ensures x in KeepMatching(stories, age, theme, level) <==> x in stories && Matches(x, age, theme, level)
  {
    if stories != [] {
      KeepMatchingMembers(stories[1..], age, theme, level, x);
      assert stories == [stories[0]] + stories[1..];
    }
  }

  /** A story is listed iff it is one of the user's stories and every filter admits it. */
  lemma FilteredMembers(stories: seq<Story>, age: string, theme: string, level: string, x: Story)
    ensures x in Filtered(stories, age, theme, level) <==> x in stories && Matches(x, age, theme, level)
  {
    FilteredIsKeepMatching(stories, age, theme, level);
    KeepMatchingMembers(stories, age, theme, level, x);
  }

  /** With all three filters at `All` the list is the user's stories unchanged. */
  lemma AllFiltersShowEverything(stories: seq<Story>)
    ensures Filtered(stories, All, All, All) == stories
  {
  }

  lemma {:induction false} KeepMatchingIdempotent(stories: seq<Story>, age: string, theme: string, level: string)
    ensures KeepMatching(KeepMatching(stories, age, theme, level), age, theme, level)
            == KeepMatching(stories, age, theme, level)
  {
    if stories != [] {
      var head := if Matches(stories[0], age, theme, level) then [stories[0]] else [];
      var rest := KeepMatching(stories[1..], age, theme, level);
      KeepMatchingIdempotent(stories[1..], age, theme, level);
      if head != [] {
        assert (head + rest)[0] == stories[0];
        assert (head + rest)[1..] == rest;
      } else {
        assert head + rest == rest;
      }
    }
  }

  /** Filtering the filtered list again with the same filters changes nothing. */
  lemma FilteredIdempotent(stories: seq<Story>, age: string, theme: string, level: string)
    ensures Filtered(Filtered(stories, age, theme, level), age, theme, level) == Filtered(stories, age, theme, level)
  {
    FilteredIsKeepMatching(stories, age, theme, level);
    FilteredIsKeepMatching(Filtered(stories, age, theme, level), age, theme, level);
    KeepMatchingIdempotent(stories, age, theme, level);
  }

  /** Any two filter steps may be applied in either order. */
  lemma {:induction false} FilterByCommutes(stories: seq<Story>, f: Field, v: string, g: Field, w: string)
    ensures FilterBy(FilterBy(stories, f, v), g, w) == FilterBy(FilterBy(stories, g, w), f, v)
  {
    if stories != [] {
      var x := stories[0];
      var rest := stories[1..];
      assert stories == [x] + rest;
      FilterByAppend([x], rest, f, v);
      FilterByAppend([x], rest, g, w);
      FilterBySingle(x, f, v);
      FilterBySingle(x, g, w);
      FilterByAppend(FilterBy([x], f, v), FilterBy(rest, f, v), g, w);
      FilterByAppend(FilterBy([x], g, w), FilterBy(rest, g, w), f, v);
      assert FilterBy([], f, v) == [] && FilterBy([], g, w) == [];
      FilterBySingle(x, f, v);
      FilterBySingle(x, g, w);
      FilterByCommutes(rest, f, v, g, w);
    }
  }

  // ---------------------------------------------------------------------------
  // The snapshot sort
  // ---------------------------------------------------------------------------

  /** The time of a dated story; undated stories only reach it under a guard. */
  function Time(s: Story): (t: int)
    ensures s.doc.createdAt.Some? ==> t == s.doc.createdAt.value
  {
    s.doc.createdAt.GetOr(0)
  }

  /**
   * The comparator: 0 when either story is undated, otherwise b's time minus a's, so a
   * positive value puts b first.
   */
  function Compare(a: Story, b: Story): (c: int)
    ensures a.doc.createdAt.None? || b.doc.createdAt.None? ==> c == 0
    ensures a.doc.createdAt.Some? && b.doc.createdAt.Some? ==> (c > 0 <==> Time(b) > Time(a))
  {
    if a.doc.createdAt.None? || b.doc.createdAt.None? then 0 else Time(b) - Time(a)
  }

  predicate AllDated(stories: seq<Story>)
  {
    forall i :: 0 <= i < |stories| ==> stories[i].doc.createdAt.Some?
  }

  predicate NewestFirst(stories: seq<Story>)
  {
    forall i, j :: 0 <= i < j < |stories| ==> Time(stories[j]) <= Time(stories[i])
  }

  /**
   * Places `x` after a list the comparator has already ordered: `x` moves left past
   * every story the comparator wants after it, as an insertion sort does.
   */
  function Insert(sorted: seq<Story>, x: Story): (r: seq<Story>)
    ensures |r| == |sorted| + 1
  {
    if sorted == [] then [x]
    else if Compare(sorted[|sorted| - 1], x) > 0 then Insert(sorted[..|sorted| - 1], x) + [sorted[|sorted| - 1]]
    else sorted + [x]
  }

  /**
   * `stories.sort(comparator)`. The library's algorithm is not fixed; this is an
   * insertion sort over the same comparator. The comparator is not a consistent order
   * when some story is undated, so then only the permutation is promised.
   */
  function SortNewestFirst(stories: seq<Story>): (r: seq<Story>)
    ensures |r| == |stories|
  {
    if stories == [] then []
    else Insert(SortNewestFirst(stories[..|stories| - 1]), stories[|stories| - 1])
  }

  lemma {:induction false} InsertPermutes(sorted: seq<Story>, x: Story)
    ensures multiset(Insert(sorted, x)) == multiset(sorted) + multiset{x}
  {
    if sorted != [] {
      var init, last := sorted[..|sorted| - 1], sorted[|sorted| - 1];
      assert sorted == init + [last];
      if Compare(last, x) > 0 {
        InsertPermutes(init, x);
      }
    }
  }

  lemma InsertMembers(sorted: seq<Story>, x: Story, y: Story)
    requires y in Insert(sorted, x)
    ensures y == x || y in sorted
  {
    InsertPermutes(sorted, x);
    assert y in multiset(sorted) + multiset{x};
  }

  lemma AppendOlder(front: seq<Story>, last: Story)
    requires NewestFirst(front)
    requires forall k :: 0 <= k < |front| ==> Time(last) <= Time(front[k])
    ensures NewestFirst(front + [last])
  {
  }

  lemma {:induction false} InsertKeepsNewestFirst(sorted: seq<Story>, x: Story)
    requires AllDated(sorted) && NewestFirst(sorted) && x.doc.createdAt.Some?
    ensures AllDated(Insert(sorted, x)) && NewestFirst(Insert(sorted, x))
  {
    if sorted != [] {
      var init, last := sorted[..|sorted| - 1], sorted[|sorted| - 1];
      if Compare(last, x) > 0 {
        InsertKeepsNewestFirst(init, x);
        var front := Insert(init, x);
        forall k | 0 <= k < |front|
          ensures Time(last) <= Time(front[k])
        {
          InsertMembers(init, x, front[k]);
        }
        AppendOlder(front, last);
      }
    }
  }

  /** The sorted list holds exactly the stories of the snapshot. */
  lemma {:induction false} SortPermutes(stories: seq<Story>)
    ensures multiset(SortNewestFirst(stories)) == multiset(stories)
  {
    if stories != [] {
      var init, last := stories[..|stories| - 1], stories[|stories| - 1];
      assert stories == init + [last];
      SortPermutes(init);
      InsertPermutes(SortNewestFirst(init), last);
    }
  }

  /** When every story is dated the list is newest first. */
  lemma {:induction false} SortOrdersDated(stories: seq<Story>)
    requires AllDated(stories)
    ensures NewestFirst(SortNewestFirst(stories))
  {
    if stories != [] {
      var init := stories[..|stories| - 1];
      assert AllDated(init);
      SortOrdersDated(init);
      SortKeepsDated(init);
      InsertKeepsNewestFirst(SortNewestFirst(init), stories[|stories| - 1]);
    }
  }

  lemma SortKeepsDated(stories: seq<Story>)
    requires AllDated(stories)
    ensures AllDated(SortNewestFirst(stories))
  {
    SortPermutes(stories);
    var r := SortNewestFirst(stories);
    forall i | 0 <= i < |r|
      ensures r[i].doc.createdAt.Some?
    {
      assert r[i] in multiset(stories);
    }
  }

  // ---------------------------------------------------------------------------
  // The component state
  // ---------------------------------------------------------------------------

  /** A document of the query result: its id and its fields. */
  datatype QueryDoc = QueryDoc(id: string, data: StoryDoc)

  class StoriesView {
    var userStories: seq<Story>
    var filteredStories: seq<Story>
    var ageGroupFilter: string
    var themeFilter: string
    var readingLevelFilter: string

    /** Both lists start empty and every filter at `All`. */
    constructor ()
      ensures userStories == [] && filteredStories == []
      ensures ageGroupFilter == All && themeFilter == All && readingLevelFilter == All
    {
      userStories := [];
      filteredStories := [];
      ageGroupFilter := All;
      themeFilter := All;
      readingLevelFilter := All;
    }

    /** `handleFilterChange`: the filters take the arguments and the list is recomputed. */
    method HandleFilterChange(age: string, theme: string, level: string)
      modifies this
      ensures userStories == old(userStories)
      ensures ageGroupFilter == age && themeFilter == theme && readingLevelFilter == level
      ensures filteredStories == Filtered(userStories, age, theme, level)
    {
      var newFilteredStories := userStories;
      if age != All {
        newFilteredStories := Keep(newFilteredStories, AgeGroup, age);
      }
      if theme != All {
        newFilteredStories := Keep(newFilteredStories, Theme, theme);
      }
      if level != All {
        newFilteredStories := Keep(newFilteredStories, ReadingLevel, level);
      }
      ageGroupFilter := age;
      themeFilter := theme;
      readingLevelFilter := level;
      filteredStories := newFilteredStories;
    }

    /**
     * A query snapshot: the documents become stories, are sorted, replace the user's
     * stories, and the effect on `userStories` refilters with the current filters.
     */
    method OnSnapshot(docs: seq<QueryDoc>)
      modifies this
      ensures multiset(userStories) == multiset(Stories(docs))
      ensures AllDated(Stories(docs)) ==> NewestFirst(userStories)
      ensures ageGroupFilter == old(ageGroupFilter) && themeFilter == old(themeFilter)
      ensures readingLevelFilter == old(readingLevelFilter)
      ensures filteredStories == Filtered(userStories, ageGroupFilter, themeFilter, readingLevelFilter)
    {
      var stories: seq<Story> := [];
      for i := 0 to |docs|
        invariant stories == Stories(docs[..i])
        modifies {}
      {
        assert docs[..i + 1][..i] == docs[..i];
        stories := stories + [Story(docs[i].id, docs[i].data)];
      }
      assert docs[..|docs|] == docs;
      userStories := SortNewestFirst(stories);
      SortPermutes(stories);
      if AllDated(stories) {
        SortOrdersDated(stories);
      }
      var age, theme, level := ageGroupFilter, themeFilter, readingLevelFilter;
      HandleFilterChange(age, theme, level);
    }
  }

  /** `{ id: doc.id, ...doc.data() }` for every document, in snapshot order. */
  function Stories(docs: seq<QueryDoc>): (r: seq<Story>)
    ensures |r| == |docs|
  {
    if docs == [] then []
    else Stories(docs[..|docs| - 1]) + [Story(docs[|docs| - 1].id, docs[|docs| - 1].data)]
  }
}
