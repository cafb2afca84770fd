/**
 * The project gallery's filter: the records of the catalog that belong to the
 * selected tab and match the search box, recomputed from (tab, query).
 */
module Gallery {
  import opened Sequences
  import opened Strings
  import opened Catalog

  /** The category step: every record under the "all" tab, otherwise those of the tab's type. */
  predicate InCategory(tab: string, p: Project)
  {
    tab == ALL || p.kind == tab
  }

  /** The fields a query is searched in, in the order they are joined. */
  function Fields(p: Project): seq<string>
  {
    [p.title, p.description] + p.tags + p.tools
  }

  /** The text a query is searched in: the fields space-joined, then lower-cased. */
  function Haystack(p: Project): string
  {
    Lower(Join(Fields(p), " "))
  }

  /** The query as the search compares it: trimmed, then lower-cased. */
  function Normalize(q: string): (r: string)
    ensures r == [] <==> IsBlank(q)
    ensures forall i :: 0 <= i < |r| ==> !('A' <= r[i] <= 'Z')
    ensures r == [] || (!IsSpace(r[0]) && !IsSpace(r[|r| - 1]))
  {
    TrimEmptyIffBlank(q);
    Lower(Trim(q))
  }

  /** The text step, given a normalised query: an empty query passes every record. */
  predicate MatchesQuery(ql: string, p: Project)
  {
    ql == [] || Contains(Haystack(p), ql)
  }

  /** The test a record must pass to be shown: both steps at once. */
  predicate Shown(tab: string, q: string, p: Project)
  {
    InCategory(tab, p) && MatchesQuery(Normalize(q), p)
  }

  /** The three tests as values, for Keep. */
  function CategoryTest(tab: string): Project -> bool
  {
    p => InCategory(tab, p)
  }

  function QueryTest(ql: string): Project -> bool
  {
    p => MatchesQuery(ql, p)
  }

  function ShownTest(tab: string, q: string): Project -> bool
  {
    p => Shown(tab, q, p)
  }

  /**
   * The filtered gallery: the category filter followed by the text filter. It
   * holds the catalog's records that are shown, and every one of them.
   */
  function Filtered(catalog: seq<Project>, tab: string, q: string): (r: seq<Project>)
    ensures |r| <= |catalog|
    ensures forall i :: 0 <= i < |r| ==> r[i] in catalog && Shown(tab, q, r[i])
    ensures forall j :: 0 <= j < |catalog| && Shown(tab, q, catalog[j]) ==> catalog[j] in r
  {
    Keep(Keep(catalog, CategoryTest(tab)), QueryTest(Normalize(q)))
  }

  /** Both steps in a row are one filter by the combined test. */
  lemma FilteredAsOneStep(catalog: seq<Project>, tab: string, q: string)
    ensures Filtered(catalog, tab, q) == Keep(catalog, ShownTest(tab, q))
  {
    KeepKeep(catalog, CategoryTest(tab), QueryTest(Normalize(q)), ShownTest(tab, q));
  }

  /**
   * The gallery is a stable filter of the catalog: a subsequence in the
   * catalog's own order, made of exactly the records that are shown.
   */
  lemma FilteredSelects(catalog: seq<Project>, tab: string, q: string) returns (idx: seq<int>)
    ensures |Filtered(catalog, tab, q)| <= |catalog|
    ensures Selects(Filtered(catalog, tab, q), catalog, idx)
    ensures forall j :: 0 <= j < |catalog| ==> (Shown(tab, q, catalog[j]) <==> j in idx)
  {
    FilteredAsOneStep(catalog, tab, q);
    idx := KeepSelects(catalog, ShownTest(tab, q));
  }

  /** Soundness and completeness: a record is shown exactly when it is in the catalog and passes both steps. */
  lemma FilteredMembership(catalog: seq<Project>, tab: string, q: string, p: Project)
    ensures p in Filtered(catalog, tab, q) <==>
            p in catalog && InCategory(tab, p) && (Normalize(q) == [] || Contains(Haystack(p), Normalize(q)))
  {
    FilteredAsOneStep(catalog, tab, q);
    var r := Keep(catalog, ShownTest(tab, q));
    if p in r {
      var i :| 0 <= i < |r| && r[i] == p;
    }
    if p in catalog && Shown(tab, q, p) {
      var j :| 0 <= j < |catalog| && catalog[j] == p;
    }
  }

  /** Under a category tab every record shown has that category. */
  lemma FilteredCategory(catalog: seq<Project>, tab: string, q: string)
    requires tab != ALL
    ensures forall i :: 0 <= i < |Filtered(catalog, tab, q)| ==> Filtered(catalog, tab, q)[i].kind == tab
  {
    var r := Filtered(catalog, tab, q);
    forall i | 0 <= i < |r|
      ensures r[i].kind == tab
    {
      FilteredMembership(catalog, tab, q, r[i]);
    }
  }

  /** Under the "all" tab the category step excludes nothing. */
  lemma AllTabKeepsEveryCategory(catalog: seq<Project>, q: string)
    ensures Keep(catalog, CategoryTest(ALL)) == catalog
    ensures Filtered(catalog, ALL, q) == Keep(catalog, QueryTest(Normalize(q)))
  {
    KeepAll(catalog, CategoryTest(ALL));
  }

  /** With an empty search box the gallery is the tab's records, in catalog order. */
  lemma EmptyQuery(catalog: seq<Project>, tab: string)
    ensures Filtered(catalog, tab, "") == Keep(catalog, CategoryTest(tab))
  {
    assert IsBlank("");
    var ql := Normalize("");
    assert ql == [];
    var r := Keep(catalog, CategoryTest(tab));
    KeepAll(r, QueryTest(ql));
  }

  /** A query of white space only is trimmed away: it filters like the empty query. */
  lemma BlankQuery(catalog: seq<Project>, tab: string, q: string)
    requires IsBlank(q)
    ensures Filtered(catalog, tab, q) == Filtered(catalog, tab, "")
  {
    TrimEmptyIffBlank(q);
    assert Normalize(q) == Normalize("") == [];
  }

  /** Queries that differ only in letter case show the same records. */
  lemma CaseInsensitive(catalog: seq<Project>, tab: string, q1: string, q2: string)
    requires Lower(q1) == Lower(q2)
    ensures Filtered(catalog, tab, q1) == Filtered(catalog, tab, q2)
  {
    NormalizedCaseInsensitive(q1, q2);
  }

  /** Filtering the gallery again with the same tab and query changes nothing. */
  lemma FilteredIdempotent(catalog: seq<Project>, tab: string, q: string)
    ensures Filtered(Filtered(catalog, tab, q), tab, q) == Filtered(catalog, tab, q)
  {
    FilteredAsOneStep(catalog, tab, q);
    FilteredAsOneStep(Filtered(catalog, tab, q), tab, q);
    KeepIdempotent(catalog, ShownTest(tab, q));
  }

  /** The "no results" message shows exactly when no record of the catalog passes both steps. */
  lemma NoResults(catalog: seq<Project>, tab: string, q: string)
    ensures |Filtered(catalog, tab, q)| == 0 <==> forall j :: 0 <= j < |catalog| ==> !Shown(tab, q, catalog[j])
  {
    FilteredAsOneStep(catalog, tab, q);
    var test := ShownTest(tab, q);
    var r := Keep(catalog, test);
    if r != [] {
      assert r[0] in catalog && test(r[0]);
      var j :| 0 <= j < |catalog| && catalog[j] == r[0];
      assert Shown(tab, q, catalog[j]);
    } else {
      forall j | 0 <= j < |catalog|
        ensures !Shown(tab, q, catalog[j])
      {
        assert catalog[j] !in r;
      }
    }
  }

  /** A normalised query found in any one field, lower-cased, matches the record. */
  lemma FieldMatch(p: Project, ql: string, k: int)
    requires 0 <= k < |Fields(p)| && Contains(Lower(Fields(p)[k]), ql)
    ensures MatchesQuery(ql, p)
  {
    var before, after := JoinInfix(Fields(p), " ", k);
    LowerAppend(before + Fields(p)[k], after);
    LowerAppend(before, Fields(p)[k]);
    ContainsInfix(Lower(before), Lower(Fields(p)[k]), Lower(after), ql);
  }

  /**
   * A record none of whose lower-cased fields has the query's first two
   * characters side by side does not match it: the joining spaces cannot
   * create the pair.
   */
  lemma PairAbsentExcludes(p: Project, ql: string)
    requires |ql| >= 2 && ql[0] != ' ' && ql[1] != ' '
    requires forall k :: 0 <= k < |Fields(p)| ==> NoPair(Lower(Fields(p)[k]), ql[0], ql[1])
    ensures !MatchesQuery(ql, p)
  {
    LowerJoin(Fields(p), " ");
    assert Lower(" ") == " ";
    NoPairJoin(LowerAll(Fields(p)), " ", ql[0], ql[1]);
    NoPairNotContains(Haystack(p), ql);
  }
}
