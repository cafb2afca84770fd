/**
 * The gallery filter on the portfolio's own catalog: the audio tab, and the
 * search for "motion" under the "all" tab.
 */
module Scenarios {
  import opened Sequences
  import opened Strings
  import opened Catalog
  import opened Gallery

  /** The catalog filtered by any test that passes exactly p01 and p03. */
  lemma KeepP01P03(f: Project -> bool)
    requires f(P01) && !f(P02) && f(P03) && !f(P04) && !f(P05) && !f(P06)
    ensures Keep(PROJECTS, f) == [P01, P03]
  {
    var s := PROJECTS;
    KeepStep(s[5..], f);
    assert s[5..][1..] == [];
    KeepStep(s[4..], f);
    KeepStep(s[3..], f);
    assert Keep(s[3..], f) == [];
    KeepStep(s[2..], f);
    KeepStep(s[1..], f);
    KeepStep(s, f);
  }

  /** The audio tab with an empty search box shows p01 and p03, in that order. */
  lemma AudioTab()
    ensures Filtered(PROJECTS, "audio", "") == [P01, P03]
  {
    EmptyQuery(PROJECTS, "audio");
    KeepP01P03(CategoryTest("audio"));
  }

  /** No "m" followed by "o" once lower-cased. */
  predicate FreeOfMo(s: string)
  {
    forall i :: 0 <= i < |s| - 1 ==> !(LowerChar(s[i]) == 'm' && LowerChar(s[i + 1]) == 'o')
  }

  lemma FreeOfMoLower(s: string)
    requires FreeOfMo(s)
    ensures NoPair(Lower(s), 'm', 'o')
  {
  }

  /** "motion" has nothing to trim and nothing to lower-case. */
  lemma MotionNormalized()
    ensures Normalize("motion") == "motion"
  {
    var m := "motion";
    assert !IsSpace(m[0]) && !IsSpace(m[|m| - 1]);
    assert TrimStart(m) == m;
    assert TrimEnd(m) == m;
  }

  /** Joining at a space cannot create the pair "mo". */
  lemma FreeOfMoConcat(a: string, b: string)
    requires FreeOfMo(a) && FreeOfMo(b)
    requires a != [] && a[|a| - 1] == ' '
    ensures FreeOfMo(a + b)
  {
    forall i | 0 <= i < |a + b| - 1
      ensures !(LowerChar((a + b)[i]) == 'm' && LowerChar((a + b)[i + 1]) == 'o')
    {
      if i < |a| - 1 {
        assert (a + b)[i] == a[i] && (a + b)[i + 1] == a[i + 1];
      } else if i >= |a| {
        assert (a + b)[i] == b[i - |a|] && (a + b)[i + 1] == b[i + 1 - |a|];
      }
    }
  }

  /** A record none of whose fields holds "mo", in any letter case, does not match "motion". */
  lemma MissesMotion(p: Project)
    requires forall k :: 0 <= k < |Fields(p)| ==> FreeOfMo(Fields(p)[k])
    ensures !MatchesQuery("motion", p)
  {
    forall k | 0 <= k < |Fields(p)|
      ensures NoPair(Lower(Fields(p)[k]), 'm', 'o')
    {
      FreeOfMoLower(Fields(p)[k]);
    }
    PairAbsentExcludes(p, "motion");
  }

  // The texts of p01, p02, p03 and p05, piece by piece, are free of "mo".
  lemma P01Title() ensures FreeOfMo("Creative Inside \U{2013} Podcast Episode 1") {}
  lemma P01DescriptionPart1() ensures FreeOfMo("Launch episode for a company culture ") {}
  lemma P01DescriptionPart2() ensures FreeOfMo("podcast. I handled format design, ") {}
  lemma P01DescriptionPart3() ensures FreeOfMo("recording chain, post, and show notes.") {}
  lemma P01Tags() ensures forall k :: 0 <= k < |P01.tags| ==> FreeOfMo(P01.tags[k]) {}
  lemma P01Tools() ensures forall k :: 0 <= k < |P01.tools| ==> FreeOfMo(P01.tools[k]) {}

  lemma P02Title() ensures FreeOfMo("Short-form Ad \U{2013} RCE Campaign") {}
  lemma P02DescriptionPart1() ensures FreeOfMo("15s cutdown for a restaurant group. ") {}
  lemma P02DescriptionPart2() ensures FreeOfMo("Deliverables for TikTok/Reels with SRT ") {}
  lemma P02DescriptionPart3() ensures FreeOfMo("captions and brand-safe sound mix.") {}
  lemma P02Tags() ensures forall k :: 0 <= k < |P02.tags| ==> FreeOfMo(P02.tags[k]) {}
  lemma P02Tools() ensures forall k :: 0 <= k < |P02.tools| ==> FreeOfMo(P02.tools[k]) {}

  lemma P03TitlePart1() ensures FreeOfMo("\U{2018}Filtervrij\U{2019} \U{2013} ") {}
  lemma P03TitlePart2() ensures FreeOfMo("Social Media & Mental Health") {}
  lemma P03DescriptionPart1() ensures FreeOfMo("Podcast concept with recurring ") {}
  lemma P03DescriptionPart2() ensures FreeOfMo("segments: Kletskousen, Tegenpool, Tips ") {}
  lemma P03DescriptionPart3() ensures FreeOfMo("& Tricks. I co-created and engineered.") {}
  lemma P03Tags() ensures forall k :: 0 <= k < |P03.tags| ==> FreeOfMo(P03.tags[k]) {}
  lemma P03Tools() ensures forall k :: 0 <= k < |P03.tools| ==> FreeOfMo(P03.tools[k]) {}

  lemma P05Title() ensures FreeOfMo("Interactive Article \U{2013} AI Artists Label") {}
  lemma P05DescriptionPart1() ensures FreeOfMo("Explainer on ethical AI artistry and ") {}
  lemma P05DescriptionPart2() ensures FreeOfMo("label operations with embedded audio ") {}
  lemma P05DescriptionPart3() ensures FreeOfMo("examples.") {}
  lemma P05Tags() ensures forall k :: 0 <= k < |P05.tags| ==> FreeOfMo(P05.tags[k]) {}
  lemma P05Tools() ensures forall k :: 0 <= k < |P05.tools| ==> FreeOfMo(P05.tools[k]) {}

  lemma P01MissesMotion()
    ensures !MatchesQuery("motion", P01)
  {
    P01Title();
    P01DescriptionPart1(); P01DescriptionPart2(); P01DescriptionPart3();
    FreeOfMoConcat("Launch episode for a company culture ", "podcast. I handled format design, ");
    FreeOfMoConcat("Launch episode for a company culture " + "podcast. I handled format design, ", "recording chain, post, and show notes.");
    P01Tags(); P01Tools();
    MissesMotion(P01);
  }

  lemma P02MissesMotion()
    ensures !MatchesQuery("motion", P02)
  {
    P02Title();
    P02DescriptionPart1(); P02DescriptionPart2(); P02DescriptionPart3();
    FreeOfMoConcat("15s cutdown for a restaurant group. ", "Deliverables for TikTok/Reels with SRT ");
    FreeOfMoConcat("15s cutdown for a restaurant group. " + "Deliverables for TikTok/Reels with SRT ", "captions and brand-safe sound mix.");
    P02Tags(); P02Tools();
    MissesMotion(P02);
  }

  lemma P03MissesMotion()
    ensures !MatchesQuery("motion", P03)
  {
    P03TitlePart1(); P03TitlePart2();
    FreeOfMoConcat("\U{2018}Filtervrij\U{2019} \U{2013} ", "Social Media & Mental Health");
    P03DescriptionPart1(); P03DescriptionPart2(); P03DescriptionPart3();
    FreeOfMoConcat("Podcast concept with recurring ", "segments: Kletskousen, Tegenpool, Tips ");
    FreeOfMoConcat("Podcast concept with recurring " + "segments: Kletskousen, Tegenpool, Tips ", "& Tricks. I co-created and engineered.");
    P03Tags(); P03Tools();
    MissesMotion(P03);
  }

  lemma P05MissesMotion()
    ensures !MatchesQuery("motion", P05)
  {
    P05Title();
    P05DescriptionPart1(); P05DescriptionPart2(); P05DescriptionPart3();
    FreeOfMoConcat("Explainer on ethical AI artistry and ", "label operations with embedded audio ");
    FreeOfMoConcat("Explainer on ethical AI artistry and " + "label operations with embedded audio ", "examples.");
    P05Tags(); P05Tools();
    MissesMotion(P05);
  }

  /** p04 has "Motion" in its title. */
  lemma P04MatchesMotion()
    ensures MatchesQuery("motion", P04)
  {
    var t := "Motion Ident \U{2013} LindenSteensma";
    assert P04.title == t;
    var l := Lower(t);
    assert l[0] == 'm' && l[1] == 'o' && l[2] == 't' && l[3] == 'i' && l[4] == 'o' && l[5] == 'n';
    assert l[0..][..6] == "motion";
    FieldMatch(P04, "motion", 0);
  }

  /** p06 has "motion" in its description. */
  lemma P06MatchesMotion()
    ensures MatchesQuery("motion", P06)
  {
    var a, b, c := "Highlights of cross\U{2011}disciplinary course ", "work: docu, social edits, motion, and ", "podcasting.";
    assert Lower(b)[26..][..6] == "motion";
    LowerAppend(a, b);
    LowerAppend(a + b, c);
    ContainsInfix(Lower(a), Lower(b), Lower(c), "motion");
    FieldMatch(P06, "motion", 1);
  }

  /** Which records the "all" tab shows for "motion". */
  lemma MotionTests()
    ensures !ShownTest(ALL, "motion")(P01) && !ShownTest(ALL, "motion")(P02)
    ensures !ShownTest(ALL, "motion")(P03) && ShownTest(ALL, "motion")(P04)
    ensures !ShownTest(ALL, "motion")(P05) && ShownTest(ALL, "motion")(P06)
  {
    P01MissesMotion();
    MotionHidden(P01);
    P02MissesMotion();
    MotionHidden(P02);
    P03MissesMotion();
    MotionHidden(P03);
    P04MatchesMotion();
    MotionShown(P04);
    P05MissesMotion();
    MotionHidden(P05);
    P06MatchesMotion();
    MotionShown(P06);
  }

  /** Under the "all" tab a record is shown for "motion" when its text contains "motion"... */
  lemma MotionShown(p: Project)
    requires MatchesQuery("motion", p)
    ensures ShownTest(ALL, "motion")(p)
  {
    MotionNormalized();
  }

  /** ...and hidden when it does not. */
  lemma MotionHidden(p: Project)
    requires !MatchesQuery("motion", p)
    ensures !ShownTest(ALL, "motion")(p)
  {
    MotionNormalized();
  }

  /** The catalog filtered by any test that passes exactly p04 and p06. */
  lemma KeepP04P06(f: Project -> bool)
    requires !f(P01) && !f(P02) && !f(P03) && f(P04) && !f(P05) && f(P06)
    ensures Keep(PROJECTS, f) == [P04, P06]
  {
    var s := PROJECTS;
    KeepStep(s[5..], f);
    assert s[5..][1..] == [];
    assert Keep(s[5..], f) == [P06];
    KeepStep(s[4..], f);
    KeepStep(s[3..], f);
    assert Keep(s[3..], f) == [P04, P06];
    KeepStep(s[2..], f);
    KeepStep(s[1..], f);
    KeepStep(s, f);
  }

  /** Under the "all" tab, searching "motion" shows p04 and p06, in that order. */
  lemma MotionSearch()
    ensures Filtered(PROJECTS, ALL, "motion") == [P04, P06]
  {
    FilteredAsOneStep(PROJECTS, ALL, "motion");
    MotionTests();
    KeepP04P06(ShownTest(ALL, "motion"));
  }
}
