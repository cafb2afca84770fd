/**
 * The portfolio's data: the project records shown in the gallery and the
 * categories offered by its tabs. Both are fixed when the page is built.
 */
module Catalog {

  /** The icon drawn on a project's link button. */
  datatype Icon = Play | FileText

  /** A link button of the detail dialog: its label (`label` is reserved in Dafny), target and icon. */
  datatype Link = Link(text: string, href: string, icon: Icon)

  /**
   * One project of the gallery. `kind` holds the record's `type` field, a word
   * Dafny reserves.
   */
  datatype Project = Project(
    id: string,
    title: string,
    kind: string,
    year: int,
    tools: seq<string>,
    tags: seq<string>,
    cover: string,
    description: string,
    links: seq<Link>)

  /** A tab of the gallery: the value it selects and its caption (`label` is reserved in Dafny). */
  datatype Tab = Tab(key: string, caption: string)

  /** The selector value that stands for every category. */
  const ALL := "all"

  const TYPES: seq<Tab> := [
    Tab(ALL, "All"),
    Tab("video", "Video"),
    Tab("audio", "Audio"),
    Tab("design", "Design"),
    Tab("writing", "Writing")
  ]

  /** The selector values the tabs can produce. */
  predicate IsTabKey(key: string)
  {
    exists k :: 0 <= k < |TYPES| && TYPES[k].key == key
  }

  // Long texts are written as concatenations of short literals: the same
  // strings, in pieces the verifier can read character by character.

  const P01 := Project(
    "p01",
    "Creative Inside \U{2013} Podcast Episode 1",
    "audio",
    2025,
    ["Reaper", "RX", "Premiere"],
    ["Podcast", "Interview", "Editing"],
    "https://images.unsplash.com/photo-1517694712202-14dd9538aa97?q=80&w=1600&auto=format&fit=crop",
    "Launch episode for a company culture " +
    "podcast. I handled format design, " +
    "recording chain, post, and show notes.",
    [Link("Listen", "#", Play)])

  const P02 := Project(
    "p02",
    "Short-form Ad \U{2013} RCE Campaign",
    "video",
    2025,
    ["DaVinci Resolve", "After Effects"],
    ["Commercial", "Editing", "Color"],
    "https://images.unsplash.com/photo-1515378791036-0648a3ef77b2?q=80&w=1600&auto=format&fit=crop",
    "15s cutdown for a restaurant group. " +
    "Deliverables for TikTok/Reels with SRT " +
    "captions and brand-safe sound mix.",
    [Link("Watch", "#", Play)])

  const P03 := Project(
    "p03",
    "\U{2018}Filtervrij\U{2019} \U{2013} " + "Social Media & Mental Health",
    "audio",
    2024,
    ["Audition", "Notion", "Figma"],
    ["Podcast", "Production", "Branding"],
    "https://images.unsplash.com/photo-1505740420928-5e560c06d30e?q=80&w=1600&auto=format&fit=crop",
    "Podcast concept with recurring " +
    "segments: Kletskousen, Tegenpool, Tips " +
    "& Tricks. I co-created and engineered.",
    [Link("Listen", "#", Play)])

  const P04 := Project(
    "p04",
    "Motion Ident \U{2013} LindenSteensma",
    "design",
    2025,
    ["After Effects", "Illustrator"],
    ["Branding", "Motion"],
    "https://images.unsplash.com/photo-1545235617-9465d2a55698?q=80&w=1600&auto=format&fit=crop",
    "A crisp motion ident for a creative " +
    "agency podcast. Focus on clean geometry " +
    "and audio sync.",
    [Link("Case Study", "#", FileText)])

  const P05 := Project(
    "p05",
    "Interactive Article \U{2013} AI Artists Label",
    "writing",
    2024,
    ["Svelte", "Markdown"],
    ["Web", "Storytelling"],
    "https://images.unsplash.com/photo-1526378722484-bd91ca387e72?q=80&w=1600&auto=format&fit=crop",
    "Explainer on ethical AI artistry and " +
    "label operations with embedded audio " +
    "examples.",
    [Link("Read", "#", FileText)])

  const P06 := Project(
    "p06",
    "University Reel \U{2013} 2025 Showreel",
    "video",
    2025,
    ["Premiere", "Resolve"],
    ["Montage", "Sound Design"],
    "https://images.unsplash.com/photo-1526312426976-593c12823ce0?q=80&w=1600&auto=format&fit=crop",
    "Highlights of cross\U{2011}disciplinary course " +
    "work: docu, social edits, motion, and " +
    "podcasting.",
    [Link("Watch", "#", Play)])

  const PROJECTS: seq<Project> := [P01, P02, P03, P04, P05, P06]

  /**
   * The catalog keeps the record invariants: identifiers are unique and every
   * record's category is one of the tabs other than the "all" selector.
   */
  lemma CatalogWellFormed()
    ensures forall i, j :: 0 <= i < j < |PROJECTS| ==> PROJECTS[i].id != PROJECTS[j].id
    ensures forall i :: 0 <= i < |PROJECTS| ==> IsTabKey(PROJECTS[i].kind) && PROJECTS[i].kind != ALL
  {
    assert TYPES[1].key == "video" && TYPES[2].key == "audio";
    assert TYPES[3].key == "design" && TYPES[4].key == "writing";
  }
}
