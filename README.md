# Portfolio gallery — a Dafny model

This project models the logic of a one-page personal portfolio, a React component in `src/App.jsx`. The model covers:

- **The catalog.** Six fixed project records and the five category tabs ("all", "video", "audio", "design", "writing"). See `catalog.dfy`.
- **The gallery filter.** The category filter runs first. Then a text filter matches the trimmed, lower-cased search text, as a substring, against the record's title, description, tags and tools, joined by spaces and lower-cased. An empty search text matches everything. See `gallery.dfy`, which builds on `sequences.dfy` (the stable filter `Keep`, standing for `Array.prototype.filter`) and `strings.dfy` (`trim`, ASCII `toLowerCase`, `includes`, `join`, and a one-character `Split` used only to state that `classNames`' join can be undone).
- **The `classNames` helper.** It keeps the truthy arguments and joins them with single spaces. See `styling.dfy`.
- **The colour theme.** Its initial value comes from the dark-scheme preference, and the header button toggles it. See `theme.dfy`.
- **The page state.** One cell each for the theme, the selected tab, the search text and the project open in the detail dialog. Each event handler overwrites its own cell. See `portfolio.dfy`, class `State`.
- **Two concrete searches on the real catalog.** The "audio" tab, and the query "motion" under "all". See `scenarios.dfy`.

Two behaviours of the code worth knowing:

- **The "motion" search.** Under "all", searching "motion" shows the design record p04 and also the video record p06, whose description contains the word "motion". `Scenarios.MotionSearch` proves that the result is `[P04, P06]`.
- **The theme toggle.** The toggle maps "dark" to "light" and any other value to "dark" (`Theme.Toggled`).

## Model

| member | source | states |
|---|---|---|
| Catalog.CatalogWellFormed | src/App.jsx:14-101 | The six records have distinct ids. Every record's `type` is one of the tab keys and is never "all". |
| Sequences.Keep | src/App.jsx:129 | `filter` keeps only elements of the input that pass the test, and keeps every element that passes. The result is never longer than the input. |
| Sequences.KeepSelects | src/App.jsx:129 | `filter` returns a subsequence of the input in the input's order: strictly increasing indices select exactly the elements that pass the test. |
| Sequences.KeepKeep | src/App.jsx:129-136 | Two filters in a row equal one filter by the conjunction of their tests. |
| Sequences.KeepAppend | src/App.jsx:129 | Filtering a concatenation is the concatenation of the filtered parts. |
| Sequences.KeepAll | src/App.jsx:129 | A test that every element passes leaves the array unchanged. |
| Strings.LowerChar | src/App.jsx:128 | Lower-casing leaves no ASCII capital, changes only capitals (each to the letter 32 code points higher), and keeps white space as white space. |
| Strings.Lower | src/App.jsx:128 | `toLowerCase`, defined character by character with `LowerChar`. Its properties are stated by `Strings.LowerChar`, `Strings.LowerTrim` and `Strings.LowerJoin`. |
| Strings.TrimStart | src/App.jsx:128 | The result is a suffix of the input. Everything removed is white space, and the result does not start with white space. |
| Strings.TrimEnd | src/App.jsx:128 | The result is a prefix of the input. Everything removed is white space, and the result does not end with white space. |
| Strings.Trim | src/App.jsx:128 | `trim`: the result is no longer than the input, and it neither starts nor ends with white space. `Strings.TrimSlice` shows that it is the input's middle slice. |
| Strings.TrimSlice | src/App.jsx:128 | `trim` returns the slice between the first and the last non-space character. Everything outside that slice is white space. |
| Strings.TrimEmptyIffBlank | src/App.jsx:128-130 | The trimmed text is empty exactly when the text is all white space (both directions). |
| Strings.LowerTrim | src/App.jsx:128 | Trimming and lower-casing commute. |
| Strings.NormalizedCaseInsensitive | src/App.jsx:128 | Two texts with the same lower-case form have the same trimmed lower-case form. |
| Strings.Join | src/App.jsx:104 | `join(sep)`: the pieces in order with the separator between neighbours. `Strings.SplitJoin`, `Strings.JoinInfix` and `Strings.LowerJoin` state its properties. |
| Strings.Contains | src/App.jsx:134 | `includes`: the needle occurs as a contiguous run. `Strings.ContainsInfix` and `Strings.NoPairNotContains` state when it holds and when it does not. |
| Strings.SplitJoin | src/App.jsx:104 | Splitting a non-empty list joined by a separator character, where no piece contains that character, gives back the list. |
| Strings.LowerJoin | src/App.jsx:132-133 | Lower-casing a joined text equals joining the lower-cased pieces with the lower-cased separator. |
| Strings.JoinInfix | src/App.jsx:131-132 | Every piece of a join appears in the joined text, between a prefix and a suffix. |
| Strings.ContainsInfix | src/App.jsx:134 | A text that contains the needle is still contained after anything is put before or after it. |
| Strings.NoPairNotContains | src/App.jsx:134 | A text in which the needle's first two characters never stand side by side does not contain the needle. |
| Strings.NoPairJoin | src/App.jsx:131-132 | Joining with a separator free of those two characters creates no new adjacent pair. |
| Gallery.InCategory | src/App.jsx:129 | The category test: every record under "all", otherwise the records of the tab's type. `Gallery.FilteredCategory` and `Gallery.AllTabKeepsEveryCategory` state its effect on the gallery. |
| Gallery.Normalize | src/App.jsx:128 | The query as compared: empty exactly when the raw query is all white space, free of ASCII capitals, and neither starting nor ending with white space. |
| Gallery.Fields | src/App.jsx:131 | The searched fields in join order: title, description, the tags, the tools. `Gallery.FieldMatch` states that a match in any one of them counts. |
| Gallery.Haystack | src/App.jsx:131-133 | The fields space-joined, then lower-cased. `Gallery.FieldMatch` and `Gallery.PairAbsentExcludes` state what it contains. |
| Gallery.MatchesQuery | src/App.jsx:130-135 | The text test: an empty normalised query passes every record, otherwise the haystack must contain it. `Gallery.EmptyQuery` and `Gallery.BlankQuery` state the empty case. |
| Gallery.Filtered | src/App.jsx:127-137 | The gallery: never longer than the catalog, every record in it is a catalog record that passes both tests, and every catalog record that passes both is in it. `Gallery.FilteredSelects` adds the catalog order. |
| Gallery.FilteredAsOneStep | src/App.jsx:127-137 | The category filter followed by the text filter equals one filter by "shown" (category and query both pass). |
| Gallery.FilteredSelects | src/App.jsx:127-137 | The gallery is a stable subsequence of the catalog, never longer than it. It holds exactly the records that pass both steps (both directions). |
| Gallery.FilteredMembership | src/App.jsx:127-137 | A record is in the gallery exactly when it is in the catalog, matches the tab, and either the normalised query is empty or the record's lower-cased joined fields contain it. |
| Gallery.FilteredCategory | src/App.jsx:129 | Under a category tab every record shown has that category. |
| Gallery.AllTabKeepsEveryCategory | src/App.jsx:129 | Under "all" the category step excludes nothing, so only the text filter applies. |
| Gallery.EmptyQuery | src/App.jsx:130-135 | With an empty search text the gallery is the tab's records in catalog order. |
| Gallery.BlankQuery | src/App.jsx:128-130 | A search text made only of white space filters like the empty one. |
| Gallery.CaseInsensitive | src/App.jsx:128-133 | Search texts that differ only in letter case show the same records. |
| Gallery.FilteredIdempotent | src/App.jsx:127-137 | Filtering the gallery again with the same tab and query changes nothing. |
| Gallery.NoResults | src/App.jsx:265-267 | The "No results" message appears exactly when no catalog record passes both steps. |
| Gallery.FieldMatch | src/App.jsx:131-134 | A query found in any single lower-cased field (title, description, a tag or a tool) matches the record. |
| Gallery.PairAbsentExcludes | src/App.jsx:131-134 | A record in which no lower-cased field has the query's first two characters side by side does not match, because the joining spaces cannot create that pair. |
| Scenarios.AudioTab | src/App.jsx:14-87 | The "audio" tab with an empty search shows p01 and p03, in that order. |
| Scenarios.MotionSearch | src/App.jsx:14-87 | Under "all", the search "motion" shows p04 and p06, in that order. |
| Styling.Truthy | src/App.jsx:104 | `filter(Boolean)`'s test: non-empty strings and `true`. `Styling.ClassNamesEmpty` states its effect. |
| Styling.ClassNames | src/App.jsx:103-105 | The truthy arguments joined by single spaces. `Styling.ClassNamesTokens` and `Styling.ClassNamesEmpty` state its properties. |
| Styling.ClassNamesTokens | src/App.jsx:103-105 | Splitting `classNames`' result on spaces, without empty pieces, gives back the truthy arguments in their order (when no argument contains a space). |
| Styling.ClassNamesEmpty | src/App.jsx:103-105 | `classNames` returns the empty string exactly when no argument is truthy. |
| Theme.InitialTheme | src/App.jsx:107-112 | The initial theme is "dark" or "light", and it is "dark" exactly when the dark colour scheme is preferred. |
| Theme.Toggled | src/App.jsx:157 | A toggle always yields a theme that differs from the current value, and any value other than "dark" becomes "dark". |
| Theme.ToggleInvolution | src/App.jsx:157 | Two toggles from either theme return to it. |
| Theme.ToggleNormalizes | src/App.jsx:157 | After one toggle from any value the theme is valid, and from then on it alternates. |
| Portfolio.State.constructor | src/App.jsx:107-125 | The page starts on the "all" tab, with an empty search text, no dialog, and the initial theme. |
| Portfolio.State.SetTab | src/App.jsx:213 | Choosing a tab sets the selected tab. The state stays valid. |
| Portfolio.State.SetQuery | src/App.jsx:228 | Typing stores the raw, untrimmed text. |
| Portfolio.State.Select | src/App.jsx:239 | Clicking a card opens the dialog on that project: the slot holds it and the dialog is open. |
| Portfolio.State.Dismiss | src/App.jsx:329 | Closing the dialog empties the slot and the dialog is closed. |
| Portfolio.State.ToggleTheme | src/App.jsx:157 | The theme becomes the toggle of the old one and stays valid. |
| Portfolio.State.ToggleThemeTwice | src/App.jsx:157 | On any valid page two presses of the theme button restore the theme. |
| Portfolio.State.Visible | src/App.jsx:127-137 | The memoised `filtered` for the current tab and query: only catalog records that pass both the category test and the query test, and every catalog record that passes both. |
| Portfolio.State.DialogOpen | src/App.jsx:329 | `open={!!active}`: the dialog is open exactly when a project is active. `Portfolio.State.Select` and `Portfolio.State.Dismiss` ensure it is open and closed. |
| Portfolio.SelectThenDismiss | src/App.jsx:239-329 | Opening a card, then closing it: the slot holds the card, then nothing, and the dialog is open, then closed. |
| Portfolio.ToggleTwice | src/App.jsx:107-157 | One press moves to the other theme; a second press returns to the initial theme. |
| Portfolio.RetypeInOtherCase | src/App.jsx:127-137 | Replacing the search text with one that differs only in letter case leaves the gallery unchanged. |

## Left out

- Lower-casing is modelled for ASCII capitals only. Full Unicode `toLowerCase` (accented letters, special cases) is not modelled. The catalog's non-ASCII characters (dashes, quotes) have no case.
- `trim` is modelled over code points. JavaScript works on UTF-16 units. Every white-space character `trim` removes is a single unit, so the two agree.
- The page never splits a string. `Strings.Split` is a helper that splits on one character. It exists only so that `Styling.ClassNamesTokens` can state that `classNames`' join can be undone, and it has no row of its own.
- Styling: numeric and object arguments of `classNames` are not modelled. The model covers strings, booleans, `null` and `undefined`.
- The `tags || []` and `tools || []` guards are not modelled: every record in the catalog has both arrays.
- The effect that adds or removes the `dark` class on the document root is not modelled. It is DOM output.
- The `matchMedia` query is a boolean parameter (`prefersDark`). A missing window or `matchMedia` counts as false.
- React's `useState`, `useMemo` and `useEffect` are not modelled. The state is the `State` class, and the memoised gallery is the function `State.Visible`, recomputed from the current cells.
- Not modelled: the JSX markup, the animations, the socials list, the hero, about and contact sections, and the language button, which has no handler.
- The search for a text that matches nothing is covered in general by `Gallery.NoResults`. It is not evaluated on the concrete catalog.
