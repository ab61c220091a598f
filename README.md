# Job board filter: a Dafny model

This project models the filtering and rendering logic in `script.js`, the front-end script of a static job board. The page shows a list of job postings. A visitor narrows the list with three inputs: a row of type chips ("all", "Full-time", "Part-time", …), a location select and a free-text keyword. The model covers the following:

- **`matchesFilters`** is the function `Filtering.MatchesFilters`. The global `activeType` and the two DOM inputs become the fields of an explicit `FilterState`. It rejects a posting on its type (case-sensitive, unless the chip is "all"), then on its location (unless the select is empty), then on the keyword. The keyword check searches for the trimmed, lower-cased keyword in the lower-cased run-together text `title + company + description`.
- **`jobs.filter(matchesFilters)`** is the recursive function `Filtering.Filter`. Lemmas state exactly what it keeps and in which order.
- **`renderJobs`** is the method `Board.JobBoard.Render`. A class field holds the container as the sequence of postings whose cards it shows, filled by a loop. The "no results" indicator is a boolean field.
- **The chip click handler** is `Board.JobBoard.SelectChip`. It works over an array of `active` flags: one loop clears every flag, then the clicked chip's flag is set, its `data-type` is stored in `activeType`, and the list is re-rendered.
- **The search button and the Enter key** are `Search` and `KeyDown`. Both re-render; `KeyDown` does so only for "Enter".
- **String operations** live in `Text`: `trim` strips ECMAScript's WhiteSpace and LineTerminator code points, `toLowerCase` folds ASCII letters only, and `includes` is substring search.
- **Sample data.** The five postings hard-coded in the script are in `Scenarios`. They serve as concrete test vectors.

Modules: `Text` (`text.dfy`), `Filtering` (`filtering.dfy`), `Board` (`board.dfy`), `Scenarios` (`scenarios.dfy`).

### Behaviour of `script.js` worth noting

- The keyword is searched only in `title + company + description`, run together with no separator (lines 125-126). The `skills` of a posting are never searched. `Filtering.SkillsNotSearched` states that skills never affect the verdict.
- The "no results" indicator is shown whenever the filtered list is empty, and that includes an empty job list (lines 143-145). `Board.JobBoard.Render` and the constructor state this.
- The job list is a static array (line 7). Nothing is loaded, so there are no loading or error states. The apply button always sets `window.location.href` to the posting's `applyLink` (line 185).

## Model

| member | source | states |
|---|---|---|
| Text.Trim | script.js:110 | `trim()` returns a slice of its input whose first and last characters are not whitespace |
| Text.TrimSplit | script.js:110 | the input is the trimmed string with whitespace only before and after it |
| Text.TrimEmptyIffBlank | script.js:110 | trimming leaves the empty string exactly when the input is all whitespace |
| Text.TrimUnique | script.js:110 | any string framed by whitespace, whose own ends are not whitespace, is what `trim()` returns |
| Text.TrimIgnoresPadding | script.js:110 | adding whitespace on either side never changes what `trim()` returns |
| Text.TrimIdempotent | script.js:110 | trimming twice is trimming once |
| Text.TrimLowerCommute | script.js:110 | lower-casing and trimming commute |
| Text.Lower | script.js:110 | `toLowerCase()` keeps the length, folds each character in place, and leaves no upper-case letter |
| Text.LowerChar | script.js:126 | folding gives no upper-case letter, maps `A`-`Z` to `a`-`z`, keeps every other character, and never creates or removes whitespace |
| Text.LowerIdempotent | script.js:126 | folding twice is folding once |
| Text.LeadingWhitespace | script.js:110 | counts exactly the whitespace run that starts the string |
| Text.TrailingWhitespace | script.js:110 | counts exactly the whitespace run that ends the string |
| Text.Contains | script.js:127 | `includes` is true exactly when the needle occurs at some offset of the haystack |
| Text.ContainsSelfAndEmpty | script.js:124-130 | the empty keyword occurs in every text, so skipping the search for a blank keyword changes nothing |
| Text.ContainsTransitive | script.js:127 | a text containing a longer keyword also contains every piece of it |
| Text.TrimmedSliceContained | script.js:110 | any piece of a text, trimmed and lower-cased, occurs in the lower-cased text |
| Filtering.NormalizedKeyword | script.js:110 | the compared keyword is no longer than the raw input, has no upper-case letter and does not start or end with whitespace, and it is empty exactly when the input is blank |
| Filtering.MatchesFilters | script.js:109-133 | a posting passes exactly when its type, location and keyword checks all pass; a type other than "all" that differs from the posting's rejects it, a non-empty location that differs rejects it, and a blank keyword rejects nothing |
| Filtering.KeywordCaseInsensitive | script.js:110 | two keywords that differ only in letter case give the same verdict |
| Filtering.KeywordPaddingIgnored | script.js:110 | whitespace around the keyword never changes the verdict |
| Filtering.KeywordFromSearchTextMatches | script.js:124-130 | any keyword that folds to the same text as a piece of `title + company + description` finds the posting when type and location pass, whatever the case of its letters |
| Filtering.SkillsNotSearched | script.js:123-130 | the skills of a posting never change the verdict |
| Filtering.Filter | script.js:141 | the filtered list is no longer than the job list and holds only matching postings |
| Filtering.FilterMembers | script.js:141 | a posting is in the filtered list exactly when it is in the job list and matches |
| Filtering.FilterMultiplicity | script.js:141 | each matching posting occurs as often as in the job list, and each other posting does not occur at all |
| Filtering.FilterIsSubsequence | script.js:141 | the filtered list keeps the job list's order |
| Filtering.FilterAppend | script.js:141 | filtering two lists joined together gives the two filtered lists joined together |
| Filtering.FilterKeepsAll | script.js:141 | the filtered list is the whole job list exactly when every posting matches |
| Filtering.UnrestrictedListsAll | script.js:109-133 | with type "all", no location and a blank keyword, every posting is listed in its original order |
| Filtering.NarrowerMatchesLess | script.js:114-130 | a posting that passes a narrower filter passes the looser one |
| Filtering.EverythingNarrowsUnrestricted | script.js:114-130 | every filter state is at least as narrow as type "all" with no location and no keyword |
| Filtering.FilterMonotone | script.js:141 | tightening the filter never enlarges the result: the narrower list is an ordered sub-list of the looser one |
| Filtering.FilterMonotoneMembers | script.js:141 | every posting the narrower filter lists, the looser filter lists too |
| Board.JobBoard.constructor | script.js:82-193 | on page load, `activeType` is "all", the inputs are empty, and the first render lists every posting, with the indicator shown only if there are none |
| Board.JobBoard.Render | script.js:138-190 | the container holds one card per filtered posting, in order, and the indicator is shown exactly when the filtered list is empty |
| Board.JobBoard.RenderTwice | script.js:138-150 | rendering twice with unchanged inputs leaves the same cards and indicator as rendering once |
| Board.JobBoard.TypeKeyword | script.js:110 | typing into the keyword input changes only its value and does not re-render |
| Board.JobBoard.ChooseLocation | script.js:111 | choosing a location changes only the select's value and does not re-render |
| Board.JobBoard.Search | script.js:95-97 | the search button re-renders with the current inputs |
| Board.JobBoard.KeyDown | script.js:100-104 | Enter in the keyword input re-renders, and any other key leaves the view as it was |
| Board.JobBoard.SelectChip | script.js:85-91 | after a chip click exactly the clicked chip is active, `activeType` is its `data-type`, the other inputs are unchanged, and the view is re-rendered |
| Scenarios.PageLoadListsSamples | script.js:7-73 | on page load all five sample postings are listed in page order |
| Scenarios.NurseKeywordFindsNurse | script.js:34-46 | the Full-time chip with keyword "nurse" matches "Registered Nurse" through its title, despite the capital N |
| Scenarios.FullTimeNurseScenario | script.js:21-46 | of the teacher and nurse postings, Full-time with keyword "nurse" lists only the nurse |
| Scenarios.PartTimeShowsNoResults | script.js:85-91 | on a page holding only the nurse posting, after typing "nurse" and clicking the Full-time chip the nurse card is shown; after clicking the Part-time chip no card is left, the indicator is shown and only the Part-time chip is active |
| Scenarios.FullTimeNurseOnSamples | script.js:7-73 | over the sample postings, Full-time with keyword "nurse" lists the nurse and none of the postings of another type |

## Left out

- DOM lookup and event registration (lines 75-80, 85-86, 95, 100) are browser plumbing. Each handler is a method of `Board.JobBoard`, and the script's `const` element handles are the object's fields.
- The card's HTML template (lines 151-181) is left out: the emoji labels, the remote/on-site label and the skill pills. A card is modelled as the posting it shows.
- The apply button's navigation to `applyLink` (lines 183-186) is a browser side effect and is not modelled.
- `toLowerCase` folds only ASCII `A`-`Z`. Unicode case mappings, including ones that change a string's length, are not modelled. `trim` uses ECMAScript's exact whitespace set. JavaScript strings are modelled as sequences of Unicode scalar values rather than UTF-16 code units.
- A chip without a `data-type` attribute, which would set `activeType` to `undefined`, is not modelled: each chip carries a string.
- The initial `active` flags of the chips and the initial values of the two inputs come from the HTML page, which is not part of this model. The constructor takes the flags as a parameter, and the inputs start empty.
- Scenarios.FullTimeNurseOnSamples: does not prove that "Junior Web Developer" (Full-time, no "nurse" in its text) is rejected. That would require a proof over every offset of a 130-character literal string.
