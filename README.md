# A verified model of the profile README generator

`generate_readme.py` writes a GitHub profile README in the style of `neofetch`: a block of
ASCII art on the left, and on the right an information panel drawn as a box. The panel shows
the host, kernel, uptime and location, optional Languages, Stack and Contact sections, and a
"GitHub Stats" section. The lines-of-code figure in those stats comes from a per-repository
cache that is recomputed only where a repository's commit count has changed.

This project models the deterministic core of that script in Dafny and proves what it
guarantees:

- `Layout`: `format_number`, the line builders `make_line`, `make_section` and `make_empty`,
  the two box borders, and `build_info_lines`. The builders are functions. `build_info_lines`
  is a method that appends line by line, proved equal to the specification function
  `InfoLines`.
- `Panel`: properties of the whole panel. These cover its length, its fixed first and last
  lines, and that the Stats section is always present. They also cover which section headers
  appear, exactly when their entries are given. Finally, every line of the box is seen exactly
  54 characters wide when its entry fits.
- `Compositor`: `merge_ascii_and_info`. It is a method that frames the art and then zips the
  two columns in a loop, proved equal to the function `Merged`. Lemmas cover the height,
  the shape of every line, the borders, where each art line lands, centring, and padding.
- `LocCache`: `fetch_loc_for_repo` and the reconciliation loop of `fetch_loc_with_cache`.
  - `fetch_loc_for_repo` is an explicit loop over the pages and over the edges of each page.
  - `fetch_loc_with_cache` is a loop that updates the cache map and four counters.
  - Both are proved against fold functions.
  - Lemmas cover the cache's keys and entries after the loop, the totals, idempotence, and
    when it raises.
- `Uptime`: the part-joining of `calculate_uptime`, with a parser that reads the text back.
- `Decimal` and `Text`: Python's `str` on integers (with its inverse), `*` repetition,
  left alignment, `join`, and `split` at a separator.

Everything the script gets from the network, the file system or the clock is a parameter:

- the configuration;
- the statistics;
- the age computed from the birthday;
- the repository list and the user id;
- the loaded cache;
- the pages of commit history per repository, `history(owner, name)`;
- the one-decimal float printing used by `format_number`, `oneDecimal(n, divisor)`.

## Model

| member | source | states |
|---|---|---|
| Text.Copies | generate_readme.py:414-415 | `x * n` has max(n, 0) elements, each equal to x; a non-positive count gives nothing |
| Text.LJust | generate_readme.py:579 | left alignment keeps s as a prefix, pads with spaces only, and has length max(\|s\|, w) |
| Text.Before | generate_readme.py:293 | the part before the first separator has no separator, is a prefix of s, is followed by the separator when shorter than s, and is all of s when s has none |
| Text.After | generate_readme.py:293 | the part after the first separator is a suffix of s, and s is the part before, the separator, then this part |
| Text.SplitAtFirst | generate_readme.py:293 | splitting p + sep + q with sep not in p gives back exactly p and q |
| Text.Join | generate_readme.py:36 | Python's `str.join`; specified by `Uptime.ParseItemsJoin`, which reads a join of item texts back |
| Decimal.NatDigits | generate_readme.py:397 | the decimal digits of n are at least one digit, all digits, with a leading '0' exactly when n is 0, and 0 is written "0" |
| Decimal.DecimalString | generate_readme.py:397 | `str(n)` ends in a digit, is all digits for n >= 0, and is '-' followed by digits for n < 0; it has no leading zero except the single "0" |
| Decimal.NatDigitsValue | generate_readme.py:397 | the digits of n denote n |
| Decimal.DecimalRoundTrip | generate_readme.py:397 | parsing `str(n)` gives n back, for negative n as well |
| Layout.FormatNumber | generate_readme.py:391-397 | below 1000 the result is `str(n)`, without leading zeros, and reads back as exactly n (all digits when n >= 0); it ends in 'K' exactly when 1000 <= n < 1000000, with the one-decimal quotient by 1000 before the K; it ends in 'M' exactly when n >= 1000000, with the quotient by 1000000 before the M |
| Layout.MakeLine | generate_readme.py:405-417 | the line is "  key: ", at least three dots, then " value  "; its length is what makes key, dots and measured value reach the 50-character content width when they fit |
| Layout.MakeSection | generate_readme.py:419-424 | the header is two spaces, two rules, the title between single spaces, rules up to the content width (none when the title is too long), then two spaces |
| Layout.MakeEmpty | generate_readme.py:426-428 | the blank line is 54 spaces |
| Layout.TopBorder | generate_readme.py:437 | the top border is 54 characters: a corner, heavy rules, a corner |
| Layout.BottomBorder | generate_readme.py:529 | the bottom border is 54 characters: a corner, heavy rules, a corner |
| Layout.VisibleLink | generate_readme.py:407-409 | for a contact link, make_line measures exactly the link text |
| Layout.RenderedLink | generate_readme.py:489-492 | a contact link shows exactly its text once the markup is dropped |
| Layout.PlainLineWidth | generate_readme.py:405-417 | a plain line is seen max(54, \|key\| + \|value\| + 10) wide, so exactly 54 when key and value fit |
| Layout.LinkLineWidth | generate_readme.py:405-417 | a contact line is seen max(54, \|key\| + \|text\| + 10) wide, counting only the link text |
| Layout.SectionWidth | generate_readme.py:419-424 | a section header is seen max(54, \|title\| + 8) wide |
| Layout.FixedLinesWidth | generate_readme.py:426-437 | the blank line and both borders are seen exactly 54 wide |
| Layout.Visible | generate_readme.py:407-411 | the part of a value make_line measures; specified by `Layout.VisibleLink` and `Layout.MakeLine` |
| Layout.LinkMarkup | generate_readme.py:489-503 | the hyperlink markup of a contact; specified by `Layout.RenderedLink` and `Layout.VisibleLink` |
| Layout.LocValue | generate_readme.py:516-521 | the "total { additions++, deletions-- }" value of the Lines of Code line, each figure by `format_number`; specified by `Layout.FormatNumber` through its three uses |
| Layout.InfoLines | generate_readme.py:430-531 | the panel build_info_lines returns; specified by `Layout.BuildInfoLines` and the Panel lemmas `InfoLinesLength`, `InfoLinesFrame`, `StatsAlways`, `InfoLetters` and `PanelWidth` |
| Layout.BuildInfoLines | generate_readme.py:400-531 | appending line by line yields exactly the panel `InfoLines` |
| Layout.AppendBasicInfo | generate_readme.py:442-450 | host, kernel, uptime and location lines are appended, each only when its value is given, in that order |
| Layout.LanguageEntries | generate_readme.py:454-461 | one line per given language value, in order |
| Layout.StackEntries | generate_readme.py:468-477 | one line per given stack value, in order |
| Layout.ContactEntries | generate_readme.py:484-504 | one link line per contact whose url and label are both given, in order |
| Layout.AppendSection | generate_readme.py:462-465 | a section (header, entries, blank) is appended only when it has entries |
| Layout.AppendStats | generate_readme.py:510-523 | the GitHub Stats header and its six lines are always appended |
| Panel.BasicCount | generate_readme.py:442-450 | one basic line per given value |
| Panel.LanguageCount | generate_readme.py:455-461 | one language line per given value |
| Panel.StackCount | generate_readme.py:469-477 | one stack line per given value |
| Panel.ContactCount | generate_readme.py:485-504 | one contact line per contact with both url and label |
| Panel.SectionLength | generate_readme.py:462-465 | a section takes no lines without entries, and entries + 2 lines otherwise |
| Panel.InfoLinesLength | generate_readme.py:430-531 | the panel has 13 fixed lines plus the optional ones, so between 13 and 33 lines |
| Panel.InfoLinesFrame | generate_readme.py:433-440 | the panel opens with "$ header", the top border and a blank, and closes with a blank and the bottom border |
| Panel.StatsAlways | generate_readme.py:510-529 | the seven GitHub Stats lines always sit just before the closing blank and border |
| Panel.SectionLetter | generate_readme.py:419-424 | a section header is recognised by the first letter of its title |
| Panel.InfoLetters | generate_readme.py:453-511 | the panel's headers are Languages, Stack and Contact exactly when each is given, and always GitHub Stats |
| Panel.LanguagesShown | generate_readme.py:453-465 | the Languages header appears if and only if some language value is given |
| Panel.StackShown | generate_readme.py:467-481 | the Stack header appears if and only if some stack value is given |
| Panel.ContactShown | generate_readme.py:483-508 | the Contact header appears if and only if some contact has both url and label |
| Panel.PanelWidth | generate_readme.py:400-531 | when every shown entry fits, every line from the top border to the bottom border is seen exactly 54 wide |
| Compositor.ArtWidth | generate_readme.py:537 | the art width bounds every art line, is reached by one when there is art, and is 0 without art |
| Compositor.Fill | generate_readme.py:548-556 | the fill splits the spare height with any extra line at the bottom, and there is none when the panel is not taller than art plus borders |
| Compositor.Framed | generate_readme.py:544-568 | the framed column is max(\|art\| + 2, panel height) tall and no line is wider than the art |
| Compositor.FramedShape | generate_readme.py:558-568 | the column starts and ends with '=' borders, holds the art contiguously and in order after top_fill lines, and every other line is '@' fill |
| Compositor.FramedArtAt | generate_readme.py:559-565 | art line k is line 1 + top_fill + k of the framed column, strictly inside the two borders |
| Compositor.Merged | generate_readme.py:572-581 | the result is exactly max(\|art\| + 2, \|info\|) lines tall |
| Compositor.Row | generate_readme.py:579 | a row is the art part left-justified to the art width, six spaces, then the panel part |
| Compositor.FrameArt | generate_readme.py:536-570 | the art becomes the framed column; the panel is unchanged when taller than the art and padded with "" to the column's height otherwise |
| Compositor.MergeAsciiAndInfo | generate_readme.py:534-581 | the loop produces exactly `Merged` |
| Compositor.PaddedPart | generate_readme.py:570 | padding the panel with "" lines changes none of the panel parts the zip picks |
| Compositor.MergedLine | generate_readme.py:576-579 | line i is the framed art line padded to exactly the art width, six spaces, then the i-th panel line or "" |
| Compositor.MergedWidth | generate_readme.py:579 | no line is shorter than the art width plus six |
| Compositor.MergedBorders | generate_readme.py:546-568 | the first and last lines start with the '=' border |
| Compositor.ArtInPlace | generate_readme.py:559-579 | art line k is on row 1 + top_fill + k, inside the borders, beside the panel line of that row |
| Compositor.ArtLineKept | generate_readme.py:559-579 | that row starts with art line k unchanged, padded to the art width |
| Compositor.Centred | generate_readme.py:548-565 | with a taller panel the result is as tall as the panel, top_fill <= bottom_fill <= top_fill + 1, and the rows above and below the art are '@' fill |
| Compositor.ArtTaller | generate_readme.py:566-570 | otherwise the result is the art plus two borders tall, with no fill, and the rows past the panel end in "" |
| LocCache.FetchLocForRepo | generate_readme.py:134-213 | the page and edge loops return exactly the tally of the user's commits over all pages |
| LocCache.MineExactly | generate_readme.py:194-197 | an edge counts if and only if it is in the history and its author's user id is the user's |
| LocCache.AuthoredIsMine | generate_readme.py:189-197 | the tally is the sum of additions and deletions of the user's own commits, and their number |
| LocCache.AuthoredAppend | generate_readme.py:199-211 | tallying two runs of commits one after the other adds their tallies |
| LocCache.AuthoredPages | generate_readme.py:199-211 | carrying the accumulators into the next page gives the sum of the pages' tallies |
| LocCache.SplitOwner | generate_readme.py:293 | unpacking succeeds only into two '/'-free parts that rebuild the name around one '/' |
| LocCache.SplitOwnerOf | generate_readme.py:293 | every "owner/repo" with '/'-free parts unpacks into exactly those parts |
| LocCache.Step | generate_readme.py:278-308 | one pass of the loop body: skip a fork, use a valid entry, or fetch and overwrite; specified by `LocCache.StepElsewhere`, `LocCache.ReconcileEntry` and `LocCache.CrashCause` |
| LocCache.Reconcile | generate_readme.py:277-308 | the loop over the repositories from a given state; specified by `LocCache.ReconcileFrame`, `ReconcileEntry`, `ReconcileTotals`, `AllHits`, `NoCrash` and `ReconcileAppend` |
| LocCache.LocWithCache | generate_readme.py:252-316 | the outcome of fetch_loc_with_cache; specified by `LocCache.FetchLocWithCache` and `LocCache.Idempotent` |
| LocCache.FetchLocWithCache | generate_readme.py:243-316 | it returns early without token or user id, then loops; the result is exactly `LocWithCache` |
| LocCache.StepElsewhere | generate_readme.py:282-308 | handling one repository leaves every other name's entry as it was |
| LocCache.ReconcileFrame | generate_readme.py:277-308 | the loop adds an entry for each non-fork repository and changes no entry of forks or unlisted names |
| LocCache.ReconcileEntry | generate_readme.py:286-304 | after the loop each non-fork repository's entry has its current commit count; a valid entry is kept, any other is the freshly fetched one |
| LocCache.ReconcileTotals | generate_readme.py:286-308 | the totals are the additions and deletions stored for the non-fork repositories, and hits + misses counts them |
| LocCache.AllHits | generate_readme.py:286-290 | when every non-fork entry is valid, the loop only hits: the cache is unchanged and the totals are the stored values |
| LocCache.Idempotent | generate_readme.py:277-311 | a second run with the saved cache gives only hits, the same cache and the same totals |
| LocCache.CrashCause | generate_readme.py:277-296 | when the loop raises, the name it raises on belongs to a listed repository that is not a fork and does not split into exactly two '/'-free parts |
| LocCache.NoCrash | generate_readme.py:293 | when every non-fork name is "owner/repo", the loop does not raise |
| LocCache.ReconcileAppend | generate_readme.py:277-308 | the loop over two lists is the loop over the second from where the first stopped |
| Uptime.Part | generate_readme.py:29-34 | one part such as "3 months" or "1 year"; specified by `Uptime.PartIsItemText` |
| Uptime.PartIsItemText | generate_readme.py:29-34 | a positive part is the count's decimal digits, a space, and the unit with an 's' unless the count is 1 |
| Uptime.Parts | generate_readme.py:28-34 | the positive parts, in order; specified by `Uptime.PartsAreItemTexts` |
| Uptime.UptimeText | generate_readme.py:28-36 | the uptime text; specified by `Uptime.UptimeRoundTrip` and `Uptime.UptimeZero` |
| Uptime.ParseItemsJoin | generate_readme.py:36 | the joined item texts read back as exactly those items |
| Uptime.PartsAreItemTexts | generate_readme.py:28-34 | the parts are the texts of the positive components, with plurals agreeing, in the order years, months, days |
| Uptime.UptimeRoundTrip | generate_readme.py:28-36 | reading the uptime text back gives the age, with non-positive components as 0 |
| Uptime.UptimeZero | generate_readme.py:36 | the text is "0 days" if and only if no component is positive |

## Left out

- Network access is not modelled. The GraphQL requests and the REST calls are left out:
  `graphql_request`, `fetch_user_id`, `fetch_repos_with_commits` and `fetch_github_stats`.
  What they return comes in as parameters:
  - the repository list;
  - the user id;
  - the statistics;
  - the pages of commit edges per repository.
- A failed or empty GraphQL answer in `fetch_loc_for_repo` ends the accumulation early. The
  model receives only the pages that were answered, which covers this case.
- File access is not modelled: `load_loc_cache`, `save_loc_cache`, `load_ascii_art`,
  `load_config` and writing the README. The loaded cache is a parameter. The saved cache is
  the cache in the `Saved` outcome.
- `get_cache_path` is left out. It hashes the username with SHA-256, a foreign library.
- `calculate_uptime`'s date handling is left out: parsing the birthday, and the calendar
  computation of today's date minus the birthday. The (years, months, days) age is an input.
- Layout.FormatNumber: does not fix the digits of the one-decimal float quotient; these are
  the parameter `oneDecimal`. So the model does not capture that 999950 prints as "1000.0K".
- The box-drawing characters appear mis-decoded in `generate_readme.py`, three characters
  each. They are modelled as the single characters U+2500, U+2501, U+250F, U+2513, U+2517
  and U+251B.
- JSON value types are not modelled. Configuration values are strings, and a missing key is
  the empty string. Cache fields are optional integers. A missing additions or deletions
  field reads as 0. An entry without commitCount never matches, so it is refetched. The
  myCommits field is not read.
  Some cases are outside the model:
  - a missing "header" key, which raises;
  - a truthy value that is not a string;
  - a non-integer cache field.
- A missing token is the empty string.
- Verbose console output is left out.
- Panel.PanelWidth: claimed only for entries without '<', for contact urls without '>', and
  for contact labels without '<' or '>'. Markup inside a value makes the seen width differ from the measured
  one.
- LocCache.ReconcileTotals, LocCache.ReconcileEntry and LocCache.Idempotent: assume that no
  two non-fork repositories share a name. GitHub's nameWithOwner is unique. With a repeated
  name, the later entry overwrites the earlier one.
- LocCache.FetchLocForRepo: does not model the RecursionError of deep pagination. The
  source fetches each further page of 100 commits by a recursive call. A history of about
  1000 pages exceeds Python's default recursion limit. The error escapes
  `fetch_loc_with_cache` before the cache is saved. The model's loop returns a tally for any
  number of pages.
- `merge_ascii_and_info` rebinds its two list parameters. The model returns the framed art
  and the padded panel from `FrameArt` instead.
