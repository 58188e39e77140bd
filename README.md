# tsk: outline builders and document preprocessing, in Dafny

tsk is a small Python 2 static-site tool. This project models three of its
files and proves properties of the model:

- **tsk/toc.py**, the outline (TOC) builder. It reads the outline text line by line.
  - A `+-+` line toggles comment mode.
  - A `+++` line toggles front-matter ("meta") mode.
  - A line in meta mode is a `key: value` setting, whose value is coerced to an int when it parses as one.
  - Any other line is an entry. Its depth is its indentation, a tab counting `indent_spacing` columns, and its title is the rest of the line without the leading bullet characters.
  - Every entry is numbered with five per-level counters and attached under the most recent entry one level up. There is a root at level -1.
  - An entry gets a `slug.html` url when it lies within `page_level` and the page exists. A deeper entry gets its parent's url.
  - `children(i1, …, ik)` follows child indices down from the root.
- **tsk/generator.py**, the document generator. The model covers:
  - the check of the five required configuration keys;
  - the rewriting of `$$command args` lines through a map of named commands;
  - the collapse of front-matter value lists;
  - the fallback chain of the output file name;
  - the `.md` filter over a directory listing;
  - the record each processed document appends to `book`.
- **tsk/oldtoc.py**, the deprecated heading-marker outline builder (`#`, `##`, …). It gives chapters a page url and deeper headings a bookmark `page#slug` into the current page. Unlike tsk/toc.py, it does not reject skipped levels.

Modules:

- `Wrappers`: Option and Result.
- `PyText`: the Python 2 `str` built-ins the code relies on, over `seq<char>`.
- `Utils`: `slugify` of tsk/utils.py.
- `Counters`: the counter update both builders share.
- `Toc`: tsk/toc.py. Class `TOC` holds `meta` and the entry tree, an arena `seq<Entry>` with child indices. `Generate` updates an `array<int>` of five counters and an `array<Slot>` parent table in place.
- `TocProps`: properties of `Toc`.
- `Gen`: tsk/generator.py, with class `Generator`.
- `GenProps`: properties of `Gen`.
- `OldToc`: tsk/oldtoc.py. `TocMap` updates an `array<int>` in place.
- `OldTocProps`: properties of `OldToc`.

Each imperative method is specified by a pure function, and its loop invariant ties it to that function:

- `TOC.Generate` by `Toc.Run` over `Toc.Step`;
- `Generator.ProcessForeignCommands` by `Gen.Rewrite`;
- `OldToc.TocMap` by `OldToc.Run` over `OldToc.Step`.

The lemmas are stated about those functions.

Collaborators are parameters:

- A TOC's page directory is given as a set of existing files, and a slug library as a function.
- The Generator's commands are a map from name to function. The slug library, `basename_no_ext` and the markdown converter are functions.
- The old builder's page-existence test is a predicate.

Python raises where the model returns `Err`: a KeyError, an IndexError, a TypeError, a ValueError (a front-matter line without ':'), an UnboundLocalError (`children()` with no index), an AttributeError or a TskError, each with its own constructor.

## Model

| member | source | states |
|---|---|---|
| Counters.Advance | tsk/oldtoc.py:22-28 | the counter at the entry's level grows by one, deeper counters become 0, shallower ones are unchanged (the same update as tsk/toc.py:94-106) |
| Counters.Zeros | tsk/oldtoc.py:21 | five counters, all 0 |
| Utils.ReplaceAmpersands | tsk/utils.py:9 | the result has no '&'; text without '&' is unchanged (the substitution itself is fixed by the two lemmas below) |
| Utils.ReplaceAmpersandsAppend | tsk/utils.py:9 | the substitution works character by character: it distributes over concatenation |
| Utils.ReplaceAmpersandsChar | tsk/utils.py:9 | a single '&' becomes "and" and any other character is kept |
| Utils.Slugify | tsk/utils.py:8-10 | the slug is as long as the library's slug of the "&"-substituted text and has no ASCII capital letter |
| Utils.SlugifyChars | tsk/utils.py:8-10 | each character of the slug is the lower-case form of the library slug's character at the same place, the library being applied to the "&"-substituted text |
| Utils.SlugifySpellsAmpersand | tsk/utils.py:9-10 | an '&' in the text reaches the library as "and", between the substituted text around it |
| PyText.LStrip | tsk/toc.py:49 | the result is a suffix of the input that does not start with a stripped character; everything removed was a stripped character |
| PyText.RStrip | tsk/toc.py:34-35 | the result is a prefix of the input that does not end with a stripped character; everything removed was a stripped character |
| PyText.Strip | tsk/toc.py:65 | a non-empty result neither starts nor ends with whitespace |
| PyText.CharSet | tsk/toc.py:49 | the characters of the `lstrip` argument, exactly |
| PyText.FirstIn | tsk/toc.py:33 | the index of the first character in the set, or None when the set's characters do not occur |
| PyText.FirstNotIn | tsk/toc.py:47 | the index of the first character outside the set (`re.search('[^\s\t]')`), or None when every character is in it |
| PyText.SplitWs | tsk/generator.py:102 | `split()` gives non-empty tokens free of whitespace |
| PyText.WordEnd | tsk/generator.py:102 | a word that starts the text runs up to the first whitespace, or to the end, and holds no whitespace |
| PyText.SplitLines | tsk/toc.py:64 | `splitlines()` gives lines that hold no line break (the lemmas below give which lines) |
| PyText.SplitLinesOne | tsk/toc.py:64 | a text without a break is a single line, or no line when empty |
| PyText.SplitLinesNewline | tsk/toc.py:64 | "\n" ends the line before it, and the rest is split on its own |
| PyText.SplitLinesReturn | tsk/toc.py:64 | a "\r" not followed by "\n" ends the line before it as well |
| PyText.SplitLinesCrLf | tsk/toc.py:64 | "\r\n" is a single break: no empty line appears between the two characters |
| PyText.SplitUnlines | tsk/toc.py:64 | the lines a text was written from, each ended by "\n", come back in order |
| PyText.ReadLines | tsk/generator.py:99 | `readlines()` splits the text into lines whose concatenation, in order, is the text |
| PyText.ReadLinesShape | tsk/generator.py:99 | there are no lines exactly when the text is empty; every line is non-empty with no "\n" before its end, and every line but the last ends in "\n" |
| PyText.LineEnd | tsk/generator.py:99 | a line runs up to and including the first "\n", or to the end of the text when there is none |
| PyText.ParseInt | tsk/toc.py:38-42 | `int()` of the stripped value succeeds exactly on decimal digits, or on a sign followed by blanks and decimal digits; its value is the digits' value, negated after '-' |
| PyText.NatDigits | tsk/toc.py:38-42 | the decimal digits of a natural number are digits and have that value |
| PyText.ParseDecimal | tsk/toc.py:38-42 | `int(str(n)) == n` for every int n |
| PyText.SignedParse | tsk/toc.py:38-42 | after a sign, the value is that of the digits past the blanks, negated after '-' |
| PyText.SpaceAfterSign | tsk/toc.py:38-42 | a blank between the sign and the digits is accepted: `int("- 1") == -1` |
| PyText.LStripRun | tsk/toc.py:49 | `lstrip` removes exactly the leading run of stripped characters |
| PyText.Lower | tsk/utils.py:10 | same length; no ASCII capital remains; other characters are kept |
| PyText.LowerChar | tsk/utils.py:10 | an ASCII capital becomes the small letter at the same place in the alphabet; any other character is kept |
| PyText.LowerChars | tsk/utils.py:10 | each character of `lower()` is `LowerChar` of the character at the same place |
| PyText.Join | tsk/generator.py:72 | `os.path.join` puts "/" between a non-empty directory and a relative name; the result always ends with the name |
| PyText.Spaces | tsk/toc.py:46 | `' ' * n` is n spaces, or empty when n is not positive |
| Toc.SetDefaultMeta | tsk/toc.py:22-25 | the three keys are added with 4, "-*+" and 1 only when absent; present keys keep their values; no other key is added |
| Toc.Coerce | tsk/toc.py:38-42 | the value is stored as an int exactly when `int()` accepts it, and then as the int `int()` returns; otherwise as the string itself |
| Toc.ParseMetaLine | tsk/toc.py:31-43 | a front-matter line fails with the no-colon error exactly when it has no ':' |
| Toc.ParseLine | tsk/toc.py:45-54 | the title never starts with a bullet character |
| Toc.GapFrom | tsk/toc.py:96-103 | no error exactly when every parent slot from the given level to the entry's level is occupied |
| Toc.Reattach | tsk/toc.py:95-106 | the entry's slot holds it, slots above are unchanged, deeper slots become None |
| Toc.HierarchyStep | tsk/toc.py:91-108 | on success, the entry's level is below 5 and the parent is the entry in the slot for the level above |
| Toc.Attach | tsk/toc.py:113 | the new entry is appended to the arena and to its parent's children; no other entry changes |
| Toc.EmptyOutline | tsk/toc.py:59-63 | the state before the first line (zero counters, the root alone, its slot at level -1) satisfies the outline invariant |
| Toc.NewEntryWf | tsk/toc.py:94-113 | numbering a new entry, re-pointing the parent slots and attaching it under the slot of the level above keep the outline invariant |
| Toc.NewEntryTracksLast | tsk/toc.py:95-106 | after a new entry at level k, the slots of levels -1 to k are occupied and every deeper slot is None |
| Toc.NewEntryPointsBack | tsk/toc.py:95-113 | after a new entry, every occupied slot still holds the most recent entry of its level |
| Toc.AddEntryWf | tsk/toc.py:90-124 | a successful `process_entry` keeps the outline invariant: counter shape, parent-slot occupancy, each occupied slot holding the most recent entry of its level, children one level deeper |
| Toc.Step | tsk/toc.py:64-86 | one line keeps the builder's invariant and its defaults |
| Toc.Start | tsk/toc.py:56-63 | the builder starts with both modes off and the empty outline, which satisfies the invariant when meta holds the defaults |
| Toc.Run | tsk/toc.py:64-86 | the loop keeps the invariant after any number of lines |
| Toc.RunSnoc | tsk/toc.py:64-86 | a run over one more line is the step on that line from where the shorter run stopped, when it stopped without an error |
| Toc.StepSkipsComment | tsk/toc.py:65-70 | the opening "+-+" and every line inside a comment (even "+++") only set comment mode |
| Toc.StepTogglesMeta | tsk/toc.py:72-75 | outside comments, "+++" flips meta mode and is otherwise discarded |
| Toc.StepMetaLine | tsk/toc.py:77-79 | in meta mode, another line (the closing "+-+" too) is stored as a setting; a later duplicate key overwrites the earlier one |
| Toc.StepEntryLine | tsk/toc.py:80-86 | outside both modes, a line (the closing "+-+" too) is parsed and added as an entry unless its title is empty |
| Toc.RunStopsAtError | tsk/toc.py:64-86 | once a line fails, later lines change nothing |
| Toc.PyIndex | tsk/toc.py:130 | a list index is valid exactly when it lies in [-n, n); negative ones count from the end |
| Toc.Follow | tsk/toc.py:127-132 | following child indices reaches an entry of the tree, or fails with the offending index |
| Toc.TOC.constructor | tsk/toc.py:14-20 | the text and the page directory are kept, meta holds exactly the defaults, and there is no tree yet |
| Toc.TOC.ProcessMeta | tsk/toc.py:31-43 | meta gets the parsed key and value, or is unchanged when the line fails |
| Toc.TOC.SetHierarchy | tsk/toc.py:91-108 | the counter and parent arrays are updated in place exactly as `HierarchyStep` says, and its parent is returned |
| Toc.TOC.ProcessEntry | tsk/toc.py:90-124 | the counters, parent table and tree are updated in place exactly as `AddEntry` says; on an error the tree is unchanged |
| Toc.TOC.GenerateLine | tsk/toc.py:64-86 | one iteration of `generate`'s loop, done in place, is exactly `Step` |
| Toc.TOC.MetaLine | tsk/toc.py:77-79 | in meta mode, the line handled in place is exactly `Step`: the setting is stored, or meta is unchanged on an error |
| Toc.TOC.EntryLine | tsk/toc.py:80-86 | outside both modes, the line handled in place is exactly `Step`: parsed, then added unless its title is empty; on an error the tree is unchanged |
| Toc.TOC.GenerateNext | tsk/toc.py:64-86 | line i after lines 0 .. i - 1 went through: the state is `Run` of one more line, or the whole run stops with this line's error |
| Toc.TOC.GenerateLines | tsk/toc.py:64-86 | the loop over all lines ends with the meta, tree and error that `Run` gives |
| Toc.TOC.Reset | tsk/toc.py:57-63 | `generate` starts from fresh counters and parent table and a tree holding only the root |
| Toc.TOC.Generate | tsk/toc.py:56-88 | meta and the tree are what `Run` gives for the text's lines, starting from the meta the object holds at the call (exactly the defaults on a freshly constructed TOC, and otherwise what earlier `process_meta` or `generate` calls left there); `page_level` is copied onto the root when no line fails |
| Toc.TOC.Children | tsk/toc.py:127-135 | the entry reached by the index path from the root; before `generate` there is no root; an empty path fails (`child` is unbound) |
| TocProps.MetaSplitsAtFirstColon | tsk/toc.py:33-37 | the key is the stripped text before the first ':', the value the stripped rest, which may hold more colons; a comma in the value fails |
| TocProps.ReplaceTabsWidth | tsk/toc.py:46-51 | an indentation of spaces and tabs becomes as many spaces as its width, a tab counting `indent_spacing` |
| TocProps.FindAllSpaces | tsk/toc.py:52 | the number of `indent_spacing`-space units in w spaces is w div `indent_spacing` |
| TocProps.ParseLineDepth | tsk/toc.py:45-54 | depth is the indentation's width div `indent_spacing` (width + 1 when `indent_spacing` is not positive); the title is the text with only its leading bullets removed |
| TocProps.BlankLineIsEntry | tsk/toc.py:45-54 | a non-empty line of whitespace only is not skipped: it is added as an entry at depth 0 titled by the whole line (lines 82-86) |
| TocProps.ClosingCommentDropped | tsk/toc.py:65-84 | outside meta mode, the closing "+-+" reaches entry parsing and is dropped when the bullets include '+' and '-' |
| TocProps.ClosingCommentInMetaFails | tsk/toc.py:65-79 | inside front matter, the closing "+-+" is read as a setting and fails for want of a colon |
| TocProps.SlotIsLastAt | tsk/toc.py:95-99 | an occupied parent slot holds the most recent entry of the level above |
| TocProps.AddEntryOutcome | tsk/toc.py:94-108 | an entry is accepted exactly when its level is below 5 and at most one below the previous entry; level 5 or more is an IndexError; a skipped level is a KeyError while only the root exists, 'Malformed TOC' afterwards |
| TocProps.AddEntryAttaches | tsk/toc.py:94-115 | the entry becomes the last child of the most recent entry one level up (the root for level 0), its counters are the advanced ones, and no other entry changes |
| TocProps.AddEntryUrl | tsk/toc.py:115-124 | the slug comes from `slugify(title)`; within `page_level` the url is "slug.html" when that page exists, else None; deeper, the parent's url |
| TocProps.StringPageLevelOwnsPages | tsk/toc.py:117 | a string `page_level` puts every entry within it, because Python 2 orders ints before strings |
| TocProps.StringPageLevelPageUrl | tsk/toc.py:115-124 | with a string `page_level`, an accepted entry's url is "slug.html" exactly when that page exists, and None exactly when it does not; it never inherits the parent's |
| TocProps.NegativePageLevel | tsk/toc.py:38-42 | `page_level: - 1` is stored as the int -1, so no entry owns a page (the test of line 117 fails for every level) |
| TocProps.AddEntryExtends | tsk/toc.py:110-113 | adding an entry leaves every earlier entry as it was, except that one entry gains a child |
| TocProps.StepExtends | tsk/toc.py:64-86 | no line alters an entry already built |
| TocProps.RunExtends | tsk/toc.py:108-110 | the counter copy an entry stores, and its other fields, are never altered by later lines |
| TocProps.FollowLevel | tsk/toc.py:127-132 | following k child indices goes exactly k levels down in the tree |
| Gen.FirstMissing | tsk/generator.py:27-32 | the first required key, in order, that is absent, or None when all are present |
| Gen.Exec | tsk/generator.py:109-110 | fails exactly when no command has that name; otherwise it returns that command's result for the arguments |
| Gen.RewriteLine | tsk/generator.py:100-106 | a line whose stripped form does not start with "$$" is kept as it is |
| Gen.RewriteStopsAtError | tsk/generator.py:97-107 | once a line fails, the whole rewrite fails with that error |
| Gen.RewriteSnoc | tsk/generator.py:97-107 | rewriting one more line appends that line's rewrite to the shorter result, or fails with the first error |
| Gen.Collapsed | tsk/generator.py:115-122 | keys with an empty list are dropped, a one-element list becomes its element, longer lists are kept, no key is added |
| Gen.SlugFromTitle | tsk/generator.py:57-58 | as long as the library slug; each character is the lower-case form of the library slug's; no ASCII capital remains |
| Gen.OutputFilename | tsk/generator.py:60-67 | it fails exactly when the name choice fails; the result ends with the chosen name, joined under the output directory |
| Gen.MarkdownFiles | tsk/generator.py:70-74 | every yielded path is an existing file ending in ".md", and there are at most as many as listed names |
| Gen.Generator.constructor | tsk/generator.py:23-25 | all given configuration keys are copied onto the instance; `book` is empty |
| Gen.Generator.FirstUnset | tsk/generator.py:27-32 | the first required key, in the checking order, that was not given, or None when all five were |
| Gen.Generator.Create | tsk/generator.py:23-32 | construction succeeds exactly when all five keys are present; otherwise it fails naming the first missing one |
| Gen.Generator.ExecCommand | tsk/generator.py:109-110 | fails exactly when the command is unknown; otherwise it returns the command's result |
| Gen.Generator.ProcessForeignCommands | tsk/generator.py:97-107 | the loop's result is `Rewrite` of the text's lines |
| Gen.Generator.ForeignLine | tsk/generator.py:100-106 | one iteration of the loop gives exactly `RewriteLine` of the line |
| Gen.Generator.CollapseMeta | tsk/generator.py:115-122 | the dict built in the loop is `Collapsed` of the converter's front matter |
| Gen.Generator.RenderMarkdown | tsk/generator.py:112-123 | the converter's html and its collapsed front matter |
| Gen.Generator.MarkdownOutputFilename | tsk/generator.py:60-67 | it fails exactly when the name choice fails; the result ends with the chosen name |
| Gen.Generator.TraverseMarkdownDir | tsk/generator.py:70-74 | only existing files ending in ".md" are yielded |
| Gen.Generator.ProcessMarkdownFile | tsk/generator.py:86-93 | on success exactly one record is appended to `book`, earlier records are kept, and the output name and html are returned; on an error `book` is unchanged |
| GenProps.OneMissingKeyNamed | tsk/generator.py:27-32 | removing any one required key from a complete configuration is refused with exactly that key, in a message "<KEY> must …" |
| GenProps.RewriteKeepsPlainLines | tsk/generator.py:97-107 | lines none of which is a command line are copied verbatim, in order |
| GenProps.PlainTextUnchanged | tsk/generator.py:97-107 | a text without `$$` lines comes back unchanged |
| GenProps.CommandNeedsNoSpace | tsk/generator.py:100-104 | "$$name" runs `name` with no arguments; the line and its newline are dropped |
| GenProps.CommandBetweenText | tsk/generator.py:97-107 | a command line between two text lines is replaced by the command's output, or the rewrite fails with its error (tsk/tests/test_generator.py:112-118) |
| GenProps.SplitWords | tsk/generator.py:102 | `split()` of tokens joined by single spaces gives the tokens back, in order |
| GenProps.CommandTokens | tsk/generator.py:100-104 | the command is the first token and the arguments are the remaining tokens, in order |
| GenProps.CommandLine | tsk/generator.py:100-104 | a command line runs the first token of its stripped rest with the remaining tokens, or fails when there is none |
| GenProps.EmptyCommandFails | tsk/generator.py:101-103 | a "$$" line with no token fails (the `pop` of an empty list) |
| GenProps.OutputFileWins | tsk/generator.py:60-67 | a non-empty `output_file` is the name, joined under the output directory (tsk/tests/test_generator.py:158-163) |
| GenProps.TitleIsFirstFallback | tsk/generator.py:63-64 | without an output file, a non-empty title gives "slug.html" |
| GenProps.SlugFromTitleIsSlugify | tsk/generator.py:57-58 | on a title without '&', `_slugs_from_title` is `utils.slugify` (it skips only the "&" substitution) |
| GenProps.InputFileIsSecondFallback | tsk/generator.py:65-66 | without an output file or a title, the input file's base name gives "name.html" |
| GenProps.MarkdownFilesMembers | tsk/generator.py:70-74 | a path is yielded exactly when some listed name joins to it, it is a file, and it ends in ".md" |
| GenProps.MarkdownFilesAppend | tsk/generator.py:70-74 | the filter keeps listing order: the documents of a + b are those of a followed by those of b |
| GenProps.ExtensionFilter | tsk/generator.py:70-74 | of four listed files, those named "*.md" are yielded and the others skipped, in listing order |
| GenProps.ExtensionFilterExample | tsk/tests/test_generator.py:147-152 | the listing "a.md", "b.ist", "c.md", "d.txt" yields the paths of "a.md" and "c.md" only |
| GenProps.DocumentRecord | tsk/generator.py:86-93 | the appended record is the collapsed front matter with `input_file` set to the file name and `output_file` to the computed name |
| GenProps.OutputNamedAfterInput | tsk/generator.py:90-91 | the output name is computed after `input_file` is set: without an output file or title the document is written to "<base name>.html" |
| OldToc.HeadingLevel | tsk/oldtoc.py:32-34 | the level is the number of leading '#' minus one; None when the line is all '#' |
| OldToc.Record | tsk/oldtoc.py:36-55 | recording a heading keeps five counters |
| OldToc.Step | tsk/oldtoc.py:30-55 | one line keeps five counters |
| OldToc.Run | tsk/oldtoc.py:30-56 | the loop keeps five counters |
| OldToc.RunStopsAtError | tsk/oldtoc.py:30-56 | once a line fails, the whole run fails with that error |
| OldToc.SetLevels | tsk/oldtoc.py:22-28 | in place: the counter at the level grows by one, deeper ones become 0; a level past the array fails and changes nothing |
| OldToc.ScanLine | tsk/oldtoc.py:31-55 | one iteration, with the counters updated in place, is exactly `Step` |
| OldToc.HeadingLine | tsk/oldtoc.py:33-55 | for a line of `level + 1` markers and a title, the iteration in place is exactly `Step` |
| OldToc.AppendHeading | tsk/oldtoc.py:36-55 | once the counters are advanced, the url, the current page and the appended heading are those of `Record` |
| OldToc.TocMap | tsk/oldtoc.py:6-56 | the flat heading list is what `Run` gives for the content's lines, or the first line's error |
| OldTocProps.PlainLineSkipped | tsk/oldtoc.py:31-32 | a line that does not start with '#' once stripped changes nothing |
| OldTocProps.HeadingRecorded | tsk/oldtoc.py:31-55 | for a heading of k + 1 '#': one more entry at level k, titled by the stripped rest and numbered by the advanced counters. A chapter gets "slug.html" when that page exists, else None, and becomes the current page. A deeper heading gets "page#slug", or None without a current page |
| OldTocProps.OnlyMarkersFail | tsk/oldtoc.py:33-34 | a line of '#' only fails |
| OldTocProps.TooDeepFails | tsk/oldtoc.py:24 | a heading of six or more '#' fails with an IndexError |
| OldTocProps.AcceptanceIgnoresHistory | tsk/oldtoc.py:22-28 | whether a line is accepted, and its error, do not depend on earlier lines: skipped levels are tolerated |
| OldTocProps.SkippedLevelNumbered | tsk/oldtoc.py:79-83 | after the second chapter, a "###" heading is numbered [2, 0, 1, 0, 0] |
| OldTocProps.EarlyBookmarkUnderRoot | tsk/oldtoc.py:18 | while the current page is "/", as before any chapter, a bookmark is "/#slug" |
| OldTocProps.RecordShaped | tsk/oldtoc.py:36-55 | recording a heading adds one entry and keeps every entry's shape |
| OldTocProps.StepShaped | tsk/oldtoc.py:30-55 | one line adds one entry exactly when it starts with '#', and keeps every entry's shape |
| OldTocProps.RunShaped | tsk/oldtoc.py:30-56 | a successful run has one entry per '#' line. Each entry's counters are non-negative, with its own level at least 1 and deeper levels 0. A chapter url is "slug.html" or None. A deeper url ends in "#slug" |

## Left out

- File reading and writing are not modelled: `open`, `write_output`, `os.listdir` and `os.path.isfile`. The text, the directory listing and the set of existing files are inputs instead.
- The utf8 `decode`/`encode` calls are not modelled. Strings are Dafny strings: there is no invalid-utf8 error and no Unicode handling.
- The markdown library and its `meta` extension (tsk/generator.py:113-114) are a parameter `Libs.markdown`, returning html and the raw front-matter lists.
- The slug library, `basename_no_ext` and `os.path.splitext` are parameters. Only the visible code around them is modelled: the "&" to "and" substitution and lower-casing.
- The jinja environment and `render_jinja_template` (tsk/generator.py:34-38, 80-84) are rendering through a foreign library and are not modelled.
- `process_markdown` (tsk/generator.py:42-44) is a loop over the directory that calls `process_markdown_file`, which is modelled for one file. The loop itself is not.
- Gen.Generator.ExecCommand: `getattr(self, command)` can reach any attribute of the instance, including configuration values and the generator's own methods. The model looks names up only in a separate map of commands. It also does not model a handler that raises or is called with the wrong number of arguments.
- Gen.Generator.constructor: `self.book = []` runs after the configuration is copied, so a configuration key named "book" would be overwritten. The model keeps the configuration and `book` apart.
- Toc.TOC.Generate: after an exception, Python leaves `self.toc` partly built. The model returns the error with the tree as it stood before the failing line. A failing line raises before any change reaches `self.toc`, so the two agree.
- TocProps.AddEntryUrl: states only that a deeper entry takes its parent's url, one step at a time. There is no lemma for the "nearest ancestor within `page_level`" form, which follows by induction over the parents.
- tsk/tests/test_toc.py writes its front matter between `---` lines (lines 14 and 18). tsk/toc.py does not recognise `---`: it recognises only `+++` and `+-+`, and the model follows the code.
- tsk/oldtoc.py never imports `os`, `re` or `slugify`, so it cannot run as written. The model treats those names as what they evidently denote.
- `title.decode('utf8')` in tsk/oldtoc.py:42 is left out, for the same reason as the other decode calls.
- tsk/admin.py is a stub with no logic.
- OldToc.TocMap: `toc_map(self, toc_content=None)` called without content fails with an AttributeError on `None.splitlines()`. The model takes the content as a string, so that call cannot be written.
- PyText.ParseInt: integers are unbounded. Python 2 hands a number beyond the platform's `long` to a second parser that does not skip blanks after the sign, so `int("- 99999999999999999999")` raises; the model accepts it.
