/**
 * tsk/oldtoc.py: the deprecated outline builder. Each stripped line that
 * starts with '#' is a heading whose level is the number of leading '#'
 * minus one; the builder numbers it with five per-level counters and gives
 * chapters (levels 0 and 1) a page url and deeper headings a bookmark into
 * the current page. Unlike tsk/toc.py it does not check that levels follow
 * one another. The existence of a page (`_page_exists`, a filesystem test)
 * and the slug library are parameters.
 */
module OldToc {
  import opened Wrappers
  import opened PyText
  import opened Counters
  import Utils

  const MARKER: char := '#'
  /** Headings at this level or deeper are bookmarks into their chapter's page. */
  const BOOKMARK_LEVEL: nat := 2
  /** `page_url` before the first chapter. */
  const ROOT_URL: string := "/"

  /** How the builder fails: a line of '#' only (`match` is None), or a level past the counters (IndexError). */
  datatype OldError = NoTitleMarker | LevelIndexOutOfRange(level: nat)

  /** One `chapter_toc` dict: the counters after it, its title, its level and its url. */
  datatype Heading = Heading(level: seq<int>, title: string, levelType: nat, url: Option<string>)

  /** n heading markers. */
  function Hashes(n: nat): (r: string)
    ensures |r| == n && forall j :: 0 <= j < n ==> r[j] == MARKER
  {
    seq(n, _ => MARKER)
  }

  /** `after_marker.search(line).start() - 1` for a line that starts with '#': None when only '#' follow. */
  function HeadingLevel(line: string): (r: Option<nat>)
    requires StartsWith(line, [MARKER])
    ensures r.Some? ==> r.value + 1 < |line| && line[r.value + 1] != MARKER &&
                        forall j :: 0 <= j <= r.value ==> line[j] == MARKER
    ensures r.None? ==> forall j :: 0 <= j < |line| ==> line[j] == MARKER
  {
    match FirstNotIn(line, {MARKER})
    case None => None
    case Some(i) => Some(i - 1)
  }

  /** `if page_url:`: a url is set and not empty. */
  predicate HasPage(pageUrl: Option<string>) {
    pageUrl.Some? && pageUrl.value != []
  }

  /** `toc_map`'s locals between two lines: the headings so far, the counters and the current page url. */
  datatype Scan = Scan(toc: seq<Heading>, levels: seq<int>, pageUrl: Option<string>)

  function Start(): Scan {
    Scan([], Zeros(), Some(ROOT_URL))
  }

  /** A heading at `level` titled `title`: it is numbered and given a url, and a chapter becomes the current page. */
  function Record(slugLib: string -> string, pageExists: string -> bool, s: Scan, level: nat, title: string): (r: Scan)
    requires |s.levels| == DEPTH && level < DEPTH
    ensures |r.levels| == DEPTH
  {
    var slug := Utils.Slugify(slugLib, title);
    var levels := Advance(s.levels, level);
    if level >= BOOKMARK_LEVEL then
      var url := if HasPage(s.pageUrl) then Some(s.pageUrl.value + [MARKER] + slug) else None;
      Scan(s.toc + [Heading(levels, title, level, url)], levels, s.pageUrl)
    else
      var page := if pageExists(slug) then Some(slug + ".html") else None;
      Scan(s.toc + [Heading(levels, title, level, page)], levels, page)
  }

  /** One iteration of `toc_map`'s loop. */
  function Step(slugLib: string -> string, pageExists: string -> bool, s: Scan, l: string): (r: Result<Scan, OldError>)
    requires |s.levels| == DEPTH
    ensures r.Ok? ==> |r.value.levels| == DEPTH
  {
    var line := Strip(l);
    if !StartsWith(line, [MARKER]) then Ok(s)
    else match HeadingLevel(line)
      case None => Err(NoTitleMarker)
      case Some(level) =>
        if level >= DEPTH then Err(LevelIndexOutOfRange(level))
        else Ok(Record(slugLib, pageExists, s, level, Strip(line[level + 1..])))
  }

  /** `toc_map`'s loop over `lines`: the first failing line stops it. */
  function Run(slugLib: string -> string, pageExists: string -> bool, lines: seq<string>): (r: Result<Scan, OldError>)
    ensures r.Ok? ==> |r.value.levels| == DEPTH
    decreases |lines|
  {
    if lines == [] then Ok(Start())
    else match Run(slugLib, pageExists, lines[..|lines| - 1])
      case Err(e) => Err(e)
      case Ok(s) => Step(slugLib, pageExists, s, lines[|lines| - 1])
  }

  lemma {:induction false} RunStopsAtError(slugLib: string -> string, pageExists: string -> bool, lines: seq<string>, n: nat)
    requires n <= |lines| && Run(slugLib, pageExists, lines[..n]).Err?
    ensures Run(slugLib, pageExists, lines) == Run(slugLib, pageExists, lines[..n])
    decreases |lines| - n
  {
    if n < |lines| {
      var init := lines[..|lines| - 1];
      assert init[..n] == lines[..n];
      RunStopsAtError(slugLib, pageExists, init, n);
    } else {
      assert lines[..n] == lines;
    }
  }

  /** `_set_levels`: count one more heading at `current` and restart the deeper counters, in place. */
  method SetLevels(current: nat, levels: array<int>) returns (inRange: bool)
    modifies levels
    ensures inRange <==> current < levels.Length
    ensures inRange ==> levels[..] == Advance(old(levels[..]), current)
    ensures !inRange ==> levels[..] == old(levels[..])
  {
    if current >= levels.Length {
      return false;
    }
    ghost var c0 := levels[..];
    levels[current] := levels[current] + 1;
    var i := 0;
    while i < levels.Length
      invariant 0 <= i <= levels.Length
      invariant forall j :: 0 <= j < levels.Length ==>
        levels[j] == (if j == current then c0[j] + 1 else if current < j < i then 0 else c0[j])
    {
      if i > current {
        levels[i] := 0;
      }
      i := i + 1;
    }
    assert levels[..] == Advance(c0, current);
    return true;
  }

  /** The body of `toc_map`'s loop for one line: `Step` with the counters updated in place. */
  method ScanLine(slugLib: string -> string, pageExists: string -> bool, l: string,
                  toc: seq<Heading>, pageUrl: Option<string>, levels: array<int>)
    returns (toc': seq<Heading>, pageUrl': Option<string>, err: Option<OldError>)
    requires levels.Length == DEPTH
    modifies levels
    ensures match Step(slugLib, pageExists, old(Scan(toc, levels[..], pageUrl)), l)
      case Ok(s') => err == None && Scan(toc', levels[..], pageUrl') == s'
      case Err(e) => err == Some(e)
  {
    ghost var s := Scan(toc, levels[..], pageUrl);
    toc', pageUrl', err := toc, pageUrl, None;
    var line := Strip(l);
    if !StartsWith(line, [MARKER]) {
      assert Step(slugLib, pageExists, s, l) == Ok(s);
      return;
    }
    var found := HeadingLevel(line);
    if found.None? {
      assert Step(slugLib, pageExists, s, l) == Err(NoTitleMarker);
      return toc, pageUrl, Some(NoTitleMarker);
    }
    toc', pageUrl', err := HeadingLine(slugLib, pageExists, l, found.value, toc, pageUrl, levels);
  }

  /** `toc_map`'s loop body for a line that starts with '#' and has a title after `level + 1` markers. */
  method HeadingLine(slugLib: string -> string, pageExists: string -> bool, l: string, level: nat,
                     toc: seq<Heading>, pageUrl: Option<string>, levels: array<int>)
    returns (toc': seq<Heading>, pageUrl': Option<string>, err: Option<OldError>)
    requires levels.Length == DEPTH
    requires StartsWith(Strip(l), [MARKER]) && HeadingLevel(Strip(l)) == Some(level)
    modifies levels
    ensures match Step(slugLib, pageExists, old(Scan(toc, levels[..], pageUrl)), l)
      case Ok(s') => err == None && Scan(toc', levels[..], pageUrl') == s'
      case Err(e) => err == Some(e)
  {
    ghost var s := Scan(toc, levels[..], pageUrl);
    toc', pageUrl', err := toc, pageUrl, None;
    var title := Strip(Strip(l)[level + 1..]);
    var ok := SetLevels(level, levels);
    if !ok {
      assert Step(slugLib, pageExists, s, l) == Err(LevelIndexOutOfRange(level));
      return toc, pageUrl, Some(LevelIndexOutOfRange(level));
    }
    assert Step(slugLib, pageExists, s, l) == Ok(Record(slugLib, pageExists, s, level, title));
    toc', pageUrl' := AppendHeading(slugLib, pageExists, toc, s.levels, pageUrl, levels[..], level, title);
  }

  /** The rest of `toc_map`'s loop body once the counters are advanced: the heading's url, the current page, the append. */
  method AppendHeading(slugLib: string -> string, pageExists: string -> bool, toc: seq<Heading>, ghost levels: seq<int>,
                       pageUrl: Option<string>, counters: seq<int>, level: nat, title: string)
    returns (toc': seq<Heading>, pageUrl': Option<string>)
    requires |levels| == DEPTH && level < DEPTH && counters == Advance(levels, level)
    ensures Record(slugLib, pageExists, Scan(toc, levels, pageUrl), level, title) == Scan(toc', counters, pageUrl')
  {
    var slug := Utils.Slugify(slugLib, title);
    var url: Option<string>;
    pageUrl' := pageUrl;
    if level >= BOOKMARK_LEVEL {
      url := if HasPage(pageUrl) then Some(pageUrl.value + [MARKER] + slug) else None;
    } else {
      pageUrl' := if pageExists(slug) then Some(slug + ".html") else None;
      url := pageUrl';
    }
    toc' := toc + [Heading(counters, title, level, url)];
  }

  /** `toc_map`: the headings of `tocContent`, or the error of the first bad heading line. */
  method TocMap(slugLib: string -> string, pageExists: string -> bool, tocContent: string)
    returns (r: Result<seq<Heading>, OldError>)
    ensures match Run(slugLib, pageExists, SplitLines(tocContent))
      case Ok(s) => r == Ok(s.toc)
      case Err(e) => r == Err(e)
  {
    var lines := SplitLines(tocContent);
    var toc: seq<Heading> := [];
    var pageUrl: Option<string> := Some(ROOT_URL);
    var levels := new int[DEPTH](_ => 0);
    assert levels[..] == Zeros();
    var i := 0;
    while i < |lines|
      invariant 0 <= i <= |lines| && levels.Length == DEPTH
      invariant Run(slugLib, pageExists, lines[..i]) == Ok(Scan(toc, levels[..], pageUrl))
    {
      assert lines[..i + 1][..i] == lines[..i];
      var err;
      toc, pageUrl, err := ScanLine(slugLib, pageExists, lines[i], toc, pageUrl, levels);
      if err.Some? {
        RunStopsAtError(slugLib, pageExists, lines, i + 1);
        return Err(err.value);
      }
      i := i + 1;
    }
    assert lines[..i] == lines;
    return Ok(toc);
  }
}
