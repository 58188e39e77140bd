/**
 * What the deprecated builder of tsk/oldtoc.py does, stated over the model
 * in module OldToc: how a heading line is read, which lines fail, that the
 * order of levels never matters, and the shape of every url and counter
 * it records.
 */
module OldTocProps {
  import opened Wrappers
  import opened PyText
  import opened Counters
  import opened OldToc
  import Utils

  // ---------------------------------------------------------------- one line

  lemma HeadingLevelOf(k: nat, rest: string)
    requires rest != [] && rest[0] != MARKER
    ensures StartsWith(Hashes(k + 1) + rest, [MARKER])
    ensures HeadingLevel(Hashes(k + 1) + rest) == Some(k)
    ensures (Hashes(k + 1) + rest)[k + 1..] == rest
  {
    var line := Hashes(k + 1) + rest;
    assert line[..1] == [MARKER];
    var f := FirstNotIn(line, {MARKER});
    assert line[k + 1] !in {MARKER};
    assert f.Some? && f.value == k + 1;
  }

  /** A line that does not start with '#' once stripped adds nothing and changes nothing. */
  lemma PlainLineSkipped(slugLib: string -> string, pageExists: string -> bool, s: Scan, l: string)
    requires |s.levels| == DEPTH && (Strip(l) == [] || Strip(l)[0] != MARKER)
    ensures Step(slugLib, pageExists, s, l) == Ok(s)
  {
  }

  /**
   * A heading of k + 1 markers: one more heading at level k, titled by the
   * stripped rest of the line and numbered by the advanced counters; a
   * chapter (k < 2) gets "slug.html" if that page exists and becomes the
   * current page, a deeper heading gets a bookmark "page#slug" into the
   * current page, or none if there is no current page.
   */
  lemma HeadingRecorded(slugLib: string -> string, pageExists: string -> bool, s: Scan, l: string, k: nat, rest: string)
    requires |s.levels| == DEPTH && k < DEPTH
    requires Strip(l) == Hashes(k + 1) + rest && rest != [] && rest[0] != MARKER
    ensures var title := Strip(rest);
      var slug := Utils.Slugify(slugLib, title);
      var page := if k < BOOKMARK_LEVEL then (if pageExists(slug) then Some(slug + ".html") else None) else s.pageUrl;
      var url := if k < BOOKMARK_LEVEL then page
                 else if HasPage(s.pageUrl) then Some(s.pageUrl.value + "#" + slug) else None;
      Step(slugLib, pageExists, s, l) ==
        Ok(Scan(s.toc + [Heading(Advance(s.levels, k), title, k, url)], Advance(s.levels, k), page))
  {
    HeadingLevelOf(k, rest);
  }

  /** A line of markers only fails (the pattern finds no title character). */
  lemma OnlyMarkersFail(slugLib: string -> string, pageExists: string -> bool, s: Scan, l: string, n: nat)
    requires |s.levels| == DEPTH && n >= 1 && Strip(l) == Hashes(n)
    ensures Step(slugLib, pageExists, s, l) == Err(NoTitleMarker)
  {
    assert Strip(l)[..1] == [MARKER];
  }

  /** A heading of six or more markers fails: the counters have five levels. */
  lemma TooDeepFails(slugLib: string -> string, pageExists: string -> bool, s: Scan, l: string, k: nat, rest: string)
    requires |s.levels| == DEPTH && k >= DEPTH
    requires Strip(l) == Hashes(k + 1) + rest && rest != [] && rest[0] != MARKER
    ensures Step(slugLib, pageExists, s, l) == Err(LevelIndexOutOfRange(k))
  {
    HeadingLevelOf(k, rest);
  }

  /**
   * Whether a line is accepted does not depend on what came before it: a
   * heading may skip levels (a level-2 heading right after a chapter),
   * which the builder of tsk/toc.py refuses.
   */
  lemma AcceptanceIgnoresHistory(slugLib: string -> string, pageExists: string -> bool, s1: Scan, s2: Scan, l: string)
    requires |s1.levels| == DEPTH && |s2.levels| == DEPTH
    ensures Step(slugLib, pageExists, s1, l).Ok? <==> Step(slugLib, pageExists, s2, l).Ok?
    ensures Step(slugLib, pageExists, s1, l).Err? ==> Step(slugLib, pageExists, s1, l) == Step(slugLib, pageExists, s2, l)
  {
  }

  /** After the second chapter, a heading with three markers numbers as [2, 0, 1, 0, 0]: level 1 is skipped and stays 0. */
  lemma SkippedLevelNumbered(slugLib: string -> string, pageExists: string -> bool, s: Scan, l: string, rest: string)
    requires s.levels == [2, 0, 0, 0, 0]
    requires Strip(l) == Hashes(3) + rest && rest != [] && rest[0] != MARKER
    ensures Step(slugLib, pageExists, s, l).Ok?
    ensures Step(slugLib, pageExists, s, l).value.levels == [2, 0, 1, 0, 0]
  {
    assert Step(slugLib, pageExists, s, l).Ok? && Step(slugLib, pageExists, s, l).value.levels == Advance(s.levels, 2) by {
      HeadingRecorded(slugLib, pageExists, s, l, 2, rest);
    }
    SecondChapterThenLevelTwo(s.levels);
  }

  lemma SecondChapterThenLevelTwo(c: seq<int>)
    requires c == [2, 0, 0, 0, 0]
    ensures Advance(c, 2) == [2, 0, 1, 0, 0]
  {
    var a := Advance(c, 2);
    assert a == [a[0], a[1], a[2], a[3], a[4]];
  }

  /** Before any chapter the current page is "/" (as in `Start`), so an early bookmark points to "/#slug". */
  lemma EarlyBookmarkUnderRoot(slugLib: string -> string, pageExists: string -> bool, s: Scan, l: string, k: nat, rest: string)
    requires |s.levels| == DEPTH && s.pageUrl == Some(ROOT_URL) && BOOKMARK_LEVEL <= k < DEPTH
    requires Strip(l) == Hashes(k + 1) + rest && rest != [] && rest[0] != MARKER
    ensures Step(slugLib, pageExists, s, l).Ok?
    ensures var slug := Utils.Slugify(slugLib, Strip(rest));
      Step(slugLib, pageExists, s, l).value.toc ==
        s.toc + [Heading(Advance(s.levels, k), Strip(rest), k, Some("/#" + slug))]
  {
    HeadingRecorded(slugLib, pageExists, s, l, k, rest);
    RootBookmark(Utils.Slugify(slugLib, Strip(rest)));
  }

  lemma RootBookmark(slug: string)
    ensures HasPage(Some(ROOT_URL)) && ROOT_URL + "#" + slug == "/#" + slug
  {
  }

  // ---------------------------------------------------------------- whole runs

  /** The number of lines that start with '#' once stripped. */
  function HeadingLines(lines: seq<string>): (r: nat)
    ensures r <= |lines|
    decreases |lines|
  {
    if lines == [] then 0
    else
      var l := Strip(lines[|lines| - 1]);
      HeadingLines(lines[..|lines| - 1]) + (if StartsWith(l, [MARKER]) then 1 else 0)
  }

  /** The current page: "/" at first, then none or the page of the last chapter. */
  predicate PageShaped(p: Option<string>) {
    p == Some(ROOT_URL) || p.None? || EndsWith(p.value, ".html")
  }

  /** What every recorded heading looks like. */
  predicate HeadingShaped(slugLib: string -> string, h: Heading) {
    var slug := Utils.Slugify(slugLib, h.title);
    && h.levelType < DEPTH && |h.level| == DEPTH
    && h.level[h.levelType] >= 1
    && (forall j :: h.levelType < j < DEPTH ==> h.level[j] == 0)
    && (forall j :: 0 <= j < DEPTH ==> h.level[j] >= 0)
    && (h.levelType < BOOKMARK_LEVEL ==> h.url.None? || h.url == Some(slug + ".html"))
    && (h.levelType >= BOOKMARK_LEVEL && h.url.Some? ==> EndsWith(h.url.value, "#" + slug))
  }

  predicate Shaped(slugLib: string -> string, s: Scan) {
    && |s.levels| == DEPTH
    && (forall j :: 0 <= j < DEPTH ==> s.levels[j] >= 0)
    && PageShaped(s.pageUrl)
    && forall k :: 0 <= k < |s.toc| ==> HeadingShaped(slugLib, s.toc[k])
  }

  lemma SuffixOfJoin(a: string, slug: string)
    ensures EndsWith(a + "#" + slug, "#" + slug)
  {
    var r := a + "#" + slug;
    assert r[|r| - |"#" + slug|..] == "#" + slug;
  }

  lemma RecordShaped(slugLib: string -> string, pageExists: string -> bool, s: Scan, level: nat, title: string)
    requires Shaped(slugLib, s) && level < DEPTH
    ensures Shaped(slugLib, Record(slugLib, pageExists, s, level, title))
    ensures |Record(slugLib, pageExists, s, level, title).toc| == |s.toc| + 1
  {
    var slug := Utils.Slugify(slugLib, title);
    if level >= BOOKMARK_LEVEL && HasPage(s.pageUrl) {
      SuffixOfJoin(s.pageUrl.value, slug);
      assert s.pageUrl.value + [MARKER] + slug == s.pageUrl.value + "#" + slug;
    }
    var r := Record(slugLib, pageExists, s, level, title);
    assert HeadingShaped(slugLib, r.toc[|r.toc| - 1]);
    assert forall k :: 0 <= k < |s.toc| ==> r.toc[k] == s.toc[k];
  }

  lemma StepIsRecord(slugLib: string -> string, pageExists: string -> bool, s: Scan, l: string, level: nat)
    requires |s.levels| == DEPTH && StartsWith(Strip(l), [MARKER]) && HeadingLevel(Strip(l)) == Some(level) && level < DEPTH
    ensures Step(slugLib, pageExists, s, l) == Ok(Record(slugLib, pageExists, s, level, Strip(Strip(l)[level + 1..])))
  {
  }

  lemma StepShaped(slugLib: string -> string, pageExists: string -> bool, s: Scan, l: string)
    requires Shaped(slugLib, s)
    ensures Step(slugLib, pageExists, s, l).Ok? ==> Shaped(slugLib, Step(slugLib, pageExists, s, l).value)
    ensures Step(slugLib, pageExists, s, l).Ok? ==>
      |Step(slugLib, pageExists, s, l).value.toc| == |s.toc| + (if StartsWith(Strip(l), [MARKER]) then 1 else 0)
  {
    var line := Strip(l);
    if StartsWith(line, [MARKER]) && HeadingLevel(line).Some? && HeadingLevel(line).value < DEPTH {
      var level := HeadingLevel(line).value;
      StepIsRecord(slugLib, pageExists, s, l, level);
      RecordShaped(slugLib, pageExists, s, level, Strip(line[level + 1..]));
    }
  }

  /**
   * Over a whole run: one heading per line that starts with '#', every
   * heading numbered by non-negative counters whose own level is at least
   * one and deeper levels zero, every chapter url a page, every deeper url
   * a bookmark ending in "#slug".
   */
  lemma {:induction false} RunShaped(slugLib: string -> string, pageExists: string -> bool, lines: seq<string>)
    ensures Run(slugLib, pageExists, lines).Ok? ==>
      Shaped(slugLib, Run(slugLib, pageExists, lines).value) &&
      |Run(slugLib, pageExists, lines).value.toc| == HeadingLines(lines)
    decreases |lines|
  {
    if lines == [] {
      assert Start().levels == Zeros();
    } else {
      var init := lines[..|lines| - 1];
      RunShaped(slugLib, pageExists, init);
      if Run(slugLib, pageExists, init).Ok? {
        StepShaped(slugLib, pageExists, Run(slugLib, pageExists, init).value, lines[|lines| - 1]);
      }
    }
  }
}
