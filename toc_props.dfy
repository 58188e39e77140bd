/**
 * What tsk/toc.py promises about its outline, stated over the model in
 * module Toc: how a front-matter line splits, how deep an indented line
 * is, where an entry is attached and when the outline is malformed, which
 * url an entry gets, that finished entries are never altered, and how
 * deep the entry reached by an index path lies.
 */
module TocProps {
  import opened Wrappers
  import opened PyText
  import opened Toc
  import Counters
  import Utils

  // ---------------------------------------------------------------- front matter

  /** `line.split(':', 1)`: the key is everything before the FIRST colon, the value everything after it. */
  lemma MetaSplitsAtFirstColon(before: string, after: string)
    requires ':' !in before
    ensures ParseMetaLine(before + ":" + after) ==
      if ',' in Strip(after) then Err(MetaListValue(Strip(before)))
      else Ok((Strip(before), Coerce(Strip(after))))
  {
    var line := before + ":" + after;
    var k := |before|;
    assert line[k] == ':';
    assert forall j | 0 <= j < k :: line[j] == before[j];
    assert FirstIn(line, {':'}) == Some(k);
    assert line[..k] == before;
    assert line[k + 1..] == after;
  }

  // ---------------------------------------------------------------- indentation

  predicate SpacesAndTabs(s: string) {
    forall i :: 0 <= i < |s| ==> s[i] == ' ' || s[i] == '\t'
  }

  /** The width of an indentation of spaces and tabs, each tab counting `tab` columns. */
  function IndentWidth(indent: string, tab: nat): nat
    decreases |indent|
  {
    if indent == [] then 0 else (if indent[0] == '\t' then tab else 1) + IndentWidth(indent[1..], tab)
  }

  lemma SpacesAdd(a: nat, b: nat)
    ensures Spaces(a) + Spaces(b) == Spaces(a + b)
  {
    var s := Spaces(a) + Spaces(b);
    assert |s| == |Spaces(a + b)|;
    assert forall i | 0 <= i < |s| :: s[i] == Spaces(a + b)[i];
  }

  /** Replacing each tab by `' ' * tab` turns an indentation of spaces and tabs into a run of spaces of its width. */
  lemma {:induction false} ReplaceTabsWidth(indent: string, tab: nat)
    requires SpacesAndTabs(indent)
    ensures ReplaceTabs(indent, Spaces(tab)) == Spaces(IndentWidth(indent, tab))
    decreases |indent|
  {
    if indent != [] {
      assert SpacesAndTabs(indent[1..]) by {
        forall i | 0 <= i < |indent[1..]| ensures indent[1..][i] == ' ' || indent[1..][i] == '\t' {
          assert indent[1..][i] == indent[i + 1];
        }
      }
      ReplaceTabsWidth(indent[1..], tab);
      var head := if indent[0] == '\t' then tab else 1;
      assert (if indent[0] == '\t' then Spaces(tab) else [indent[0]]) == Spaces(head);
      SpacesAdd(head, IndentWidth(indent[1..], tab));
    }
  }

  /** `len(re.findall(' ' * n, ' ' * w))` for n > 0: the whole number of n-space steps in w spaces. */
  lemma {:induction false} FindAllSpaces(w: nat, n: nat)
    requires n > 0
    ensures FindAllCount(Spaces(w), Spaces(n)) == w / n
    decreases w
  {
    if w >= n {
      assert Spaces(w)[..n] == Spaces(n);
      assert Spaces(w)[n..] == Spaces(w - n);
      FindAllSpaces(w - n, n);
      DivStep(w, n);
    }
  }

  lemma DivUnique(w: int, n: int, q: int, r: int)
    requires n > 0 && w == q * n + r && 0 <= r < n
    ensures w / n == q
  {
    var q' := w / n;
    var r' := w % n;
    assert w == q' * n + r';
    if q' < q {
      MulAtLeast(q - q', n);
    } else if q' > q {
      MulAtLeast(q' - q, n);
    }
  }

  lemma {:induction false} MulAtLeast(k: nat, n: nat)
    requires k >= 1
    ensures k * n >= n
    decreases k
  {
    if k > 1 {
      MulAtLeast(k - 1, n);
      assert k * n == (k - 1) * n + n;
    }
  }

  lemma DivStep(w: nat, n: nat)
    requires 0 < n <= w
    ensures w / n == 1 + (w - n) / n
  {
    var q := (w - n) / n;
    var r := (w - n) % n;
    assert w - n == q * n + r;
    assert w == (q + 1) * n + r;
    DivUnique(w, n, q + 1, r);
  }

  /**
   * `parse_line` of a line indented with spaces and tabs: the depth is the
   * indentation's width (a tab counting `indent_spacing` columns) divided by
   * `indent_spacing`, and the title is the text with its leading bullet
   * characters removed. With a non-positive `indent_spacing` the unit is the
   * empty string, every tab vanishes, and the empty pattern matches once
   * more than there are spaces left.
   */
  lemma ParseLineDepth(meta: Meta, indent: string, text: string)
    requires "indent_spacing" in meta && meta["indent_spacing"].IntVal?
    requires "bullet_characters" in meta && meta["bullet_characters"].StrVal?
    requires SpacesAndTabs(indent) && text != [] && text[0] !in WHITESPACE
    ensures var n := meta["indent_spacing"].i;
      ParseLine(meta, indent + text) ==
        Ok((if n > 0 then IndentWidth(indent, n) / n else IndentWidth(indent, 0) + 1,
            LStrip(text, CharSet(meta["bullet_characters"].s))))
  {
    var n := meta["indent_spacing"].i;
    TextStart(indent, text);
    IndentLevel(indent, n);
  }

  /** The first non-whitespace character of an indented line is the first of its text. */
  lemma TextStart(indent: string, text: string)
    requires SpacesAndTabs(indent) && text != [] && text[0] !in WHITESPACE
    ensures FirstNotIn(indent + text, WHITESPACE) == Some(|indent|)
    ensures (indent + text)[|indent|..] == text && (indent + text)[..|indent|] == indent
  {
    var line := indent + text;
    var k := |indent|;
    assert line[k] == text[0];
    assert forall j | 0 <= j < k :: line[j] == indent[j];
    assert line[k..] == text;
    assert line[..k] == indent;
  }

  /** The number of `' ' * n` units in an indentation of spaces and tabs once its tabs are expanded. */
  lemma IndentLevel(indent: string, n: int)
    requires SpacesAndTabs(indent)
    ensures FindAllCount(ReplaceTabs(indent, Spaces(n)), Spaces(n)) ==
      if n > 0 then IndentWidth(indent, n) / n else IndentWidth(indent, 0) + 1
  {
    if n > 0 {
      ReplaceTabsWidth(indent, n);
      FindAllSpaces(IndentWidth(indent, n), n);
    } else {
      ReplaceTabsWidth(indent, 0);
      assert Spaces(n) == Spaces(0) == [];
    }
  }

  /** A non-empty whitespace-only line is not skipped: its title is the whole line, at depth 0. */
  lemma BlankLineIsEntry(env: Env, b: Builder, line: string)
    requires Ready(b) && !b.commentMode && !b.metaMode
    requires b.meta["indent_spacing"].IntVal? && b.meta["indent_spacing"].i > 0
    requires b.meta["bullet_characters"].StrVal?
    requires line != [] && line[0] !in b.meta["bullet_characters"].s
    requires forall i :: 0 <= i < |line| ==> line[i] in WHITESPACE
    ensures ParseLine(b.meta, line) == Ok((0, line))
    ensures Step(env, b, line) ==
      match AddEntry(env, b.meta, b.outline, 0, line)
      case Err(e) => Err(e)
      case Ok(o) => Ok(b.(outline := o))
  {
    assert LStrip(line, WHITESPACE) == [];
    assert Strip(line) == [];
    assert LStrip(line, CharSet(b.meta["bullet_characters"].s)) == line;
    assert FirstNotIn(line, WHITESPACE).None?;
    StepEntryLine(env, b, line);
  }

  // ---------------------------------------------------------------- comment and meta markers

  lemma {:induction false} LStripAll(s: string, drop: set<char>)
    requires forall i :: 0 <= i < |s| ==> s[i] in drop
    ensures LStrip(s, drop) == []
    decreases |s|
  {
    if s != [] {
      assert forall i :: 0 <= i < |s[1..]| ==> s[1..][i] == s[i + 1];
      LStripAll(s[1..], drop);
    }
  }

  /**
   * When the bullets include '+' and '-' (the default "-*+" does), the
   * closing "+-+" line outside meta mode strips to an empty title and is dropped.
   */
  lemma ClosingCommentDropped(env: Env, b: Builder)
    requires Ready(b) && b.commentMode && !b.metaMode
    requires b.meta["indent_spacing"].IntVal? && b.meta["bullet_characters"].StrVal?
    requires '+' in b.meta["bullet_characters"].s && '-' in b.meta["bullet_characters"].s
    ensures Step(env, b, COMMENT_MARKER) == Ok(b.(commentMode := false))
  {
    MarkerHasNoTitle(b.meta);
    StepSkipsEmptyTitle(env, b, COMMENT_MARKER);
  }

  lemma StepSkipsEmptyTitle(env: Env, b: Builder, line: string)
    requires Ready(b) && (Strip(line) == COMMENT_MARKER) == b.commentMode
    requires Strip(line) != META_MARKER && !b.metaMode
    requires ParseLine(b.meta, line).Ok? && ParseLine(b.meta, line).value.1 == []
    ensures Step(env, b, line) == Ok(b.(commentMode := false))
  {
  }

  /** Inside front matter, the closing "+-+" line is read as a setting and fails for want of a colon. */
  lemma ClosingCommentInMetaFails(env: Env, b: Builder)
    requires Ready(b) && b.commentMode && b.metaMode
    ensures Step(env, b, COMMENT_MARKER) == Err(MetaWithoutColon(COMMENT_MARKER))
  {
    MarkerIsStripped();
    MarkerIsNoSetting();
    StepMetaLine(env, b, COMMENT_MARKER);
  }

  lemma MarkerIsNoSetting()
    ensures ParseMetaLine(COMMENT_MARKER) == Err(MetaWithoutColon(COMMENT_MARKER))
  {
    assert forall i | 0 <= i < |COMMENT_MARKER| :: COMMENT_MARKER[i] != ':';
  }

  lemma MarkerIsStripped()
    ensures Strip(COMMENT_MARKER) == COMMENT_MARKER
  {
    assert COMMENT_MARKER[0] == '+' && COMMENT_MARKER[|COMMENT_MARKER| - 1] == '+';
    KeepsEnds(COMMENT_MARKER);
  }

  lemma MarkerHasNoTitle(meta: Meta)
    requires "indent_spacing" in meta && meta["indent_spacing"].IntVal?
    requires "bullet_characters" in meta && meta["bullet_characters"].StrVal?
    requires '+' in meta["bullet_characters"].s && '-' in meta["bullet_characters"].s
    ensures Strip(COMMENT_MARKER) == COMMENT_MARKER && COMMENT_MARKER != META_MARKER
    ensures ParseLine(meta, COMMENT_MARKER).Ok? && ParseLine(meta, COMMENT_MARKER).value.1 == []
  {
    MarkerIsStripped();
    MarkersDiffer();
    MarkerParsesEmpty(meta);
  }

  lemma MarkersDiffer()
    ensures COMMENT_MARKER != META_MARKER
  {
    assert COMMENT_MARKER[1] != META_MARKER[1];
  }

  lemma MarkerParsesEmpty(meta: Meta)
    requires "indent_spacing" in meta && meta["indent_spacing"].IntVal?
    requires "bullet_characters" in meta && meta["bullet_characters"].StrVal?
    requires '+' in meta["bullet_characters"].s && '-' in meta["bullet_characters"].s
    ensures ParseLine(meta, COMMENT_MARKER).Ok? && ParseLine(meta, COMMENT_MARKER).value.1 == []
  {
    var bullets := CharSet(meta["bullet_characters"].s);
    assert FirstNotIn(COMMENT_MARKER, WHITESPACE) == Some(0);
    LStripAll(COMMENT_MARKER, bullets);
  }

  // ---------------------------------------------------------------- attachment and errors

  /** The index of the most recent entry at level `lv`, if there is one. */
  function LastAt(e: seq<Entry>, lv: int): (r: Option<nat>)
    ensures r.Some? ==> r.value < |e| && e[r.value].level == lv &&
                        forall j | r.value < j < |e| :: e[j].level != lv
    ensures r.None? ==> forall j | 0 <= j < |e| :: e[j].level != lv
    decreases |e|
  {
    if e == [] then None
    else if e[|e| - 1].level == lv then Some(|e| - 1)
    else LastAt(e[..|e| - 1], lv)
  }

  /** The parent slot of a level, when occupied, holds the most recent entry one level up. */
  lemma SlotIsLastAt(o: Outline, level: nat)
    requires Wf(o) && level <= DEPTH && o.slots[level].Holds?
    ensures LastAt(o.entries, level - 1) == Some(o.slots[level].node)
  {
    var p := o.slots[level].node;
    assert o.entries[p].level == level - 1;
  }

  /**
   * When `process_entry` fails: an entry at level 5 or deeper is an
   * IndexError; otherwise it fails exactly when it is more than one level
   * below the previous entry, with a KeyError for level 0 when only the
   * root exists and 'Malformed TOC' once an entry exists.
   */
  lemma AddEntryOutcome(env: Env, meta: Meta, o: Outline, level: nat, title: string)
    requires Wf(o) && "page_level" in meta
    ensures var r := AddEntry(env, meta, o, level, title);
      var last := o.entries[|o.entries| - 1].level;
      (r.Ok? <==> level < DEPTH && level <= last + 1) &&
      (level >= DEPTH ==> r == Err(LevelOutOfRange(level))) &&
      (level < DEPTH && level > last + 1 ==>
         r == Err(if |o.entries| == 1 then MissingLevel(0) else MalformedToc))
  {
    var last := o.entries[|o.entries| - 1].level;
    if level < DEPTH {
      if level <= last + 1 {
        assert GapFrom(o.slots, 0, level).None?;
      } else {
        var j: nat := last + 2;
        GapFromFirst(o.slots, 0, j, level);
        if |o.entries| == 1 {
          assert o.slots[j] == Absent;
        } else {
          assert o.slots[j] == Cleared;
        }
      }
    }
  }

  /**
   * A successful `process_entry` appends the new entry as the last child of
   * the most recent entry one level up (the root for level 0), numbers it
   * with the counters advanced at its level, and changes no other entry.
   */
  lemma AddEntryAttaches(env: Env, meta: Meta, o: Outline, level: nat, title: string)
    requires Wf(o) && "page_level" in meta && AddEntry(env, meta, o, level, title).Ok?
    ensures var o' := AddEntry(env, meta, o, level, title).value;
      var n := |o.entries|;
      LastAt(o.entries, level - 1).Some? &&
      var p := LastAt(o.entries, level - 1).value;
      (level == 0 ==> p == 0) &&
      |o'.entries| == n + 1 &&
      o'.entries[p].children == o.entries[p].children + [n] &&
      (forall j | 0 <= j < n && j != p :: o'.entries[j] == o.entries[j]) &&
      o'.counters == Counters.Advance(o.counters, level) &&
      o'.entries[n].level == level && o'.entries[n].title == title &&
      o'.entries[n].hierarchy == o'.counters && o'.entries[n].children == []
  {
    SlotIsLastAt(o, level);
  }

  /**
   * The url of a new entry: at or above `page_level` it is "slug.html" when
   * that page exists and None otherwise; below it, that of its parent, the
   * most recent entry one level up.
   */
  lemma AddEntryUrl(env: Env, meta: Meta, o: Outline, level: nat, title: string)
    requires Wf(o) && "page_level" in meta && AddEntry(env, meta, o, level, title).Ok?
    ensures var e := AddEntry(env, meta, o, level, title).value.entries[|o.entries|];
      LastAt(o.entries, level - 1).Some? &&
      e.slug == Utils.Slugify(env.slugLib, title) &&
      e.url == if WithinPage(meta, level) then
                 (if Join(env.pageDir, e.slug + ".html") in env.pageFiles then Some(e.slug + ".html") else None)
               else o.entries[LastAt(o.entries, level - 1).value].url
  {
    SlotIsLastAt(o, level);
  }

  /** A `page_level` that is not an int (a string) puts every entry at or above it, since Python 2 orders ints before strings. */
  lemma StringPageLevelOwnsPages(meta: Meta, level: int)
    requires "page_level" in meta && meta["page_level"].StrVal?
    ensures WithinPage(meta, level)
  {
  }

  /**
   * With a string `page_level`, an entry that `process_entry` accepts gets
   * "<slug>.html" as its url exactly when that page exists in the page
   * directory, and no url otherwise: it never inherits its parent's.
   */
  lemma StringPageLevelPageUrl(env: Env, meta: Meta, o: Outline, level: nat, title: string)
    requires Wf(o) && "page_level" in meta && meta["page_level"].StrVal?
    requires AddEntry(env, meta, o, level, title).Ok?
    ensures var e := AddEntry(env, meta, o, level, title).value.entries[|o.entries|];
      (e.url == Some(e.slug + ".html") <==> Join(env.pageDir, e.slug + ".html") in env.pageFiles) &&
      (e.url.None? <==> Join(env.pageDir, e.slug + ".html") !in env.pageFiles)
  {
    StringPageLevelOwnsPages(meta, level);
    AddEntryUrl(env, meta, o, level, title);
  }

  /** `page_level: - 1` is stored as the int -1 (blanks may follow the sign), so no entry, at level 0 or deeper, owns a page. */
  lemma NegativePageLevel(meta: Meta, level: nat)
    requires "page_level" in meta && meta["page_level"] == Coerce("- 1")
    ensures meta["page_level"] == IntVal(-1)
    ensures !WithinPage(meta, level)
  {
    SpaceAfterSign();
  }

  // ---------------------------------------------------------------- snapshots

  /** `e'` grows `e`: entries are added at the end and existing ones only gain children. */
  predicate Extends(e: seq<Entry>, e': seq<Entry>) {
    |e| <= |e'| &&
    forall i | 0 <= i < |e| ::
      e'[i].level == e[i].level && e'[i].title == e[i].title && e'[i].slug == e[i].slug &&
      e'[i].url == e[i].url && e'[i].hierarchy == e[i].hierarchy && e[i].children <= e'[i].children
  }

  lemma ExtendsTrans(a: seq<Entry>, b: seq<Entry>, c: seq<Entry>)
    requires Extends(a, b) && Extends(b, c)
    ensures Extends(a, c)
  {
    forall i | 0 <= i < |a| ensures a[i].children <= c[i].children {
      assert b[i].children <= c[i].children;
    }
  }

  lemma AddEntryExtends(env: Env, meta: Meta, o: Outline, level: nat, title: string)
    requires Wf(o) && "page_level" in meta && AddEntry(env, meta, o, level, title).Ok?
    ensures Extends(o.entries, AddEntry(env, meta, o, level, title).value.entries)
  {
    var e := o.entries;
    var e' := AddEntry(env, meta, o, level, title).value.entries;
    var p := o.slots[level].node;
    assert e' == Attach(e, p, e'[|e|]);
    forall i | 0 <= i < |e| ensures e[i].children <= e'[i].children {
      if i == p {
        assert e'[i].children == e[i].children + [|e|];
      }
    }
  }

  lemma StepExtends(env: Env, b: Builder, line: string)
    requires Ready(b) && Step(env, b, line).Ok?
    ensures Extends(b.outline.entries, Step(env, b, line).value.outline.entries)
  {
    var s := Strip(line);
    if (s == COMMENT_MARKER) != b.commentMode {
      StepSkipsComment(env, b, line);
    } else if s == META_MARKER {
      StepTogglesMeta(env, b, line);
    } else if b.metaMode {
      StepMetaLine(env, b, line);
    } else {
      StepEntryLine(env, b, line);
      var lt := ParseLine(b.meta, line).value;
      if lt.1 != [] {
        AddEntryExtends(env, b.meta, b.outline, lt.0, lt.1);
      }
    }
  }

  /** No entry that `generate` has finished is altered by later lines, not even its counter snapshot. */
  lemma {:induction false} RunExtends(env: Env, b: Builder, lines: seq<string>)
    requires Ready(b)
    ensures Extends(b.outline.entries, Run(env, b, lines).last.outline.entries)
    decreases |lines|
  {
    if lines != [] {
      var init := lines[..|lines| - 1];
      RunExtends(env, b, init);
      var o := Run(env, b, init);
      if o.err.None? {
        var st := Step(env, o.last, lines[|lines| - 1]);
        if st.Ok? {
          StepExtends(env, o.last, lines[|lines| - 1]);
          ExtendsTrans(b.outline.entries, o.last.outline.entries, st.value.outline.entries);
        }
      }
    }
  }

  // ---------------------------------------------------------------- children

  /** Following k child indices goes k levels down; from the root, the entry reached lies at level k - 1. */
  lemma {:induction false} FollowLevel(e: seq<Entry>, node: nat, path: seq<int>)
    requires ArenaShape(e) && ChildrenInRange(e) && node < |e|
    ensures Follow(e, node, path).Ok? ==> e[Follow(e, node, path).value].level == e[node].level + |path|
    decreases |path|
  {
    if path != [] {
      var k := PyIndex(|e[node].children|, path[0]);
      if k.Some? {
        var c := e[node].children[k.value];
        assert c in e[node].children;
        FollowLevel(e, c, path[1..]);
      }
    }
  }
}
