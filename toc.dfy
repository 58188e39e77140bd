/**
 * tsk/toc.py: the outline (TOC) builder.
 *
 * The outline text is read line by line. A "+-+" line toggles comment mode,
 * a "+++" line toggles meta mode, a line in meta mode is a `key: value`
 * setting, and any other line is an entry whose depth is its indentation.
 * Entries form a tree under a synthetic root at level -1; each one gets a
 * copy of the five per-level counters, a slug and a url.
 *
 * The tree is an arena `seq<Entry>`: index 0 is the root and `children`
 * holds arena indices. The parent table `parent_entries`, a dict keyed by
 * level -1..4, is a sequence of six slots, slot k holding level k - 1.
 */
module Toc {
  import opened Wrappers
  import opened PyText
  import Utils
  import Counters

  const COMMENT_MARKER: string := "+-+"
  const META_MARKER: string := "+++"
  const DEPTH: nat := Counters.DEPTH

  /** A front-matter value: `int(value)` when that succeeds, the string otherwise. */
  datatype MetaValue = IntVal(i: int) | StrVal(s: string)

  type Meta = map<string, MetaValue>

  datatype TocError =
    | MetaWithoutColon(line: string)   // ValueError: `key, value = line.split(':', 1)` with no colon
    | MetaListValue(key: string)       // TypeError: `int()` of the list a comma-separated value becomes
    | MissingMetaKey(key: string)      // KeyError on `self.meta[key]`
    | MetaTypeError(key: string)       // TypeError: `' ' * str` or `lstrip(int)`
    | LevelOutOfRange(level: int)      // IndexError: `hierarchy[level]` beyond the five counters
    | MissingLevel(level: int)         // KeyError: `parent_entries[level]` never set
    | MalformedToc                     // TskError('Malformed TOC. Missing level to hierarchy.')
    | NoRoot                           // KeyError: `self.toc['children']` before generate()
    | IndexOutOfRange(index: int)      // IndexError: `children[c]`
    | UnboundChild                     // UnboundLocalError: `children()` called with no index

  /** An outline entry. The root has level -1, empty title and slug, and url "". */
  datatype Entry = Entry(level: int, title: string, slug: string, url: Option<string>,
                         hierarchy: seq<int>, children: seq<nat>)

  /** A `parent_entries` slot: key missing, set to None, or holding an entry. */
  datatype Slot = Absent | Cleared | Holds(node: nat)

  /** What `generate` builds and threads through `process_entry`: counters, parent slots, the tree. */
  datatype Outline = Outline(counters: seq<int>, slots: seq<Slot>, entries: seq<Entry>)

  /** The collaborators of a TOC: the page directory, the files in it, and the slug library. */
  datatype Env = Env(pageDir: string, pageFiles: set<string>, slugLib: string -> string)

  // ---------------------------------------------------------------- meta

  function SetDefault(m: Meta, key: string, v: MetaValue): Meta {
    if key in m then m else m[key := v]
  }

  /** `set_default_meta`: the three settings get their defaults unless already present. */
  function SetDefaultMeta(m: Meta): (r: Meta)
    ensures r.Keys == m.Keys + {"indent_spacing", "bullet_characters", "page_level"}
    ensures forall k :: k in m ==> r[k] == m[k]
    ensures "indent_spacing" !in m ==> r["indent_spacing"] == IntVal(4)
    ensures "bullet_characters" !in m ==> r["bullet_characters"] == StrVal("-*+")
    ensures "page_level" !in m ==> r["page_level"] == IntVal(1)
  {
    SetDefault(SetDefault(SetDefault(m, "indent_spacing", IntVal(4)),
                          "bullet_characters", StrVal("-*+")),
               "page_level", IntVal(1))
  }

  predicate HasDefaults(m: Meta) {
    "indent_spacing" in m && "bullet_characters" in m && "page_level" in m
  }

  /** The `try: int(value) except ValueError` coercion of a single-token value. */
  function Coerce(value: string): (r: MetaValue)
    ensures r.StrVal? <==> ParseInt(value).None?
    ensures r.StrVal? ==> r.s == value
    ensures r.IntVal? ==> ParseInt(value) == Some(r.i)
  {
    match ParseInt(value)
    case Some(n) => IntVal(n)
    case None => StrVal(value)
  }

  /** The key and value `process_meta` stores for one front-matter line. */
  function ParseMetaLine(line: string): (r: Result<(string, MetaValue), TocError>)
    ensures r == Err(MetaWithoutColon(line)) <==> ':' !in line
  {
    match FirstIn(line, {':'})
    case None => Err(MetaWithoutColon(line))
    case Some(i) =>
      var key := Strip(line[..i]);
      var value := Strip(line[i + 1..]);
      if ',' in value then Err(MetaListValue(key)) else Ok((key, Coerce(value)))
  }

  // ---------------------------------------------------------------- parse_line

  /** `re.sub(r'\t', rep, s)`. */
  function ReplaceTabs(s: string, rep: string): string
    decreases |s|
  {
    if s == [] then [] else (if s[0] == '\t' then rep else [s[0]]) + ReplaceTabs(s[1..], rep)
  }

  /** `len(re.findall(p, s))` for a literal pattern: non-overlapping matches scanned left to right; an empty pattern matches |s| + 1 times. */
  function FindAllCount(s: string, p: string): nat
    decreases |s|
  {
    if p == [] then |s| + 1
    else if |s| < |p| then 0
    else if s[..|p|] == p then 1 + FindAllCount(s[|p|..], p)
    else FindAllCount(s[1..], p)
  }

  /** `parse_line`: the indentation level and the title of an outline line. */
  function ParseLine(meta: Meta, line: string): (r: Result<(nat, string), TocError>)
    ensures r.Ok? ==> "bullet_characters" in meta && meta["bullet_characters"].StrVal? &&
                      (r.value.1 == [] || r.value.1[0] !in meta["bullet_characters"].s)
  {
    if "indent_spacing" !in meta then Err(MissingMetaKey("indent_spacing"))
    else if !meta["indent_spacing"].IntVal? then Err(MetaTypeError("indent_spacing"))
    else
      var spaceIndent := Spaces(meta["indent_spacing"].i);
      var m := FirstNotIn(line, WHITESPACE);
      var text := match m case Some(p) => line[p..] case None => line;
      if "bullet_characters" !in meta then Err(MissingMetaKey("bullet_characters"))
      else if !meta["bullet_characters"].StrVal? then Err(MetaTypeError("bullet_characters"))
      else
        var title := LStrip(text, CharSet(meta["bullet_characters"].s));
        var indent := match m case Some(p) => line[..p] case None => "";
        Ok((FindAllCount(ReplaceTabs(indent, spaceIndent), spaceIndent), title))
  }

  // ---------------------------------------------------------------- the outline

  function RootEntry(): Entry {
    Entry(-1, "", "", Some(""), Counters.Zeros(), [])
  }

  /** The state `generate` starts from: zero counters, `{-1: root}`, a tree holding only the root. */
  function EmptyOutline(): (o: Outline)
    ensures Wf(o)
  {
    Outline(Counters.Zeros(), [Holds(0), Absent, Absent, Absent, Absent, Absent], [RootEntry()])
  }

  /** Every child index names a later entry of the arena, one level deeper. */
  predicate ArenaShape(e: seq<Entry>) {
    forall i, k | 0 <= i < |e| && 0 <= k < |e[i].children| ::
      i < e[i].children[k] < |e| && e[e[i].children[k]].level == e[i].level + 1
  }

  predicate ChildrenInRange(e: seq<Entry>) {
    forall i: int, c: nat | 0 <= i < |e| && c in e[i].children :: c < |e|
  }

  /**
   * The slots of levels -1 up to the last entry's level are occupied and the
   * deeper ones are missing (before any entry) or None (afterwards).
   */
  predicate SlotsTrackLast(o: Outline)
    requires |o.slots| == DEPTH + 1 && |o.entries| >= 1
  {
    var p := o.entries[|o.entries| - 1].level;
    -1 <= p < DEPTH &&
    forall k | 0 <= k <= DEPTH ::
      if k <= p + 1 then o.slots[k].Holds?
      else o.slots[k] == (if |o.entries| == 1 then Absent else Cleared)
  }

  /** An occupied slot k holds the most recent entry at level k - 1. */
  predicate SlotsPointBack(o: Outline)
    requires |o.slots| == DEPTH + 1
  {
    forall k | 0 <= k <= DEPTH && o.slots[k].Holds? ::
      o.slots[k].node < |o.entries| && o.entries[o.slots[k].node].level == k - 1 &&
      forall j | o.slots[k].node < j < |o.entries| :: o.entries[j].level > k - 1
  }

  /** The invariant `generate` keeps between lines. */
  predicate Wf(o: Outline) {
    |o.counters| == DEPTH && |o.slots| == DEPTH + 1 && |o.entries| >= 1 &&
    o.entries[0].level == -1 && o.slots[0] == Holds(0) &&
    (forall i | 1 <= i < |o.entries| :: 0 <= o.entries[i].level < DEPTH) &&
    SlotsTrackLast(o) && SlotsPointBack(o) && ArenaShape(o.entries)
  }

  /** How `_set_hierarchy` fails on the first unusable parent slot: a missing key or a None. */
  function GapError(s: Slot, k: nat): TocError
    requires !s.Holds?
  {
    if s == Absent then MissingLevel(k - 1) else MalformedToc
  }

  /** The check of `_set_hierarchy`'s loop for levels k - 1 .. level - 1, in that order. */
  function GapFrom(slots: seq<Slot>, k: nat, level: nat): (r: Option<TocError>)
    requires level < |slots| && k <= level + 1
    ensures r.None? <==> forall j :: k <= j <= level ==> slots[j].Holds?
    decreases level + 1 - k
  {
    if k > level then None
    else if !slots[k].Holds? then Some(GapError(slots[k], k))
    else GapFrom(slots, k + 1, level)
  }

  lemma {:induction false} GapFromFirst(slots: seq<Slot>, k: nat, j: nat, level: nat)
    requires k <= j <= level < |slots|
    requires forall m :: k <= m < j ==> slots[m].Holds?
    requires !slots[j].Holds?
    ensures GapFrom(slots, k, level) == Some(GapError(slots[j], j))
    decreases j - k
  {
    if k < j {
      GapFromFirst(slots, k + 1, j, level);
    }
  }

  /** The parent table after an entry `id` at `level`: its slot set, every deeper slot None. */
  function Reattach(slots: seq<Slot>, level: nat, id: nat): (r: seq<Slot>)
    requires level < DEPTH && |slots| == DEPTH + 1
    ensures |r| == DEPTH + 1 && r[level + 1] == Holds(id)
    ensures forall k :: 0 <= k <= level ==> r[k] == slots[k]
    ensures forall k :: level + 1 < k <= DEPTH ==> r[k] == Cleared
  {
    seq(DEPTH + 1, k requires 0 <= k <= DEPTH =>
      if k == level + 1 then Holds(id) else if k > level + 1 then Cleared else slots[k])
  }

  /** `_set_hierarchy`: the parent's arena index, the new counters and the new parent table. */
  function HierarchyStep(counters: seq<int>, slots: seq<Slot>, level: nat, id: nat)
    : (r: Result<(nat, seq<int>, seq<Slot>), TocError>)
    requires |counters| == DEPTH && |slots| == DEPTH + 1
    ensures r.Ok? ==> level < DEPTH && slots[level].Holds? && r.value.0 == slots[level].node
  {
    if level >= DEPTH then Err(LevelOutOfRange(level))
    else match GapFrom(slots, 0, level)
      case Some(e) => Err(e)
      case None => Ok((slots[level].node, Counters.Advance(counters, level), Reattach(slots, level, id)))
  }

  predicate PageExists(env: Env, slug: string) {
    Join(env.pageDir, slug + ".html") in env.pageFiles
  }

  /** The url of an entry that owns a page: `slug.html` when that file exists, otherwise None. */
  function PageUrl(env: Env, slug: string): Option<string> {
    if PageExists(env, slug) then Some(slug + ".html") else None
  }

  /** `entry['level'] <= self.meta['page_level']`; Python 2 orders every int below every str. */
  predicate WithinPage(meta: Meta, level: int)
    requires "page_level" in meta
  {
    match meta["page_level"]
    case IntVal(p) => level <= p
    case StrVal(_) => true
  }

  /** The tree after `parent_entry['children'].append(entry)`: `entry` becomes the last child of `p`. */
  function Attach(e: seq<Entry>, p: nat, entry: Entry): (r: seq<Entry>)
    requires p < |e|
    ensures |r| == |e| + 1 && r[|e|] == entry
    ensures forall i :: 0 <= i < |e| && i != p ==> r[i] == e[i]
    ensures r[p] == e[p].(children := e[p].children + [|e|])
  {
    e[p := e[p].(children := e[p].children + [|e|])] + [entry]
  }

  /** `process_entry`: the outline after the entry (`level`, `title`). */
  function AddEntry(env: Env, meta: Meta, o: Outline, level: nat, title: string): (r: Result<Outline, TocError>)
    requires Wf(o) && "page_level" in meta
  {
    match HierarchyStep(o.counters, o.slots, level, |o.entries|)
    case Err(e) => Err(e)
    case Ok(res) =>
      var p := res.0;
      var slug := Utils.Slugify(env.slugLib, title);
      var url := if WithinPage(meta, level) then PageUrl(env, slug) else o.entries[p].url;
      Ok(Outline(res.1, res.2, Attach(o.entries, p, Entry(level, title, slug, url, res.1, []))))
  }

  lemma ArenaInRange(e: seq<Entry>)
    requires ArenaShape(e)
    ensures ChildrenInRange(e)
  {
    forall i: int, c: nat | 0 <= i < |e| && c in e[i].children
      ensures c < |e|
    {
      var k :| 0 <= k < |e[i].children| && e[i].children[k] == c;
    }
  }

  lemma AttachShape(e: seq<Entry>, p: nat, entry: Entry)
    requires ArenaShape(e) && p < |e|
    requires entry.level == e[p].level + 1 && entry.children == []
    ensures ArenaShape(Attach(e, p, entry))
  {
    var e' := Attach(e, p, entry);
    var n := |e|;
    forall i, k | 0 <= i < |e'| && 0 <= k < |e'[i].children|
      ensures i < e'[i].children[k] < |e'| && e'[e'[i].children[k]].level == e'[i].level + 1
    {
      if i == n {
      } else if i == p && k == |e[p].children| {
        assert e'[i].children[k] == n;
      } else {
        assert e'[i].children[k] == e[i].children[k];
      }
    }
  }

  /** The invariant survives a successful `_set_hierarchy` and the append of a new entry at `level`. */
  lemma NewEntryWf(o: Outline, level: nat, entry: Entry)
    requires Wf(o) && level < DEPTH
    requires forall k :: 0 <= k <= level ==> o.slots[k].Holds?
    requires entry.level == level && entry.children == []
    ensures Wf(Outline(Counters.Advance(o.counters, level), Reattach(o.slots, level, |o.entries|),
                       Attach(o.entries, o.slots[level].node, entry)))
  {
    var p := o.slots[level].node;
    assert p < |o.entries| && o.entries[p].level == level - 1;
    AttachShape(o.entries, p, entry);
    NewEntryTracksLast(o, level, entry);
    NewEntryPointsBack(o, level, entry);
  }

  lemma NewEntryTracksLast(o: Outline, level: nat, entry: Entry)
    requires Wf(o) && level < DEPTH
    requires forall k :: 0 <= k <= level ==> o.slots[k].Holds?
    requires entry.level == level
    ensures SlotsTrackLast(Outline(Counters.Advance(o.counters, level), Reattach(o.slots, level, |o.entries|),
                                   Attach(o.entries, o.slots[level].node, entry)))
  {
  }

  lemma NewEntryPointsBack(o: Outline, level: nat, entry: Entry)
    requires Wf(o) && level < DEPTH
    requires forall k :: 0 <= k <= level ==> o.slots[k].Holds?
    requires entry.level == level
    ensures SlotsPointBack(Outline(Counters.Advance(o.counters, level), Reattach(o.slots, level, |o.entries|),
                                   Attach(o.entries, o.slots[level].node, entry)))
  {
    var n := |o.entries|;
    var slots' := Reattach(o.slots, level, n);
    var e' := Attach(o.entries, o.slots[level].node, entry);
    assert forall i :: 0 <= i < n ==> e'[i].level == o.entries[i].level;
    forall k | 0 <= k <= DEPTH && slots'[k].Holds?
      ensures slots'[k].node < |e'| && e'[slots'[k].node].level == k - 1
      ensures forall j | slots'[k].node < j < |e'| :: e'[j].level > k - 1
    {
      if k <= level {
        assert slots'[k] == o.slots[k];
      }
    }
  }

  lemma AddEntryWf(env: Env, meta: Meta, o: Outline, level: nat, title: string)
    requires Wf(o) && "page_level" in meta
    ensures AddEntry(env, meta, o, level, title).Ok? ==> Wf(AddEntry(env, meta, o, level, title).value)
  {
    if level < DEPTH && GapFrom(o.slots, 0, level).None? {
      var r := AddEntry(env, meta, o, level, title);
      NewEntryWf(o, level, r.value.entries[|o.entries|]);
    }
  }

  // ---------------------------------------------------------------- generate

  /** `generate`'s locals and `self.meta` between two lines. */
  datatype Builder = Builder(meta: Meta, metaMode: bool, commentMode: bool, outline: Outline)

  predicate Ready(b: Builder) {
    Wf(b.outline) && HasDefaults(b.meta)
  }

  function Start(meta: Meta): (b: Builder)
    ensures HasDefaults(meta) ==> Ready(b)
  {
    Builder(meta, false, false, EmptyOutline())
  }

  /** One iteration of `generate`'s loop. */
  function Step(env: Env, b: Builder, line: string): (r: Result<Builder, TocError>)
    requires Ready(b)
    ensures r.Ok? ==> Ready(r.value)
  {
    var s := Strip(line);
    var b1 := b.(commentMode := if s == COMMENT_MARKER then !b.commentMode else b.commentMode);
    if b1.commentMode then Ok(b1)
    else if s == META_MARKER then Ok(b1.(metaMode := !b1.metaMode))
    else if b1.metaMode then
      match ParseMetaLine(line)
      case Err(e) => Err(e)
      case Ok(kv) => Ok(b1.(meta := b1.meta[kv.0 := kv.1]))
    else
      match ParseLine(b1.meta, line)
      case Err(e) => Err(e)
      case Ok(lt) =>
        if lt.1 == [] then Ok(b1)
        else
          AddEntryWf(env, b1.meta, b1.outline, lt.0, lt.1);
          match AddEntry(env, b1.meta, b1.outline, lt.0, lt.1)
          case Err(e) => Err(e)
          case Ok(o) => Ok(b1.(outline := o))
  }

  /** Where `generate` stands after some lines: the last good state, and the error that stopped it, if any. */
  datatype Outcome = Outcome(last: Builder, err: Option<TocError>)

  /** `generate`'s loop over `lines`, from `b`. */
  function Run(env: Env, b: Builder, lines: seq<string>): (o: Outcome)
    requires Ready(b)
    ensures Ready(o.last)
    decreases |lines|
  {
    if lines == [] then Outcome(b, None)
    else
      var o := Run(env, b, lines[..|lines| - 1]);
      if o.err.Some? then o
      else match Step(env, o.last, lines[|lines| - 1])
        case Ok(b') => Outcome(b', None)
        case Err(e) => Outcome(o.last, Some(e))
  }

  /** Run over one more line: the step from where the shorter run stopped. */
  lemma RunSnoc(env: Env, b: Builder, lines: seq<string>, i: nat)
    requires Ready(b) && i < |lines|
    requires Run(env, b, lines[..i]).err.None?
    ensures var o := Run(env, b, lines[..i]);
      Run(env, b, lines[..i + 1]) ==
        match Step(env, o.last, lines[i])
        case Ok(b') => Outcome(b', None)
        case Err(e) => Outcome(o.last, Some(e))
  {
    assert lines[..i + 1][..i] == lines[..i];
  }

  /** A line that leaves comment mode on (the opening "+-+" or any line inside) only sets the mode. */
  lemma StepSkipsComment(env: Env, b: Builder, line: string)
    requires Ready(b) && (Strip(line) == COMMENT_MARKER) != b.commentMode
    ensures Step(env, b, line) == Ok(b.(commentMode := true))
  {
  }

  /** Outside comment mode, a "+++" line flips meta mode and is otherwise discarded. */
  lemma StepTogglesMeta(env: Env, b: Builder, line: string)
    requires Ready(b) && !b.commentMode && Strip(line) == META_MARKER
    ensures Step(env, b, line) == Ok(b.(metaMode := !b.metaMode))
  {
  }

  /** In meta mode, a line that leaves comment mode off (including the closing "+-+") is a setting. */
  lemma StepMetaLine(env: Env, b: Builder, line: string)
    requires Ready(b) && (Strip(line) == COMMENT_MARKER) == b.commentMode
    requires Strip(line) != META_MARKER && b.metaMode
    ensures Step(env, b, line) ==
      match ParseMetaLine(line)
      case Err(e) => Err(e)
      case Ok(kv) => Ok(b.(commentMode := false, meta := b.meta[kv.0 := kv.1]))
  {
  }

  /** Outside both modes, a line (including the closing "+-+") is an entry unless its title is empty. */
  lemma StepEntryLine(env: Env, b: Builder, line: string)
    requires Ready(b) && (Strip(line) == COMMENT_MARKER) == b.commentMode
    requires Strip(line) != META_MARKER && !b.metaMode
    ensures Step(env, b, line) ==
      match ParseLine(b.meta, line)
      case Err(e) => Err(e)
      case Ok(lt) =>
        if lt.1 == [] then Ok(b.(commentMode := false))
        else match AddEntry(env, b.meta, b.outline, lt.0, lt.1)
          case Err(e) => Err(e)
          case Ok(o) => Ok(b.(commentMode := false, outline := o))
  {
  }

  lemma {:induction false} RunStopsAtError(env: Env, b: Builder, lines: seq<string>, n: nat)
    requires Ready(b) && n <= |lines|
    requires Run(env, b, lines[..n]).err.Some?
    ensures Run(env, b, lines) == Run(env, b, lines[..n])
    decreases |lines| - n
  {
    if n < |lines| {
      var init := lines[..|lines| - 1];
      assert init[..n] == lines[..n];
      RunStopsAtError(env, b, init, n);
      assert Run(env, b, init).err.Some?;
      assert Run(env, b, lines) == Run(env, b, init);
    } else {
      assert lines[..n] == lines;
    }
  }

  // ---------------------------------------------------------------- children

  /** A Python list index into a list of length n: negative indices count from the end. */
  function PyIndex(n: nat, c: int): (r: Option<nat>)
    ensures r.Some? <==> -(n as int) <= c < n
    ensures r.Some? ==> r.value < n && r.value == (if c >= 0 then c else n + c)
  {
    if 0 <= c < n then Some(c) else if -(n as int) <= c < 0 then Some(n + c) else None
  }

  /** The arena index reached from `node` by following the child indices of `path`. */
  function Follow(e: seq<Entry>, node: nat, path: seq<int>): (r: Result<nat, TocError>)
    requires ChildrenInRange(e) && node < |e|
    ensures r.Ok? ==> r.value < |e|
    decreases |path|
  {
    if path == [] then Ok(node)
    else match PyIndex(|e[node].children|, path[0])
      case None => Err(IndexOutOfRange(path[0]))
      case Some(k) =>
        assert e[node].children[k] in e[node].children;
        Follow(e, e[node].children[k], path[1..])
  }

  // ---------------------------------------------------------------- the class

  class TOC {
    const tocText: string
    const env: Env
    var meta: Meta
    /** `self.toc`: empty until `generate` runs, then the arena whose entry 0 is the root. */
    var entries: seq<Entry>
    /** `self.toc['page_level']`, copied onto the root when `generate` finishes. */
    var rootPageLevel: Option<MetaValue>

    ghost predicate Valid()
      reads this
    {
      HasDefaults(meta) && ChildrenInRange(entries)
    }

    /** `TOC(toc_file, page_dir)`, with the file's text given directly. */
    constructor (tocText: string, pageDir: string, pageFiles: set<string>, slugLib: string -> string)
      ensures Valid()
      ensures this.tocText == tocText && env == Env(pageDir, pageFiles, slugLib)
      ensures meta == SetDefaultMeta(map[]) && entries == [] && rootPageLevel == None
    {
      this.tocText := tocText;
      env := Env(pageDir, pageFiles, slugLib);
      meta := SetDefaultMeta(map[]);
      entries := [];
      rootPageLevel := None;
    }

    /** `process_meta`: store one `key: value` line. */
    method ProcessMeta(line: string) returns (err: Option<TocError>)
      modifies this`meta
      ensures match ParseMetaLine(line)
        case Ok(kv) => err == None && meta == old(meta)[kv.0 := kv.1]
        case Err(e) => err == Some(e) && meta == old(meta)
    {
      var colon := FirstIn(line, {':'});
      if colon.None? {
        return Some(MetaWithoutColon(line));
      }
      var key := Strip(line[..colon.value]);
      var value := Strip(line[colon.value + 1..]);
      if ',' in value {
        return Some(MetaListValue(key));
      }
      meta := meta[key := Coerce(value)];
      return None;
    }

    /** `_set_hierarchy`, nested in `process_entry`: update the counters and the parent table in place. */
    static method SetHierarchy(level: nat, id: nat, hierarchy: array<int>, parents: array<Slot>)
      returns (r: Result<nat, TocError>)
      requires hierarchy.Length == DEPTH && parents.Length == DEPTH + 1
      modifies hierarchy, parents
      ensures match HierarchyStep(old(hierarchy[..]), old(parents[..]), level, id)
        case Ok(res) => r == Ok(res.0) && hierarchy[..] == res.1 && parents[..] == res.2
        case Err(e) => r == Err(e)
    {
      if level >= DEPTH {
        return Err(LevelOutOfRange(level));
      }
      ghost var c0 := hierarchy[..];
      ghost var s0 := parents[..];
      hierarchy[level] := hierarchy[level] + 1;
      parents[level + 1] := Holds(id);
      var parent: nat := 0;
      var i: int := -1;
      while i < DEPTH
        invariant -1 <= i <= DEPTH
        invariant forall k :: 0 <= k <= i && k <= level ==> s0[k].Holds?
        invariant i >= 0 ==> s0[if i < level then i else level].Holds? &&
                             parent == s0[if i < level then i else level].node
        invariant forall j :: 0 <= j < DEPTH ==>
          hierarchy[j] == (if j == level then c0[j] + 1 else if level < j < i then 0 else c0[j])
        invariant forall k :: 0 <= k <= DEPTH ==>
          parents[k] == (if k == level + 1 then Holds(id) else if level + 1 < k <= i then Cleared else s0[k])
      {
        if i < level {
          var slot := parents[i + 1];
          if !slot.Holds? {
            GapFromFirst(s0, 0, i + 1, level);
            return Err(if slot == Absent then MissingLevel(i) else MalformedToc);
          }
          parent := slot.node;
        }
        if i > level {
          hierarchy[i] := 0;
          parents[i + 1] := Cleared;
        }
        i := i + 1;
      }
      assert hierarchy[..] == Counters.Advance(c0, level);
      assert parents[..] == Reattach(s0, level, id);
      return Ok(parent);
    }

    /** `process_entry`: number the entry, attach it to its parent, give it a slug and a url. */
    method ProcessEntry(level: nat, title: string, hierarchy: array<int>, parents: array<Slot>)
      returns (err: Option<TocError>)
      requires hierarchy.Length == DEPTH && parents.Length == DEPTH + 1
      requires Wf(Outline(hierarchy[..], parents[..], entries)) && "page_level" in meta
      modifies this`entries, hierarchy, parents
      ensures match AddEntry(env, meta, old(Outline(hierarchy[..], parents[..], entries)), level, title)
        case Ok(o) => err == None && Outline(hierarchy[..], parents[..], entries) == o
        case Err(e) => err == Some(e) && entries == old(entries)
    {
      var found := SetHierarchy(level, |entries|, hierarchy, parents);
      if found.Err? {
        return Some(found.error);
      }
      var p := found.value;
      var entry := Entry(level, title, "", None, hierarchy[..], []);
      var id := |entries|;
      entries := entries[p := entries[p].(children := entries[p].children + [id])] + [entry];
      var slug := Utils.Slugify(env.slugLib, title);
      var url;
      if WithinPage(meta, level) {
        url := if PageExists(env, slug) then Some(slug + ".html") else None;
      } else {
        url := entries[p].url;
      }
      entries := entries[id := entry.(slug := slug, url := url)];
      return None;
    }

    /** The body of `generate`'s loop for one line: `Step` done in place. */
    method GenerateLine(line: string, hierarchy: array<int>, parents: array<Slot>, metaMode: bool, commentMode: bool)
      returns (metaMode': bool, commentMode': bool, err: Option<TocError>)
      requires hierarchy.Length == DEPTH && parents.Length == DEPTH + 1
      requires Ready(Builder(meta, metaMode, commentMode, Outline(hierarchy[..], parents[..], entries)))
      modifies this`meta, this`entries, hierarchy, parents
      ensures match Step(env, old(Builder(meta, metaMode, commentMode, Outline(hierarchy[..], parents[..], entries))), line)
        case Ok(b') => err == None && Builder(meta, metaMode', commentMode', Outline(hierarchy[..], parents[..], entries)) == b'
        case Err(e) => err == Some(e) && meta == old(meta) && entries == old(entries)
    {
      ghost var b := Builder(meta, metaMode, commentMode, Outline(hierarchy[..], parents[..], entries));
      metaMode', commentMode', err := metaMode, commentMode, None;
      var s := Strip(line);
      if s == COMMENT_MARKER {
        commentMode' := !commentMode;
      }
      if commentMode' {
        StepSkipsComment(env, b, line);
      } else if s == META_MARKER {
        StepTogglesMeta(env, b, line);
        metaMode' := !metaMode;
      } else if metaMode {
        err := MetaLine(line, hierarchy, parents, commentMode);
        commentMode' := false;
      } else {
        err := EntryLine(line, hierarchy, parents, commentMode);
        commentMode' := false;
      }
    }

    /** A line of `generate`'s loop in meta mode: `process_meta`. */
    method MetaLine(line: string, hierarchy: array<int>, parents: array<Slot>, commentMode: bool)
      returns (err: Option<TocError>)
      requires hierarchy.Length == DEPTH && parents.Length == DEPTH + 1
      requires Ready(Builder(meta, true, commentMode, Outline(hierarchy[..], parents[..], entries)))
      requires (Strip(line) == COMMENT_MARKER) == commentMode && Strip(line) != META_MARKER
      modifies this`meta
      ensures match Step(env, old(Builder(meta, true, commentMode, Outline(hierarchy[..], parents[..], entries))), line)
        case Ok(b') => err == None && Builder(meta, true, false, Outline(hierarchy[..], parents[..], entries)) == b'
        case Err(e) => err == Some(e) && meta == old(meta)
    {
      StepMetaLine(env, Builder(meta, true, commentMode, Outline(hierarchy[..], parents[..], entries)), line);
      err := ProcessMeta(line);
    }

    /** A line of `generate`'s loop outside both modes: `parse_line`, then `process_entry` unless the title is empty. */
    method EntryLine(line: string, hierarchy: array<int>, parents: array<Slot>, commentMode: bool)
      returns (err: Option<TocError>)
      requires hierarchy.Length == DEPTH && parents.Length == DEPTH + 1
      requires Ready(Builder(meta, false, commentMode, Outline(hierarchy[..], parents[..], entries)))
      requires (Strip(line) == COMMENT_MARKER) == commentMode && Strip(line) != META_MARKER
      modifies this`entries, hierarchy, parents
      ensures match Step(env, old(Builder(meta, false, commentMode, Outline(hierarchy[..], parents[..], entries))), line)
        case Ok(b') => err == None && Builder(meta, false, false, Outline(hierarchy[..], parents[..], entries)) == b'
        case Err(e) => err == Some(e) && entries == old(entries)
    {
      StepEntryLine(env, Builder(meta, false, commentMode, Outline(hierarchy[..], parents[..], entries)), line);
      var parsed := ParseLine(meta, line);
      if parsed.Err? {
        return Some(parsed.error);
      }
      if parsed.value.1 != [] {
        err := ProcessEntry(parsed.value.0, parsed.value.1, hierarchy, parents);
      } else {
        err := None;
      }
    }

    /** Line i of `generate`'s loop, after lines 0 .. i - 1 went through: one more line read, or the run's error. */
    method GenerateNext(ghost start: Builder, lines: seq<string>, i: nat, hierarchy: array<int>, parents: array<Slot>,
                        metaMode: bool, commentMode: bool)
      returns (metaMode': bool, commentMode': bool, err: Option<TocError>)
      requires hierarchy.Length == DEPTH && parents.Length == DEPTH + 1
      requires Ready(start) && i < |lines|
      requires Run(env, start, lines[..i]) == Outcome(Builder(meta, metaMode, commentMode, Outline(hierarchy[..], parents[..], entries)), None)
      modifies this`meta, this`entries, hierarchy, parents
      ensures err.None? ==>
        Run(env, start, lines[..i + 1]) == Outcome(Builder(meta, metaMode', commentMode', Outline(hierarchy[..], parents[..], entries)), None)
      ensures err.Some? ==> var o := Run(env, start, lines);
        o.err == err && o.last.meta == meta && o.last.outline.entries == entries
    {
      RunSnoc(env, start, lines, i);
      metaMode', commentMode', err := GenerateLine(lines[i], hierarchy, parents, metaMode, commentMode);
      if err.Some? {
        RunStopsAtError(env, start, lines, i + 1);
      }
    }

    /** The start of `generate`: zero counters, `{-1: root}` and a tree holding only the root. */
    method Reset() returns (hierarchy: array<int>, parents: array<Slot>)
      modifies this`entries, this`rootPageLevel
      ensures fresh(hierarchy) && fresh(parents) && hierarchy.Length == DEPTH && parents.Length == DEPTH + 1
      ensures Outline(hierarchy[..], parents[..], entries) == EmptyOutline() && rootPageLevel == None
    {
      hierarchy := new int[DEPTH](_ => 0);
      entries := [Entry(-1, "", "", Some(""), hierarchy[..], [])];
      rootPageLevel := None;
      parents := new Slot[DEPTH + 1](k => if k == 0 then Holds(0) else Absent);
      assert hierarchy[..] == Counters.Zeros();
      assert parents[..] == [Holds(0), Absent, Absent, Absent, Absent, Absent];
    }

    /** `generate`: build the tree from the outline text. */
    method Generate() returns (err: Option<TocError>)
      requires Valid()
      modifies this
      ensures Valid()
      ensures var o := Run(env, Start(old(meta)), SplitLines(tocText));
        err == o.err && meta == o.last.meta && entries == o.last.outline.entries &&
        rootPageLevel == (if o.err.None? then Some(meta["page_level"]) else None)
    {
      var lines := SplitLines(tocText);
      ghost var start := Start(meta);
      var hierarchy, parents := Reset();
      err := GenerateLines(start, lines, hierarchy, parents);
      ArenaInRange(entries);
      if err.None? {
        rootPageLevel := Some(meta["page_level"]);
      }
    }

    /** `generate`'s loop: every line of `lines` in turn, from `start`, until one fails. */
    method GenerateLines(ghost start: Builder, lines: seq<string>, hierarchy: array<int>, parents: array<Slot>)
      returns (err: Option<TocError>)
      requires hierarchy.Length == DEPTH && parents.Length == DEPTH + 1
      requires Ready(start) && start == Builder(meta, false, false, Outline(hierarchy[..], parents[..], entries))
      modifies this`meta, this`entries, hierarchy, parents
      ensures var o := Run(env, start, lines);
        err == o.err && meta == o.last.meta && entries == o.last.outline.entries
    {
      var metaMode := false;
      var commentMode := false;
      assert lines[..0] == [];
      var i := 0;
      while i < |lines|
        invariant 0 <= i <= |lines|
        invariant Run(env, start, lines[..i])
          == Outcome(Builder(meta, metaMode, commentMode, Outline(hierarchy[..], parents[..], entries)), None)
      {
        metaMode, commentMode, err := GenerateNext(start, lines, i, hierarchy, parents, metaMode, commentMode);
        if err.Some? {
          return;
        }
        i := i + 1;
      }
      assert lines[..|lines|] == lines;
      err := None;
    }

    /** `children(*tree)` and `__call__`: the entry reached from the root by the child indices of `path`. */
    method Children(path: seq<int>) returns (r: Result<Entry, TocError>)
      requires Valid()
      ensures entries == [] ==> r == Err(NoRoot)
      ensures entries != [] && path == [] ==> r == Err(UnboundChild)
      ensures entries != [] && path != [] ==>
        r == match Follow(entries, 0, path) case Ok(n) => Ok(entries[n]) case Err(e) => Err(e)
    {
      if entries == [] {
        return Err(NoRoot);
      }
      var children := entries[0].children;
      ghost var node: nat := 0;
      var child: Option<nat> := None;
      var i := 0;
      while i < |path|
        invariant 0 <= i <= |path| && node < |entries|
        invariant children == entries[node].children
        invariant i == 0 ==> node == 0 && child == None
        invariant i > 0 ==> child == Some(node)
        invariant Follow(entries, 0, path) == Follow(entries, node, path[i..])
      {
        var k := PyIndex(|children|, path[i]);
        if k.None? {
          return Err(IndexOutOfRange(path[i]));
        }
        assert path[i..][1..] == path[i + 1..];
        assert children[k.value] in entries[node].children;
        node := children[k.value];
        child := Some(children[k.value]);
        children := entries[children[k.value]].children;
        i := i + 1;
      }
      if child.None? {
        return Err(UnboundChild);
      }
      return Ok(entries[child.value]);
    }
  }
}
