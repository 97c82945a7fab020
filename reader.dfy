/** The streaming sitemap reader (src/reader.rs).

    The XML tokenizer is an input sequence of low-level events and a cursor
    into it. The reader keeps the path of open tags (lower-cased local names)
    and two accumulators, and each call of `Next` pulls events until it can
    hand out an entity or the events run out.

    The behaviour is specified twice: a pure step function (`Step`) with the
    pull loop it drives (`NextSpec`) and the fold of a whole event stream
    (`Run`); the `SiteMapReader` class is proved against the former, and
    `ReadAllIsRun` ties reading entity by entity to the latter. */
module Reader {
  import opened Sitemap
  import opened Text
  import opened Structs

  /** What the XML tokenizer reports for malformed input. */
  datatype XmlReadError = XmlReadError(message: string)

  /** The tokenizer's events, reduced to what the reader distinguishes.
      `Other` covers document start and end, processing instructions,
      comments, CDATA and whitespace. */
  datatype Event =
    | StartElement(localName: string)
    | EndElement
    | Characters(data: string)
    | Error(error: XmlReadError)
    | Other

  /** What the reader yields. */
  datatype SiteMapEntity =
    | Url(url: UrlEntry)
    | SiteMap(sitemap: SiteMapEntry)
    | Err(error: XmlReadError)

  /** The two container paths. */
  const UrlPath: seq<string> := ["urlset", "url"]
  const SiteMapPath: seq<string> := ["sitemapindex", "sitemap"]

  /** The reader's state apart from the event source. */
  datatype ReaderState = ReaderState(path: seq<string>, urlItem: UrlEntry, sitemapItem: SiteMapEntry)

  /** A new reader: no open tag, both accumulators empty. */
  function Initial(): ReaderState {
    ReaderState([], UrlEntry.New(), SiteMapEntry.New())
  }

  /** Reaction of the accumulators to a path that has just been pushed:
      entering a container starts a fresh entry. */
  function OpenTagSpec(st: ReaderState): ReaderState {
    if st.path == UrlPath then st.(urlItem := UrlEntry.New())
    else if st.path == SiteMapPath then st.(sitemapItem := SiteMapEntry.New())
    else st
  }

  /** Text at one of the six leaf paths replaces that field with its decoding. */
  function TextContentSpec(p: Parsers, st: ReaderState, data: string): ReaderState {
    if st.path == UrlPath + ["loc"] then st.(urlItem := st.urlItem.(loc := Location.From(p, data)))
    else if st.path == UrlPath + ["lastmod"] then st.(urlItem := st.urlItem.(lastmod := LastMod.From(p, data)))
    else if st.path == UrlPath + ["changefreq"] then st.(urlItem := st.urlItem.(changefreq := ChangeFreq.From(data)))
    else if st.path == UrlPath + ["priority"] then st.(urlItem := st.urlItem.(priority := Priority.From(p, data)))
    else if st.path == SiteMapPath + ["loc"] then st.(sitemapItem := st.sitemapItem.(loc := Location.From(p, data)))
    else if st.path == SiteMapPath + ["lastmod"] then st.(sitemapItem := st.sitemapItem.(lastmod := LastMod.From(p, data)))
    else st
  }

  /** The entity a closing tag completes, judged on the path before the pop. */
  function CloseTagSpec(st: ReaderState): Option<SiteMapEntity> {
    if st.path == UrlPath then Some(SiteMapEntity.Url(st.urlItem))
    else if st.path == SiteMapPath then Some(SiteMapEntity.SiteMap(st.sitemapItem))
    else Option.None
  }

  /** `Vec::pop`: drops the last element, and leaves an empty path empty. */
  function Pop(path: seq<string>): (r: seq<string>)
    ensures path != [] ==> r + [path[|path| - 1]] == path
    ensures path == [] ==> r == []
  {
    if path == [] then [] else path[..|path| - 1]
  }

  datatype StepResult = StepResult(state: ReaderState, item: Option<SiteMapEntity>)

  /** One pass through the pull loop's body. */
  function Step(p: Parsers, st: ReaderState, e: Event): StepResult {
    match e
    case StartElement(name) => StepResult(OpenTagSpec(st.(path := st.path + [Lower(name)])), Option.None)
    case EndElement => StepResult(st.(path := Pop(st.path)), CloseTagSpec(st))
    case Characters(data) => StepResult(TextContentSpec(p, st, data), Option.None)
    case Error(error) => StepResult(st, Some(SiteMapEntity.Err(error)))
    case Other => StepResult(st, Option.None)
  }

  datatype NextResult = NextResult(state: ReaderState, cursor: nat, item: Option<SiteMapEntity>)

  /** What `next` does from `cursor`: step until an entity comes out or the
      events are exhausted. It yields nothing only at the end of the events. */
  function NextSpec(p: Parsers, st: ReaderState, events: seq<Event>, cursor: nat): (r: NextResult)
    requires cursor <= |events|
    ensures cursor <= r.cursor <= |events|
    ensures r.item.None? ==> r.cursor == |events|
    ensures r.item.Some? ==> cursor < r.cursor
    decreases |events| - cursor
  {
    if cursor == |events| then NextResult(st, cursor, Option.None)
    else
      var s := Step(p, st, events[cursor]);
      if s.item.Some? then NextResult(s.state, cursor + 1, s.item)
      else NextSpec(p, s.state, events, cursor + 1)
  }

  function Items(o: Option<SiteMapEntity>): seq<SiteMapEntity> {
    if o.Some? then [o.value] else []
  }

  datatype RunResult = RunResult(state: ReaderState, items: seq<SiteMapEntity>)

  /** The reference reading of a whole event stream: every event stepped in
      order, every entity kept. */
  function Run(p: Parsers, st: ReaderState, events: seq<Event>): RunResult
    decreases |events|
  {
    if events == [] then RunResult(st, [])
    else
      var s := Step(p, st, events[0]);
      var rest := Run(p, s.state, events[1..]);
      RunResult(rest.state, Items(s.item) + rest.items)
  }

  /** Reading a stream entity by entity, as a `for` loop over the reader does. */
  function ReadAll(p: Parsers, st: ReaderState, events: seq<Event>, cursor: nat): seq<SiteMapEntity>
    requires cursor <= |events|
    decreases |events| - cursor
  {
    var r := NextSpec(p, st, events, cursor);
    if r.item.None? then [] else [r.item.value] + ReadAll(p, r.state, events, r.cursor)
  }

  // ---------------------------------------------------------------------------
  // The reader object

  /** A reader over a tokenizer's event stream. */
  class SiteMapReader {
    var path: seq<string>
    var urlItem: UrlEntry
    var sitemapItem: SiteMapEntry
    /** The tokenizer's events and how many of them have been pulled. */
    const events: seq<Event>
    var cursor: nat
    /** The external parsers the field decoders use. */
    const parsers: Parsers

    function State(): ReaderState
      reads this
    {
      ReaderState(path, urlItem, sitemapItem)
    }

    ghost predicate Valid()
      reads this
    {
      cursor <= |events|
    }

    /** A reader positioned before the first event, with an empty path and
        empty accumulators. */
    constructor (source: seq<Event>, parsers: Parsers)
      ensures Valid()
      ensures path == [] && urlItem == UrlEntry.New() && sitemapItem == SiteMapEntry.New()
      ensures State() == Initial()
      ensures events == source && cursor == 0 && this.parsers == parsers
    {
      path := [];
      urlItem := UrlEntry.New();
      sitemapItem := SiteMapEntry.New();
      events := source;
      cursor := 0;
      this.parsers := parsers;
    }

    method OpenTag()
      modifies this`urlItem, this`sitemapItem
      ensures State() == OpenTagSpec(old(State()))
    {
      if path == UrlPath {
        urlItem := UrlEntry.New();
      } else if path == SiteMapPath {
        sitemapItem := SiteMapEntry.New();
      }
    }

    method TextContent(data: string)
      modifies this`urlItem, this`sitemapItem
      ensures State() == TextContentSpec(parsers, old(State()), data)
    {
      if path == UrlPath + ["loc"] {
        urlItem := urlItem.(loc := Location.From(parsers, data));
      } else if path == UrlPath + ["lastmod"] {
        urlItem := urlItem.(lastmod := LastMod.From(parsers, data));
      } else if path == UrlPath + ["changefreq"] {
        urlItem := urlItem.(changefreq := ChangeFreq.From(data));
      } else if path == UrlPath + ["priority"] {
        urlItem := urlItem.(priority := Priority.From(parsers, data));
      } else if path == SiteMapPath + ["loc"] {
        sitemapItem := sitemapItem.(loc := Location.From(parsers, data));
      } else if path == SiteMapPath + ["lastmod"] {
        sitemapItem := sitemapItem.(lastmod := LastMod.From(parsers, data));
      }
    }

    method CloseTag() returns (entity: Option<SiteMapEntity>)
      ensures entity == CloseTagSpec(State())
    {
      if path == UrlPath {
        return Some(SiteMapEntity.Url(urlItem));
      } else if path == SiteMapPath {
        return Some(SiteMapEntity.SiteMap(sitemapItem));
      }
      return Option.None;
    }

    /** Pulls events until one completes an entity or reports a tokenizer
        error; yields nothing once the events are exhausted. */
    method Next() returns (item: Option<SiteMapEntity>)
      requires Valid()
      modifies this`path, this`urlItem, this`sitemapItem, this`cursor
      ensures Valid()
      ensures NextResult(State(), cursor, item) == NextSpec(parsers, old(State()), events, old(cursor))
    {
      ghost var target := NextSpec(parsers, State(), events, cursor);
      while cursor < |events|
        invariant Valid()
        invariant NextSpec(parsers, State(), events, cursor) == target
        decreases |events| - cursor
      {
        var e := events[cursor];
        cursor := cursor + 1;
        match e {
          case StartElement(name) =>
            path := path + [Lower(name)];
            OpenTag();
          case EndElement =>
            var entity := CloseTag();
            if |path| > 0 {
              path := path[..|path| - 1];
            }
            if entity.Some? {
              return entity;
            }
          case Characters(data) =>
            TextContent(data);
          case Error(error) =>
            return Some(SiteMapEntity.Err(error));
          case Other =>
        }
      }
      return Option.None;
    }
  }

  // ---------------------------------------------------------------------------
  // One event at a time

  /** A start tag pushes its lower-cased name, so the path grows by one;
      only the two container paths reset an accumulator. */
  lemma StartTagPushes(p: Parsers, st: ReaderState, name: string)
    ensures var s := Step(p, st, StartElement(name));
      && s.item.None?
      && s.state.path == st.path + [Lower(name)]
      && |s.state.path| == |st.path| + 1
      && s.state.urlItem == (if s.state.path == UrlPath then UrlEntry.New() else st.urlItem)
      && s.state.sitemapItem == (if s.state.path == SiteMapPath then SiteMapEntry.New() else st.sitemapItem)
  {
  }

  /** Text touches at most one field, chosen by the exact path; anywhere else
      it changes nothing. */
  lemma TextSetsOneField(p: Parsers, st: ReaderState, data: string)
    ensures var s := Step(p, st, Characters(data));
      && s.item.None?
      && s.state.path == st.path
      && (st.path == UrlPath + ["loc"] ==> s.state == st.(urlItem := st.urlItem.(loc := Location.From(p, data))))
      && (st.path == UrlPath + ["lastmod"] ==> s.state == st.(urlItem := st.urlItem.(lastmod := LastMod.From(p, data))))
      && (st.path == UrlPath + ["changefreq"] ==> s.state == st.(urlItem := st.urlItem.(changefreq := ChangeFreq.From(data))))
      && (st.path == UrlPath + ["priority"] ==> s.state == st.(urlItem := st.urlItem.(priority := Priority.From(p, data))))
      && (st.path == SiteMapPath + ["loc"] ==> s.state == st.(sitemapItem := st.sitemapItem.(loc := Location.From(p, data))))
      && (st.path == SiteMapPath + ["lastmod"] ==> s.state == st.(sitemapItem := st.sitemapItem.(lastmod := LastMod.From(p, data))))
      && (st.path !in LeafPaths() ==> s.state == st)
  {
    ChildPathsDistinct("loc", "lastmod");
    ChildPathsDistinct("loc", "changefreq");
    ChildPathsDistinct("loc", "priority");
    ChildPathsDistinct("lastmod", "changefreq");
    ChildPathsDistinct("lastmod", "priority");
    ChildPathsDistinct("changefreq", "priority");
    ChildPathsDistinct("loc", "loc");
    ChildPathsDistinct("lastmod", "lastmod");
  }

  /** Paths one below a container differ when their last names differ, and
      paths below different containers always differ. */
  lemma ChildPathsDistinct(x: string, y: string)
    ensures x != y ==> UrlPath + [x] != UrlPath + [y] && SiteMapPath + [x] != SiteMapPath + [y]
    ensures UrlPath + [x] != SiteMapPath + [y] && UrlPath + [y] != SiteMapPath + [x]
    ensures UrlPath + [x] != UrlPath && UrlPath + [x] != SiteMapPath
    ensures SiteMapPath + [x] != UrlPath && SiteMapPath + [x] != SiteMapPath
  {
    assert (UrlPath + [x])[2] == x && (UrlPath + [y])[2] == y;
    assert (SiteMapPath + [x])[2] == x && (SiteMapPath + [y])[2] == y;
    assert (UrlPath + [x])[0] != (SiteMapPath + [y])[0];
    assert (UrlPath + [y])[0] != (SiteMapPath + [x])[0];
  }

  /** The six paths whose text is decoded. */
  function LeafPaths(): set<seq<string>> {
    {UrlPath + ["loc"], UrlPath + ["lastmod"], UrlPath + ["changefreq"], UrlPath + ["priority"],
     SiteMapPath + ["loc"], SiteMapPath + ["lastmod"]}
  }

  /** An end tag yields the url entry exactly at `[urlset, url]`, the sitemap
      entry exactly at `[sitemapindex, sitemap]`, and then pops. */
  lemma EndTagYieldsAndPops(p: Parsers, st: ReaderState)
    ensures var s := Step(p, st, EndElement);
      && (s.item == Some(SiteMapEntity.Url(st.urlItem)) <==> st.path == UrlPath)
      && (s.item == Some(SiteMapEntity.SiteMap(st.sitemapItem)) <==> st.path == SiteMapPath)
      && (s.item.None? <==> st.path != UrlPath && st.path != SiteMapPath)
      && s.state == st.(path := Pop(st.path))
      && |s.state.path| == if st.path == [] then 0 else |st.path| - 1
  {
  }

  /** A tokenizer error is handed out as it is and leaves the state alone;
      any other event is skipped. */
  lemma ErrorAndOtherKeepState(p: Parsers, st: ReaderState, error: XmlReadError)
    ensures Step(p, st, Error(error)) == StepResult(st, Some(SiteMapEntity.Err(error)))
    ensures Step(p, st, Other) == StepResult(st, Option.None)
  {
  }

  // ---------------------------------------------------------------------------
  // Whole streams

  /** Reading a concatenation reads the first part, then the second from
      where the first left off. */
  lemma {:induction false} RunAppend(p: Parsers, st: ReaderState, a: seq<Event>, b: seq<Event>)
    ensures Run(p, st, a + b)
         == RunResult(Run(p, Run(p, st, a).state, b).state,
                      Run(p, st, a).items + Run(p, Run(p, st, a).state, b).items)
    decreases |a|
  {
    if a == [] {
      assert a + b == b;
    } else {
      var s := Step(p, st, a[0]);
      assert (a + b)[0] == a[0];
      assert (a + b)[1..] == a[1..] + b;
      RunAppend(p, s.state, a[1..], b);
      var mid := Run(p, s.state, a[1..]);
      var tail := Run(p, mid.state, b);
      assert Run(p, st, a) == RunResult(mid.state, Items(s.item) + mid.items);
      assert Run(p, st, a + b) == RunResult(tail.state, Items(s.item) + (mid.items + tail.items));
      assert Items(s.item) + (mid.items + tail.items) == Items(s.item) + mid.items + tail.items;
    }
  }

  /** Reading an event and then the rest. */
  lemma RunCons(p: Parsers, st: ReaderState, e: Event, rest: seq<Event>)
    ensures var s := Step(p, st, e);
      Run(p, st, [e] + rest) == RunResult(Run(p, s.state, rest).state, Items(s.item) + Run(p, s.state, rest).items)
  {
    assert ([e] + rest)[0] == e;
    assert ([e] + rest)[1..] == rest;
  }

  /** One `next` call consumes a prefix of the remaining events and yields
      exactly what `Run` yields for that prefix. */
  lemma {:induction false} NextIsRunPrefix(p: Parsers, st: ReaderState, events: seq<Event>, cursor: nat)
    requires cursor <= |events|
    ensures var r := NextSpec(p, st, events, cursor);
      var rest := Run(p, r.state, events[r.cursor..]);
      Run(p, st, events[cursor..]) == RunResult(rest.state, Items(r.item) + rest.items)
    decreases |events| - cursor
  {
    if cursor < |events| {
      var s := Step(p, st, events[cursor]);
      assert events[cursor..][1..] == events[cursor + 1..];
      if s.item.None? {
        NextIsRunPrefix(p, s.state, events, cursor + 1);
      }
    }
  }

  /** Reading entity by entity yields exactly the entities of the whole
      stream, in the order their closing tags (or errors) occur. */
  lemma {:induction false} ReadAllIsRun(p: Parsers, st: ReaderState, events: seq<Event>, cursor: nat)
    requires cursor <= |events|
    ensures ReadAll(p, st, events, cursor) == Run(p, st, events[cursor..]).items
    decreases |events| - cursor
  {
    var r := NextSpec(p, st, events, cursor);
    NextIsRunPrefix(p, st, events, cursor);
    if r.item.Some? {
      ReadAllIsRun(p, r.state, events, r.cursor);
    } else {
      assert events[r.cursor..] == [];
    }
  }

  /** A tokenizer error surfaces as one `Err` entity at its position; the
      entities before it are kept and reading resumes in the same state. */
  lemma ErrorIsReportedInPlace(p: Parsers, st: ReaderState, before: seq<Event>, error: XmlReadError, after: seq<Event>)
    ensures var mid := Run(p, st, before).state;
      Run(p, st, before + [Error(error)] + after).items
      == Run(p, st, before).items + [SiteMapEntity.Err(error)] + Run(p, mid, after).items
  {
    var mid := Run(p, st, before).state;
    RunAppend(p, st, before + [Error(error)], after);
    RunAppend(p, st, before, [Error(error)]);
    assert Run(p, mid, [Error(error)]) == RunResult(mid, [SiteMapEntity.Err(error)]);
  }

  // ---------------------------------------------------------------------------
  // Documents made of container elements with text leaves

  /** A child element holding only text, such as `<loc>...</loc>`. */
  datatype Leaf = Leaf(tag: string, text: string)

  function LeafEvents(l: Leaf): seq<Event> {
    [StartElement(l.tag), Characters(l.text), EndElement]
  }

  function LeavesEvents(leaves: seq<Leaf>): seq<Event> {
    if leaves == [] then [] else LeafEvents(leaves[0]) + LeavesEvents(leaves[1..])
  }

  /** The field a `<url>` child fills, matched on the lower-cased tag; other
      children are ignored. */
  function SetUrlField(p: Parsers, e: UrlEntry, l: Leaf): UrlEntry {
    var tag := Lower(l.tag);
    if tag == "loc" then e.(loc := Location.From(p, l.text))
    else if tag == "lastmod" then e.(lastmod := LastMod.From(p, l.text))
    else if tag == "changefreq" then e.(changefreq := ChangeFreq.From(l.text))
    else if tag == "priority" then e.(priority := Priority.From(p, l.text))
    else e
  }

  /** The fields of a `<sitemap>` child, as for `SetUrlField`. */
  function SetSiteMapField(p: Parsers, e: SiteMapEntry, l: Leaf): SiteMapEntry {
    var tag := Lower(l.tag);
    if tag == "loc" then e.(loc := Location.From(p, l.text))
    else if tag == "lastmod" then e.(lastmod := LastMod.From(p, l.text))
    else e
  }

  /** The children applied in document order, so the last one for a field wins. */
  function UrlFields(p: Parsers, e: UrlEntry, leaves: seq<Leaf>): UrlEntry
    decreases |leaves|
  {
    if leaves == [] then e else UrlFields(p, SetUrlField(p, e, leaves[0]), leaves[1..])
  }

  function SiteMapFields(p: Parsers, e: SiteMapEntry, leaves: seq<Leaf>): SiteMapEntry
    decreases |leaves|
  {
    if leaves == [] then e else SiteMapFields(p, SetSiteMapField(p, e, leaves[0]), leaves[1..])
  }

  /** A text leaf directly inside a container leaves the path as it was and
      yields nothing; its text is handled at the leaf's path. */
  lemma LeafRun(p: Parsers, st: ReaderState, l: Leaf)
    requires st.path == UrlPath || st.path == SiteMapPath
    ensures var deeper := st.(path := st.path + [Lower(l.tag)]);
      Run(p, st, LeafEvents(l)) == RunResult(TextContentSpec(p, deeper, l.text).(path := st.path), [])
  {
    var tag := Lower(l.tag);
    var deeper := st.(path := st.path + [tag]);
    ChildPathsDistinct(tag, tag);
    assert Step(p, st, StartElement(l.tag)).state == deeper;
    var filled := TextContentSpec(p, deeper, l.text);
    assert filled.path == deeper.path;
    assert CloseTagSpec(filled).None?;
    assert Pop(filled.path) == st.path;
    assert LeafEvents(l) == [StartElement(l.tag)] + ([Characters(l.text)] + ([EndElement] + []));
    RunCons(p, st, StartElement(l.tag), [Characters(l.text)] + ([EndElement] + []));
    RunCons(p, deeper, Characters(l.text), [EndElement] + []);
    RunCons(p, filled, EndElement, []);
  }

  lemma ChildTagsAreLower()
    ensures Lower("loc") == "loc" && Lower("lastmod") == "lastmod"
    ensures Lower("changefreq") == "changefreq" && Lower("priority") == "priority"
  {
    assert IsLower("loc") && IsLower("lastmod") && IsLower("changefreq") && IsLower("priority");
    LowerOfLower("loc");
    LowerOfLower("lastmod");
    LowerOfLower("changefreq");
    LowerOfLower("priority");
  }

  /** Each child tag of `<url>` sets its own field from its text with that
      field's decoder, and leaves the other three as they were. */
  lemma UrlLocLeaf(p: Parsers, e: UrlEntry, t: string)
    ensures SetUrlField(p, e, Leaf("loc", t)) == e.(loc := Location.From(p, t))
  {
    ChildTagsAreLower();
  }

  lemma UrlLastmodLeaf(p: Parsers, e: UrlEntry, t: string)
    ensures SetUrlField(p, e, Leaf("lastmod", t)) == e.(lastmod := LastMod.From(p, t))
  {
    ChildTagsAreLower();
  }

  lemma UrlChangefreqLeaf(p: Parsers, e: UrlEntry, t: string)
    ensures SetUrlField(p, e, Leaf("changefreq", t)) == e.(changefreq := ChangeFreq.From(t))
  {
    ChildTagsAreLower();
  }

  lemma UrlPriorityLeaf(p: Parsers, e: UrlEntry, t: string)
    ensures SetUrlField(p, e, Leaf("priority", t)) == e.(priority := Priority.From(p, t))
  {
    ChildTagsAreLower();
  }

  /** The same for the two child tags of `<sitemap>`. */
  lemma SiteMapLocLeaf(p: Parsers, e: SiteMapEntry, t: string)
    ensures SetSiteMapField(p, e, Leaf("loc", t)) == e.(loc := Location.From(p, t))
  {
    ChildTagsAreLower();
  }

  lemma SiteMapLastmodLeaf(p: Parsers, e: SiteMapEntry, t: string)
    ensures SetSiteMapField(p, e, Leaf("lastmod", t)) == e.(lastmod := LastMod.From(p, t))
  {
    ChildTagsAreLower();
  }

  /** Children are applied one after the other, in document order. */
  lemma {:induction false} UrlFieldsInOrder(p: Parsers, e: UrlEntry, l: Leaf, rest: seq<Leaf>)
    ensures UrlFields(p, e, [l] + rest) == UrlFields(p, SetUrlField(p, e, l), rest)
  {
    assert ([l] + rest)[1..] == rest;
  }

  lemma {:induction false} SiteMapFieldsInOrder(p: Parsers, e: SiteMapEntry, l: Leaf, rest: seq<Leaf>)
    ensures SiteMapFields(p, e, [l] + rest) == SiteMapFields(p, SetSiteMapField(p, e, l), rest)
  {
    assert ([l] + rest)[1..] == rest;
  }

  lemma {:induction false} UrlFieldsAppend(p: Parsers, e: UrlEntry, a: seq<Leaf>, b: seq<Leaf>)
    ensures UrlFields(p, e, a + b) == UrlFields(p, UrlFields(p, e, a), b)
    decreases |a|
  {
    if a == [] {
      assert a + b == b;
    } else {
      assert a + b == [a[0]] + (a[1..] + b);
      UrlFieldsInOrder(p, e, a[0], a[1..] + b);
      UrlFieldsAppend(p, SetUrlField(p, e, a[0]), a[1..], b);
    }
  }

  lemma {:induction false} SiteMapFieldsAppend(p: Parsers, e: SiteMapEntry, a: seq<Leaf>, b: seq<Leaf>)
    ensures SiteMapFields(p, e, a + b) == SiteMapFields(p, SiteMapFields(p, e, a), b)
    decreases |a|
  {
    if a == [] {
      assert a + b == b;
    } else {
      assert a + b == [a[0]] + (a[1..] + b);
      SiteMapFieldsInOrder(p, e, a[0], a[1..] + b);
      SiteMapFieldsAppend(p, SetSiteMapField(p, e, a[0]), a[1..], b);
    }
  }

  lemma {:induction false} LeavesEventsAppend(a: seq<Leaf>, b: seq<Leaf>)
    ensures LeavesEvents(a + b) == LeavesEvents(a) + LeavesEvents(b)
    decreases |a|
  {
    if a == [] {
      assert a + b == b;
    } else {
      assert (a + b)[0] == a[0];
      assert (a + b)[1..] == a[1..] + b;
      LeavesEventsAppend(a[1..], b);
    }
  }

  /** Text under `[urlset, url, tag]` fills the field `SetUrlField` names. */
  lemma UrlLeafText(p: Parsers, st: ReaderState, l: Leaf)
    requires st.path == UrlPath
    ensures var deeper := st.(path := UrlPath + [Lower(l.tag)]);
      TextContentSpec(p, deeper, l.text) == deeper.(urlItem := SetUrlField(p, st.urlItem, l))
  {
    var tag := Lower(l.tag);
    ChildPathsDistinct(tag, "loc");
    ChildPathsDistinct(tag, "lastmod");
    ChildPathsDistinct(tag, "changefreq");
    ChildPathsDistinct(tag, "priority");
  }

  /** Text under `[sitemapindex, sitemap, tag]` fills the field `SetSiteMapField` names. */
  lemma SiteMapLeafText(p: Parsers, st: ReaderState, l: Leaf)
    requires st.path == SiteMapPath
    ensures var deeper := st.(path := SiteMapPath + [Lower(l.tag)]);
      TextContentSpec(p, deeper, l.text) == deeper.(sitemapItem := SetSiteMapField(p, st.sitemapItem, l))
  {
    var tag := Lower(l.tag);
    ChildPathsDistinct(tag, "loc");
    ChildPathsDistinct(tag, "lastmod");
    ChildPathsDistinct("loc", tag);
    ChildPathsDistinct("lastmod", tag);
    ChildPathsDistinct("changefreq", tag);
    ChildPathsDistinct("priority", tag);
  }

  lemma {:induction false} UrlLeavesFill(p: Parsers, st: ReaderState, leaves: seq<Leaf>)
    requires st.path == UrlPath
    ensures Run(p, st, LeavesEvents(leaves)) == RunResult(st.(urlItem := UrlFields(p, st.urlItem, leaves)), [])
    decreases |leaves|
  {
    if leaves != [] {
      var l := leaves[0];
      LeafRun(p, st, l);
      UrlLeafText(p, st, l);
      var next := st.(urlItem := SetUrlField(p, st.urlItem, l));
      RunAppend(p, st, LeafEvents(l), LeavesEvents(leaves[1..]));
      UrlLeavesFill(p, next, leaves[1..]);
    }
  }

  lemma {:induction false} SiteMapLeavesFill(p: Parsers, st: ReaderState, leaves: seq<Leaf>)
    requires st.path == SiteMapPath
    ensures Run(p, st, LeavesEvents(leaves)) == RunResult(st.(sitemapItem := SiteMapFields(p, st.sitemapItem, leaves)), [])
    decreases |leaves|
  {
    if leaves != [] {
      var l := leaves[0];
      LeafRun(p, st, l);
      SiteMapLeafText(p, st, l);
      var next := st.(sitemapItem := SetSiteMapField(p, st.sitemapItem, l));
      RunAppend(p, st, LeafEvents(l), LeavesEvents(leaves[1..]));
      SiteMapLeavesFill(p, next, leaves[1..]);
    }
  }

  function UrlElementEvents(leaves: seq<Leaf>): seq<Event> {
    [StartElement("url")] + LeavesEvents(leaves) + [EndElement]
  }

  function SiteMapElementEvents(leaves: seq<Leaf>): seq<Event> {
    [StartElement("sitemap")] + LeavesEvents(leaves) + [EndElement]
  }

  /** Inside `<urlset>`, a `<url>` element yields exactly one `Url` entity
      built from a fresh entry and its children, whatever was accumulated
      before. */
  lemma UrlElementYieldsEntry(p: Parsers, st: ReaderState, leaves: seq<Leaf>)
    requires st.path == ["urlset"]
    ensures var e := UrlFields(p, UrlEntry.New(), leaves);
      Run(p, st, UrlElementEvents(leaves)) == RunResult(st.(urlItem := e), [SiteMapEntity.Url(e)])
  {
    var e := UrlFields(p, UrlEntry.New(), leaves);
    var entered := st.(path := UrlPath, urlItem := UrlEntry.New());
    var filled := entered.(urlItem := e);
    assert Lower("url") == "url" by { LowerOfLower("url"); }
    assert Step(p, st, StartElement("url")) == StepResult(entered, Option.None);
    UrlLeavesFill(p, entered, leaves);
    assert Step(p, filled, EndElement) == StepResult(st.(urlItem := e), Some(SiteMapEntity.Url(e)));
    assert UrlElementEvents(leaves) == [StartElement("url")] + (LeavesEvents(leaves) + [EndElement]);
    RunCons(p, st, StartElement("url"), LeavesEvents(leaves) + [EndElement]);
    RunAppend(p, entered, LeavesEvents(leaves), [EndElement]);
    RunCons(p, filled, EndElement, []);
    assert [EndElement] + [] == [EndElement];
  }

  /** Inside `<sitemapindex>`, a `<sitemap>` element yields exactly one
      `SiteMap` entity built from a fresh entry and its children. */
  lemma SiteMapElementYieldsEntry(p: Parsers, st: ReaderState, leaves: seq<Leaf>)
    requires st.path == ["sitemapindex"]
    ensures var e := SiteMapFields(p, SiteMapEntry.New(), leaves);
      Run(p, st, SiteMapElementEvents(leaves)) == RunResult(st.(sitemapItem := e), [SiteMapEntity.SiteMap(e)])
  {
    var e := SiteMapFields(p, SiteMapEntry.New(), leaves);
    var entered := st.(path := SiteMapPath, sitemapItem := SiteMapEntry.New());
    var filled := entered.(sitemapItem := e);
    SiteMapOpens(p, st);
    SiteMapLeavesFill(p, entered, leaves);
    SiteMapCloses(p, st, e);
    assert SiteMapElementEvents(leaves) == [StartElement("sitemap")] + (LeavesEvents(leaves) + [EndElement]);
    RunCons(p, st, StartElement("sitemap"), LeavesEvents(leaves) + [EndElement]);
    RunAppend(p, entered, LeavesEvents(leaves), [EndElement]);
    RunCons(p, filled, EndElement, []);
    assert [EndElement] + [] == [EndElement];
  }

  lemma SiteMapOpens(p: Parsers, st: ReaderState)
    requires st.path == ["sitemapindex"]
    ensures Step(p, st, StartElement("sitemap")) == StepResult(st.(path := SiteMapPath, sitemapItem := SiteMapEntry.New()), Option.None)
  {
    assert IsLower("sitemap");
    assert Lower("sitemap") == "sitemap" by { LowerOfLower("sitemap"); }
    assert st.path + [Lower("sitemap")] == SiteMapPath;
    assert SiteMapPath != UrlPath by { assert SiteMapPath[0] != UrlPath[0]; }
    assert OpenTagSpec(st.(path := SiteMapPath)) == st.(path := SiteMapPath, sitemapItem := SiteMapEntry.New());
  }

  lemma SiteMapCloses(p: Parsers, st: ReaderState, e: SiteMapEntry)
    requires st.path == ["sitemapindex"]
    ensures Step(p, st.(path := SiteMapPath, sitemapItem := e), EndElement) == StepResult(st.(sitemapItem := e), Some(SiteMapEntity.SiteMap(e)))
  {
  }

  function UrlElementsEvents(urls: seq<seq<Leaf>>): seq<Event> {
    if urls == [] then [] else UrlElementEvents(urls[0]) + UrlElementsEvents(urls[1..])
  }

  function SiteMapElementsEvents(sitemaps: seq<seq<Leaf>>): seq<Event> {
    if sitemaps == [] then [] else SiteMapElementEvents(sitemaps[0]) + SiteMapElementsEvents(sitemaps[1..])
  }

  /** A `<urlset>` document made of `<url>` elements. */
  function UrlSetEvents(urls: seq<seq<Leaf>>): seq<Event> {
    [StartElement("urlset")] + UrlElementsEvents(urls) + [EndElement]
  }

  /** A `<sitemapindex>` document made of `<sitemap>` elements. */
  function SiteMapIndexEvents(sitemaps: seq<seq<Leaf>>): seq<Event> {
    [StartElement("sitemapindex")] + SiteMapElementsEvents(sitemaps) + [EndElement]
  }

  /** The entities expected from `<url>` elements: one each, in order. */
  function UrlEntities(p: Parsers, urls: seq<seq<Leaf>>): (r: seq<SiteMapEntity>)
    ensures |r| == |urls|
    ensures forall i :: 0 <= i < |urls| ==> r[i] == SiteMapEntity.Url(UrlFields(p, UrlEntry.New(), urls[i]))
  {
    if urls == [] then [] else [SiteMapEntity.Url(UrlFields(p, UrlEntry.New(), urls[0]))] + UrlEntities(p, urls[1..])
  }

  function SiteMapEntities(p: Parsers, sitemaps: seq<seq<Leaf>>): (r: seq<SiteMapEntity>)
    ensures |r| == |sitemaps|
    ensures forall i :: 0 <= i < |sitemaps| ==> r[i] == SiteMapEntity.SiteMap(SiteMapFields(p, SiteMapEntry.New(), sitemaps[i]))
  {
    if sitemaps == [] then []
    else [SiteMapEntity.SiteMap(SiteMapFields(p, SiteMapEntry.New(), sitemaps[0]))] + SiteMapEntities(p, sitemaps[1..])
  }

  lemma {:induction false} UrlElementsYieldEntries(p: Parsers, st: ReaderState, urls: seq<seq<Leaf>>)
    requires st.path == ["urlset"]
    ensures Run(p, st, UrlElementsEvents(urls)).state.path == ["urlset"]
    ensures Run(p, st, UrlElementsEvents(urls)).items == UrlEntities(p, urls)
    decreases |urls|
  {
    if urls != [] {
      UrlElementYieldsEntry(p, st, urls[0]);
      RunAppend(p, st, UrlElementEvents(urls[0]), UrlElementsEvents(urls[1..]));
      UrlElementsYieldEntries(p, Run(p, st, UrlElementEvents(urls[0])).state, urls[1..]);
    }
  }

  lemma {:induction false} SiteMapElementsYieldEntries(p: Parsers, st: ReaderState, sitemaps: seq<seq<Leaf>>)
    requires st.path == ["sitemapindex"]
    ensures Run(p, st, SiteMapElementsEvents(sitemaps)).state.path == ["sitemapindex"]
    ensures Run(p, st, SiteMapElementsEvents(sitemaps)).items == SiteMapEntities(p, sitemaps)
    decreases |sitemaps|
  {
    if sitemaps != [] {
      SiteMapElementYieldsEntry(p, st, sitemaps[0]);
      RunAppend(p, st, SiteMapElementEvents(sitemaps[0]), SiteMapElementsEvents(sitemaps[1..]));
      SiteMapElementsYieldEntries(p, Run(p, st, SiteMapElementEvents(sitemaps[0])).state, sitemaps[1..]);
    }
  }

  lemma RootNamesAreLower()
    ensures IsLower("urlset") && IsLower("sitemapindex")
  {
  }

  /** A root element whose body reads back to the root's own path yields
      what the body yields and then closes to the empty path. */
  lemma RootElementRun(p: Parsers, st: ReaderState, name: string, body: seq<Event>)
    requires st.path == [] && IsLower(name)
    requires Run(p, st.(path := [name]), body).state.path == [name]
    ensures var inner := Run(p, st.(path := [name]), body);
      Run(p, st, [StartElement(name)] + body + [EndElement]) == RunResult(inner.state.(path := []), inner.items)
  {
    var top := st.(path := [name]);
    var inner := Run(p, top, body);
    LowerOfLower(name);
    assert st.path + [Lower(name)] == [name];
    assert |[name]| != |UrlPath| && |[name]| != |SiteMapPath|;
    assert Step(p, st, StartElement(name)) == StepResult(top, Option.None);
    assert |inner.state.path| != |UrlPath| && |inner.state.path| != |SiteMapPath|;
    assert Step(p, inner.state, EndElement) == StepResult(inner.state.(path := []), Option.None);
    assert Run(p, inner.state, [EndElement]) == RunResult(inner.state.(path := []), []) by {
      RunCons(p, inner.state, EndElement, []);
      assert [EndElement] + [] == [EndElement];
    }
    RunAppend(p, top, body, [EndElement]);
    assert [StartElement(name)] + body + [EndElement] == [StartElement(name)] + (body + [EndElement]);
    RunCons(p, st, StartElement(name), body + [EndElement]);
  }

  /** A `<urlset>` at the top level yields one `Url` per `<url>`, in document
      order and nothing else, and closes back to the empty path. */
  lemma UrlSetYieldsEntries(p: Parsers, st: ReaderState, urls: seq<seq<Leaf>>)
    requires st.path == []
    ensures Run(p, st, UrlSetEvents(urls)).state.path == []
    ensures Run(p, st, UrlSetEvents(urls)).items == UrlEntities(p, urls)
  {
    RootNamesAreLower();
    UrlElementsYieldEntries(p, st.(path := ["urlset"]), urls);
    RootElementRun(p, st, "urlset", UrlElementsEvents(urls));
  }

  /** A `<sitemapindex>` at the top level yields one `SiteMap` per
      `<sitemap>`, in document order and nothing else. */
  lemma SiteMapIndexYieldsEntries(p: Parsers, st: ReaderState, sitemaps: seq<seq<Leaf>>)
    requires st.path == []
    ensures Run(p, st, SiteMapIndexEvents(sitemaps)).state.path == []
    ensures Run(p, st, SiteMapIndexEvents(sitemaps)).items == SiteMapEntities(p, sitemaps)
  {
    RootNamesAreLower();
    SiteMapElementsYieldEntries(p, st.(path := ["sitemapindex"]), sitemaps);
    RootElementRun(p, st, "sitemapindex", SiteMapElementsEvents(sitemaps));
  }

  /** A document made of a `<urlset>` followed by a `<sitemapindex>`, read
      entity by entity from the start, yields one `Url` entity per `<url>`
      and then one `SiteMap` entity per `<sitemap>`, and no `Err`. */
  lemma DocumentYieldsEntries(p: Parsers, urls: seq<seq<Leaf>>, sitemaps: seq<seq<Leaf>>)
    ensures ReadAll(p, Initial(), UrlSetEvents(urls) + SiteMapIndexEvents(sitemaps), 0)
         == UrlEntities(p, urls) + SiteMapEntities(p, sitemaps)
  {
    var doc := UrlSetEvents(urls) + SiteMapIndexEvents(sitemaps);
    ReadAllIsRun(p, Initial(), doc, 0);
    assert doc[0..] == doc;
    UrlSetYieldsEntries(p, Initial(), urls);
    var afterUrls := Run(p, Initial(), UrlSetEvents(urls)).state;
    SiteMapIndexYieldsEntries(p, afterUrls, sitemaps);
    RunAppend(p, Initial(), UrlSetEvents(urls), SiteMapIndexEvents(sitemaps));
  }
}
