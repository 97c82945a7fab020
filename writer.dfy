/** The phase-typed writer (src/writer.rs).

    The root `SiteMapWriter` owns the XML event writer. `StartUrlset` and
    `StartSitemapindex` hand it to a `UrlSetWriter` or a `SiteMapIndexWriter`,
    whose `End` gives it back, so a second container can follow in the same
    stream. Every method writes its events one by one and stops at the first
    one the event writer refuses, reporting that refusal as `XmlWriteError`.

    The event writer is modelled by the events it has accepted and a
    `Refusal` function deciding, from what is already written, whether it
    refuses the next event. `Emit` is the pure specification of writing a
    sequence of events to it; each method is proved to leave the event writer
    exactly as `Emit` over that method's events does. */
module Writer {
  import opened Sitemap
  import opened Structs

  /** The events the crate hands to the event writer. */
  datatype XmlEvent =
    | StartElement(name: string)
    | Characters(text: string)
    | EndElement(name: string)

  /** The foreign formatters: `DateTime::to_rfc3339` and `f32::to_string`
      (on the number as a real). `Url::as_str` is the URL's serialization. */
  datatype Formatters = Formatters(rfc3339: Timestamp -> string, float: real -> string)

  /** When the event writer refuses an event, given what it has written
      before: `Some(e)` is the error it reports. */
  type Refusal = (seq<XmlEvent>, XmlEvent) -> Option<SinkError>

  /** What a sequence of writes leaves behind: the accepted events and the
      refusal that stopped it, if any. */
  datatype Emitted = Emitted(written: seq<XmlEvent>, error: Option<SinkError>)

  /** Writes `evs` after `out`, in order, stopping at the first refused event. */
  function Emit(refuse: Refusal, out: seq<XmlEvent>, evs: seq<XmlEvent>): Emitted
    decreases |evs|
  {
    if evs == [] then Emitted(out, Option.None)
    else match refuse(out, evs[0])
      case Some(e) => Emitted(out, Some(e))
      case None => Emit(refuse, out + [evs[0]], evs[1..])
  }

  /** What `Emit` leaves is `out` followed by the longest prefix of `evs` the
      writer accepted, each event accepted after the ones before it; there is
      an error exactly when that prefix is not all of `evs`, and it is the
      refusal of the first event left out. */
  lemma EmitStopsAtFirstRefusal(refuse: Refusal, out: seq<XmlEvent>, evs: seq<XmlEvent>)
    ensures var r := Emit(refuse, out, evs);
      && |out| <= |r.written| <= |out| + |evs|
      && r.written == out + evs[..|r.written| - |out|]
      && (r.error.None? <==> |r.written| == |out| + |evs|)
      && (r.error.Some? ==> r.error == refuse(r.written, evs[|r.written| - |out|]))
      && (forall k :: 0 <= k < |r.written| - |out| ==> refuse(out + evs[..k], evs[k]).None?)
  {
    EmitWritesPrefix(refuse, out, evs);
    EmitAcceptsWritten(refuse, out, evs);
  }

  lemma {:induction false} EmitWritesPrefix(refuse: Refusal, out: seq<XmlEvent>, evs: seq<XmlEvent>)
    ensures var r := Emit(refuse, out, evs);
      && |out| <= |r.written| <= |out| + |evs|
      && r.written == out + evs[..|r.written| - |out|]
      && (r.error.None? <==> |r.written| == |out| + |evs|)
      && (r.error.Some? ==> r.error == refuse(r.written, evs[|r.written| - |out|]))
    decreases |evs|
  {
    if evs != [] && refuse(out, evs[0]).None? {
      var r := Emit(refuse, out + [evs[0]], evs[1..]);
      EmitWritesPrefix(refuse, out + [evs[0]], evs[1..]);
      var n := |r.written| - |out| - 1;
      assert evs[..n + 1] == [evs[0]] + evs[1..][..n];
      assert r.error.Some? ==> evs[1..][n] == evs[n + 1];
    } else {
      assert out + evs[..0] == out;
    }
  }

  lemma {:induction false} EmitAcceptsWritten(refuse: Refusal, out: seq<XmlEvent>, evs: seq<XmlEvent>)
    ensures var r := Emit(refuse, out, evs);
      forall k :: 0 <= k < |r.written| - |out| && k < |evs| ==> refuse(out + evs[..k], evs[k]).None?
    decreases |evs|
  {
    if evs != [] && refuse(out, evs[0]).None? {
      var r := Emit(refuse, out + [evs[0]], evs[1..]);
      EmitAcceptsWritten(refuse, out + [evs[0]], evs[1..]);
      assert out + evs[..0] == out;
      forall k | 1 <= k < |r.written| - |out| && k < |evs|
        ensures refuse(out + evs[..k], evs[k]).None?
      {
        assert out + evs[..k] == out + [evs[0]] + evs[1..][..k - 1];
        assert evs[k] == evs[1..][k - 1];
      }
    }
  }

  /** Writing `a + b` is writing `a`, then `b` unless `a` was stopped. */
  lemma {:induction false} EmitAppend(refuse: Refusal, out: seq<XmlEvent>, a: seq<XmlEvent>, b: seq<XmlEvent>)
    ensures Emit(refuse, out, a + b) ==
      (var ea := Emit(refuse, out, a); if ea.error.Some? then ea else Emit(refuse, ea.written, b))
    decreases |a|
  {
    if a == [] {
      assert a + b == b;
    } else {
      assert (a + b)[0] == a[0];
      assert (a + b)[1..] == a[1..] + b;
      if refuse(out, a[0]).None? {
        EmitAppend(refuse, out + [a[0]], a[1..], b);
      }
    }
  }

  /** A writer that never refuses writes everything. */
  lemma EmitAccepted(refuse: Refusal, out: seq<XmlEvent>, evs: seq<XmlEvent>)
    requires forall w, e :: refuse(w, e).None?
    ensures Emit(refuse, out, evs) == Emitted(out + evs, Option.None)
  {
    EmitStopsAtFirstRefusal(refuse, out, evs);
    assert evs[..|evs|] == evs;
  }

  /** The result a method returns for the writes it made: `Ok` when none was
      refused, otherwise the refusal as `XmlWriteError`. */
  predicate Reports<T>(r: Result<T, Error>, error: Option<SinkError>) {
    (r.Err? <==> error.Some?) && (r.Err? ==> r.error == XmlWriteError(error.value))
  }

  // ---------------------------------------------------------------------------
  // The events each operation writes

  /** `write_content_element`: an element holding only text. */
  function ContentElementEvents(ele: string, content: string): seq<XmlEvent> {
    [StartElement(ele), Characters(content), EndElement(ele)]
  }

  /** `<loc>` only for a parsed URL. */
  function LocEvents(loc: Location): seq<XmlEvent> {
    if loc.Url? then ContentElementEvents("loc", loc.url.serialization) else []
  }

  /** `<lastmod>` only for a parsed timestamp, in RFC 3339 form. */
  function LastModEvents(fmt: Formatters, lastmod: LastMod): seq<XmlEvent> {
    if lastmod.DateTime? then ContentElementEvents("lastmod", fmt.rfc3339(lastmod.time)) else []
  }

  /** `<changefreq>` only for one of the seven protocol values. */
  function ChangeFreqEvents(changefreq: ChangeFreq): seq<XmlEvent> {
    if changefreq.IsCanonical() then ContentElementEvents("changefreq", changefreq.AsStr()) else []
  }

  /** The priority element only for a `Value`, under the given tag. */
  function PriorityEvents(fmt: Formatters, priority: Priority, tag: string): seq<XmlEvent> {
    if priority.Value? then ContentElementEvents(tag, fmt.float(priority.value)) else []
  }

  /** The tag `url` writes the priority under (src/writer.rs line 32). */
  const WrittenPriorityTag: string := "lastmod"

  /** The tag the sitemaps.org protocol gives the priority. */
  const ProtocolPriorityTag: string := "priority"

  /** A `<url>` element: its children in the fixed order loc, lastmod,
      changefreq, priority, with the priority under `priorityTag`. */
  function UrlEventsTagged(fmt: Formatters, url: UrlEntry, priorityTag: string): seq<XmlEvent> {
    [StartElement("url")] + (LocEvents(url.loc) + (LastModEvents(fmt, url.lastmod) +
      (ChangeFreqEvents(url.changefreq) + (PriorityEvents(fmt, url.priority, priorityTag) + [EndElement("url")]))))
  }

  /** What `url` writes. */
  function UrlEvents(fmt: Formatters, url: UrlEntry): seq<XmlEvent> {
    UrlEventsTagged(fmt, url, WrittenPriorityTag)
  }

  /** What `url` writes with the priority under the protocol's tag. */
  function ProtocolUrlEvents(fmt: Formatters, url: UrlEntry): seq<XmlEvent> {
    UrlEventsTagged(fmt, url, ProtocolPriorityTag)
  }

  /** What `sitemap` writes: loc and lastmod, each only when valid. */
  function SiteMapEvents(fmt: Formatters, entry: SiteMapEntry): seq<XmlEvent> {
    [StartElement("sitemap")] + (LocEvents(entry.loc) + (LastModEvents(fmt, entry.lastmod) + [EndElement("sitemap")]))
  }

  /** A whole `<urlset>`: `start_urlset`, `url` for each entry, `end`. */
  function UrlSetDocument(fmt: Formatters, urls: seq<UrlEntry>): seq<XmlEvent> {
    UrlSetDocumentTagged(fmt, urls, WrittenPriorityTag)
  }

  function UrlSetDocumentTagged(fmt: Formatters, urls: seq<UrlEntry>, priorityTag: string): seq<XmlEvent> {
    [StartElement("urlset")] + UrlsEvents(fmt, urls, priorityTag) + [EndElement("urlset")]
  }

  function UrlsEvents(fmt: Formatters, urls: seq<UrlEntry>, priorityTag: string): seq<XmlEvent> {
    if urls == [] then [] else UrlEventsTagged(fmt, urls[0], priorityTag) + UrlsEvents(fmt, urls[1..], priorityTag)
  }

  /** A whole `<sitemapindex>`: `start_sitemapindex`, `sitemap` for each entry, `end`. */
  function SiteMapIndexDocument(fmt: Formatters, sitemaps: seq<SiteMapEntry>): seq<XmlEvent> {
    [StartElement("sitemapindex")] + SiteMapsEvents(fmt, sitemaps) + [EndElement("sitemapindex")]
  }

  function SiteMapsEvents(fmt: Formatters, sitemaps: seq<SiteMapEntry>): seq<XmlEvent> {
    if sitemaps == [] then [] else SiteMapEvents(fmt, sitemaps[0]) + SiteMapsEvents(fmt, sitemaps[1..])
  }

  /** `url`'s children, as the source's conditions choose them: a child is
      written exactly for a valid variant, and the priority goes under the
      tag "lastmod", so no "priority" element is ever written. */
  lemma UrlChildren(fmt: Formatters, url: UrlEntry)
    ensures StartElement("loc") in UrlEvents(fmt, url) <==> url.loc.Url?
    ensures StartElement("changefreq") in UrlEvents(fmt, url) <==> url.changefreq.IsCanonical()
    ensures StartElement("lastmod") in UrlEvents(fmt, url) <==> url.lastmod.DateTime? || url.priority.Value?
    ensures StartElement("priority") !in UrlEvents(fmt, url)
    ensures url.priority.Value? ==> Characters(fmt.float(url.priority.value)) in UrlEvents(fmt, url)
  {
    var loc := LocEvents(url.loc);
    var lastmod := LastModEvents(fmt, url.lastmod);
    var changefreq := ChangeFreqEvents(url.changefreq);
    var priority := PriorityEvents(fmt, url.priority, WrittenPriorityTag);
    ElementNames(url.loc.Url?, "loc", loc);
    ElementNames(url.lastmod.DateTime?, "lastmod", lastmod);
    ElementNames(url.changefreq.IsCanonical(), "changefreq", changefreq);
    ElementNames(url.priority.Value?, "lastmod", priority);
    UrlTags(loc, lastmod, changefreq, priority);
    assert UrlEvents(fmt, url) == [StartElement("url")] + (loc + (lastmod + (changefreq + (priority + [EndElement("url")]))));
    assert url.priority.Value? ==> priority[1] == Characters(fmt.float(url.priority.value));
  }

  /** The start tags inside an optional content element. */
  ghost predicate OpensOnly(evs: seq<XmlEvent>, present: bool, ele: string) {
    forall name :: StartElement(name) in evs <==> present && name == ele
  }

  lemma ElementNames(present: bool, ele: string, evs: seq<XmlEvent>)
    requires present ==> |evs| == 3 && evs[0] == StartElement(ele) && evs[1].Characters? && evs[2] == EndElement(ele)
    requires !present ==> evs == []
    ensures OpensOnly(evs, present, ele)
  {
  }

  lemma UrlTags(loc: seq<XmlEvent>, lastmod: seq<XmlEvent>, changefreq: seq<XmlEvent>, priority: seq<XmlEvent>)
    ensures var evs := [StartElement("url")] + (loc + (lastmod + (changefreq + (priority + [EndElement("url")]))));
      forall x :: x in evs <==> x == StartElement("url") || x in loc || x in lastmod || x in changefreq || x in priority || x == EndElement("url")
  {
  }

  /** `sitemap`'s children: loc exactly for a parsed URL, lastmod exactly
      for a parsed timestamp, and nothing else. */
  lemma SiteMapChildren(fmt: Formatters, entry: SiteMapEntry)
    ensures StartElement("loc") in SiteMapEvents(fmt, entry) <==> entry.loc.Url?
    ensures StartElement("lastmod") in SiteMapEvents(fmt, entry) <==> entry.lastmod.DateTime?
    ensures forall name :: StartElement(name) in SiteMapEvents(fmt, entry) ==> name in {"sitemap", "loc", "lastmod"}
  {
  }

  // ---------------------------------------------------------------------------
  // Nesting

  /** The open elements after `evs`, innermost last, starting from `open`;
      `None` when an end tag does not close the innermost open element. */
  function Nesting(open: seq<string>, evs: seq<XmlEvent>): Option<seq<string>>
    decreases |evs|
  {
    if evs == [] then Some(open)
    else match evs[0]
      case StartElement(n) => Nesting(open + [n], evs[1..])
      case Characters(_) => Nesting(open, evs[1..])
      case EndElement(n) =>
        if open != [] && open[|open| - 1] == n then Nesting(open[..|open| - 1], evs[1..]) else Option.None
  }

  /** Every end tag closes the element opened last, and nothing is left open. */
  predicate Balanced(evs: seq<XmlEvent>) {
    Nesting([], evs) == Some([])
  }

  lemma {:induction false} NestingAppend(open: seq<string>, a: seq<XmlEvent>, b: seq<XmlEvent>)
    ensures Nesting(open, a + b) == (match Nesting(open, a) case None => Option.None case Some(o) => Nesting(o, b))
    decreases |a|
  {
    if a == [] {
      assert a + b == b;
    } else {
      assert (a + b)[0] == a[0];
      assert (a + b)[1..] == a[1..] + b;
      match a[0]
      case StartElement(n) => NestingAppend(open + [n], a[1..], b);
      case Characters(_) => NestingAppend(open, a[1..], b);
      case EndElement(n) =>
        if open != [] && open[|open| - 1] == n {
          NestingAppend(open[..|open| - 1], a[1..], b);
        }
    }
  }

  /** Elements already open below do not change how `evs` nests. */
  lemma {:induction false} NestingBelow(base: seq<string>, open: seq<string>, evs: seq<XmlEvent>)
    requires Nesting(open, evs).Some?
    ensures Nesting(base + open, evs) == Some(base + Nesting(open, evs).value)
    decreases |evs|
  {
    if evs != [] {
      match evs[0]
      case StartElement(n) =>
        assert base + open + [n] == base + (open + [n]);
        NestingBelow(base, open + [n], evs[1..]);
      case Characters(_) =>
        NestingBelow(base, open, evs[1..]);
      case EndElement(n) =>
        assert (base + open)[..|base + open| - 1] == base + open[..|open| - 1];
        NestingBelow(base, open[..|open| - 1], evs[1..]);
    }
  }

  lemma BalancedConcat(a: seq<XmlEvent>, b: seq<XmlEvent>)
    requires Balanced(a) && Balanced(b)
    ensures Balanced(a + b)
  {
    NestingAppend([], a, b);
  }

  /** Balanced events leave the elements open below them open. */
  lemma BalancedBelow(open: seq<string>, evs: seq<XmlEvent>)
    requires Balanced(evs)
    ensures Nesting(open, evs) == Some(open)
  {
    NestingBelow(open, [], evs);
    assert open + [] == open;
  }

  /** When no event is refused, writing `evs` after `out` leaves open the
      elements `evs` leaves open on top of those `out` left open. */
  lemma EmitNesting(refuse: Refusal, out: seq<XmlEvent>, evs: seq<XmlEvent>, open: seq<string>)
    requires Nesting([], out) == Some(open)
    ensures var e := Emit(refuse, out, evs);
      e.error.None? ==> Nesting([], e.written) == Nesting(open, evs)
  {
    EmitStopsAtFirstRefusal(refuse, out, evs);
    assert evs[..|evs|] == evs;
    NestingAppend([], out, evs);
  }

  lemma OpenOne(open: seq<string>, name: string)
    ensures Nesting(open, [StartElement(name)]) == Some(open + [name])
  {
    assert [StartElement(name)][1..] == [];
  }

  lemma CloseOne(open: seq<string>, name: string)
    ensures Nesting(open + [name], [EndElement(name)]) == Some(open)
  {
    assert [EndElement(name)][1..] == [];
    assert (open + [name])[..|open + [name]| - 1] == open;
  }

  /** Writing a `<url>` inside `<urlset>` leaves only `<urlset>` open, unless
      an event is refused. */
  lemma UrlKeepsUrlSetOpen(refuse: Refusal, out: seq<XmlEvent>, fmt: Formatters, url: UrlEntry)
    ensures var e := Emit(refuse, out, UrlEvents(fmt, url));
      Nesting([], out) == Some(["urlset"]) && e.error.None? ==> Nesting([], e.written) == Some(["urlset"])
  {
    if Nesting([], out) == Some(["urlset"]) {
      UrlEventsBalanced(fmt, url, WrittenPriorityTag);
      BalancedBelow(["urlset"], UrlEvents(fmt, url));
      EmitNesting(refuse, out, UrlEvents(fmt, url), ["urlset"]);
    }
  }

  /** Writing a `<sitemap>` inside `<sitemapindex>` leaves only
      `<sitemapindex>` open, unless an event is refused. */
  lemma SiteMapKeepsIndexOpen(refuse: Refusal, out: seq<XmlEvent>, fmt: Formatters, entry: SiteMapEntry)
    ensures var e := Emit(refuse, out, SiteMapEvents(fmt, entry));
      Nesting([], out) == Some(["sitemapindex"]) && e.error.None? ==> Nesting([], e.written) == Some(["sitemapindex"])
  {
    if Nesting([], out) == Some(["sitemapindex"]) {
      SiteMapEventsBalanced(fmt, entry);
      BalancedBelow(["sitemapindex"], SiteMapEvents(fmt, entry));
      EmitNesting(refuse, out, SiteMapEvents(fmt, entry), ["sitemapindex"]);
    }
  }

  /** Wrapping balanced events in an element keeps them balanced. */
  lemma BalancedElement(name: string, body: seq<XmlEvent>)
    requires Balanced(body)
    ensures Balanced([StartElement(name)] + body + [EndElement(name)])
  {
    NestingAppend([], [StartElement(name)] + body, [EndElement(name)]);
    NestingAppend([], [StartElement(name)], body);
    assert [StartElement(name)][1..] == [];
    assert [] + [name] == [name];
    assert Nesting([], [StartElement(name)]) == Some([name]);
    NestingBelow([name], [], body);
    assert [name] + [] == [name];
    assert [EndElement(name)][1..] == [];
    assert Nesting([name], [EndElement(name)]) == Nesting([], []);
  }

  lemma ContentElementBalanced(ele: string, content: string)
    ensures Balanced(ContentElementEvents(ele, content))
  {
    BalancedElement(ele, [Characters(content)]);
    assert ContentElementEvents(ele, content) == [StartElement(ele)] + [Characters(content)] + [EndElement(ele)];
  }

  lemma ChildrenBalanced(fmt: Formatters, loc: Location, lastmod: LastMod)
    ensures Balanced(LocEvents(loc)) && Balanced(LastModEvents(fmt, lastmod))
  {
    assert Balanced([]);
    if loc.Url? {
      ContentElementBalanced("loc", loc.url.serialization);
    }
    if lastmod.DateTime? {
      ContentElementBalanced("lastmod", fmt.rfc3339(lastmod.time));
    }
  }

  /** A `<url>` element is balanced, whatever the entry. */
  lemma UrlEventsBalanced(fmt: Formatters, url: UrlEntry, priorityTag: string)
    ensures Balanced(UrlEventsTagged(fmt, url, priorityTag))
  {
    var loc := LocEvents(url.loc);
    var lastmod := LastModEvents(fmt, url.lastmod);
    var changefreq := ChangeFreqEvents(url.changefreq);
    var priority := PriorityEvents(fmt, url.priority, priorityTag);
    ChildrenBalanced(fmt, url.loc, url.lastmod);
    assert Balanced([]);
    if url.changefreq.IsCanonical() {
      ContentElementBalanced("changefreq", url.changefreq.AsStr());
    }
    if url.priority.Value? {
      ContentElementBalanced(priorityTag, fmt.float(url.priority.value));
    }
    BalancedConcat(changefreq, priority);
    BalancedConcat(lastmod, changefreq + priority);
    BalancedConcat(loc, lastmod + (changefreq + priority));
    var body := loc + (lastmod + (changefreq + priority));
    BalancedElement("url", body);
    Reassociate([StartElement("url")], loc, lastmod, changefreq, priority, [EndElement("url")]);
  }

  lemma Reassociate<T>(s: seq<T>, a: seq<T>, b: seq<T>, c: seq<T>, d: seq<T>, e: seq<T>)
    ensures s + (a + (b + (c + (d + e)))) == s + (a + (b + (c + d))) + e
  {
  }

  /** A `<sitemap>` element is balanced, whatever the entry. */
  lemma SiteMapEventsBalanced(fmt: Formatters, entry: SiteMapEntry)
    ensures Balanced(SiteMapEvents(fmt, entry))
  {
    var loc := LocEvents(entry.loc);
    var lastmod := LastModEvents(fmt, entry.lastmod);
    ChildrenBalanced(fmt, entry.loc, entry.lastmod);
    BalancedConcat(loc, lastmod);
    BalancedElement("sitemap", loc + lastmod);
    assert SiteMapEvents(fmt, entry) == [StartElement("sitemap")] + (loc + lastmod) + [EndElement("sitemap")];
  }

  lemma {:induction false} UrlsBalanced(fmt: Formatters, urls: seq<UrlEntry>, priorityTag: string)
    ensures Balanced(UrlsEvents(fmt, urls, priorityTag))
    decreases |urls|
  {
    if urls != [] {
      UrlEventsBalanced(fmt, urls[0], priorityTag);
      UrlsBalanced(fmt, urls[1..], priorityTag);
      BalancedConcat(UrlEventsTagged(fmt, urls[0], priorityTag), UrlsEvents(fmt, urls[1..], priorityTag));
    }
  }

  lemma {:induction false} SiteMapsBalanced(fmt: Formatters, sitemaps: seq<SiteMapEntry>)
    ensures Balanced(SiteMapsEvents(fmt, sitemaps))
    decreases |sitemaps|
  {
    if sitemaps != [] {
      SiteMapEventsBalanced(fmt, sitemaps[0]);
      SiteMapsBalanced(fmt, sitemaps[1..]);
      BalancedConcat(SiteMapEvents(fmt, sitemaps[0]), SiteMapsEvents(fmt, sitemaps[1..]));
    }
  }

  /** A `<urlset>` followed by a `<sitemapindex>`, as the writer produces
      them when no write is refused, closes every element it opens. */
  lemma DocumentsBalanced(fmt: Formatters, urls: seq<UrlEntry>, sitemaps: seq<SiteMapEntry>)
    ensures Balanced(UrlSetDocument(fmt, urls))
    ensures Balanced(SiteMapIndexDocument(fmt, sitemaps))
    ensures Balanced(UrlSetDocument(fmt, urls) + SiteMapIndexDocument(fmt, sitemaps))
  {
    UrlsBalanced(fmt, urls, WrittenPriorityTag);
    SiteMapsBalanced(fmt, sitemaps);
    BalancedElement("urlset", UrlsEvents(fmt, urls, WrittenPriorityTag));
    BalancedElement("sitemapindex", SiteMapsEvents(fmt, sitemaps));
    BalancedConcat(UrlSetDocument(fmt, urls), SiteMapIndexDocument(fmt, sitemaps));
  }

  // ---------------------------------------------------------------------------
  // The event writer and the three phases

  /** The XML event writer: the events it has accepted so far. */
  class EventSink {
    var written: seq<XmlEvent>
    const refuse: Refusal

    constructor (refuse: Refusal)
      ensures written == [] && this.refuse == refuse
    {
      written := [];
      this.refuse := refuse;
    }

    /** Writes one event, unless the writer refuses it. */
    method Write(ev: XmlEvent) returns (r: Result<(), SinkError>)
      modifies this
      ensures refuse(old(written), ev).None? ==> written == old(written) + [ev] && r == Ok(())
      ensures refuse(old(written), ev).Some? ==> written == old(written) && r == Result.Err(refuse(old(written), ev).value)
    {
      match refuse(written, ev)
      case None =>
        written := written + [ev];
        r := Ok(());
      case Some(e) =>
        r := Result.Err(e);
    }
  }

  /** The root phase, owning the event writer.

      `start_urlset`, `start_sitemapindex` and the phases' `end` take their
      receiver by value. The ghost fields `free` (here) and `open` (on the
      phases) stand for that ownership: a method that consumes its receiver
      requires the flag and clears it, so no call can be made on a writer
      that has been moved or dropped. */
  class SiteMapWriter {
    const writer: EventSink
    const formatters: Formatters
    /** The caller holds this writer: it is neither moved into a phase nor dropped. */
    ghost var free: bool

    /** Held by the caller, with every element written so far closed. */
    ghost predicate Idle()
      reads this, writer
    {
      free && Balanced(writer.written)
    }

    /** `new`: a root writer over a fresh event writer. */
    constructor (refuse: Refusal, formatters: Formatters)
      ensures fresh(writer) && writer.written == [] && writer.refuse == refuse
      ensures this.formatters == formatters
      ensures Idle()
    {
      writer := new EventSink(refuse);
      this.formatters := formatters;
      free := true;
    }

    /** Opens `<urlset>` and moves to the url-set phase over the same writer;
        on an error the root writer is dropped. */
    method StartUrlset() returns (r: Result<UrlSetWriter, Error>)
      requires free
      modifies this, writer
      ensures var e := Emit(writer.refuse, old(writer.written), [StartElement("urlset")]);
        writer.written == e.written && Reports(r, e.error)
      ensures !free
      ensures r.Ok? ==> fresh(r.value) && r.value.sitemap == this && r.value.open
      ensures old(Idle()) && r.Ok? ==> r.value.Inside()
    {
      ghost var out := writer.written;
      if Balanced(out) {
        EmitNesting(writer.refuse, out, [StartElement("urlset")], []);
        OpenOne([], "urlset");
        assert [] + ["urlset"] == ["urlset"];
      }
      free := false;
      var w := writer.Write(StartElement("urlset"));
      if w.Err? {
        return Result.Err(XmlWriteError(w.error));
      }
      var phase := new UrlSetWriter(this);
      return Ok(phase);
    }

    /** Writes an element holding only `content`. */
    method WriteContentElement(ele: string, content: string) returns (r: Result<(), Error>)
      modifies writer
      ensures var e := Emit(writer.refuse, old(writer.written), ContentElementEvents(ele, content));
        writer.written == e.written && Reports(r, e.error)
    {
      ghost var out := writer.written;
      EmitAppend(writer.refuse, out, [StartElement(ele)], [Characters(content), EndElement(ele)]);
      var w := writer.Write(StartElement(ele));
      if w.Err? {
        return Result.Err(XmlWriteError(w.error));
      }
      EmitAppend(writer.refuse, writer.written, [Characters(content)], [EndElement(ele)]);
      w := writer.Write(Characters(content));
      if w.Err? {
        return Result.Err(XmlWriteError(w.error));
      }
      w := writer.Write(EndElement(ele));
      if w.Err? {
        return Result.Err(XmlWriteError(w.error));
      }
      return Ok(());
    }

    /** Opens `<sitemapindex>` and moves to the index phase over the same
        writer; on an error the root writer is dropped. */
    method StartSitemapindex() returns (r: Result<SiteMapIndexWriter, Error>)
      requires free
      modifies this, writer
      ensures var e := Emit(writer.refuse, old(writer.written), [StartElement("sitemapindex")]);
        writer.written == e.written && Reports(r, e.error)
      ensures !free
      ensures r.Ok? ==> fresh(r.value) && r.value.sitemap == this && r.value.open
      ensures old(Idle()) && r.Ok? ==> r.value.Inside()
    {
      ghost var out := writer.written;
      if Balanced(out) {
        EmitNesting(writer.refuse, out, [StartElement("sitemapindex")], []);
        OpenOne([], "sitemapindex");
        assert [] + ["sitemapindex"] == ["sitemapindex"];
      }
      free := false;
      var w := writer.Write(StartElement("sitemapindex"));
      if w.Err? {
        return Result.Err(XmlWriteError(w.error));
      }
      var phase := new SiteMapIndexWriter(this);
      return Ok(phase);
    }
  }

  /** The phase inside `<urlset>`. */
  class UrlSetWriter {
    const sitemap: SiteMapWriter
    /** The caller holds this phase: `end` has not consumed it. */
    ghost var open: bool

    /** Held by the caller, with only `<urlset>` left open. */
    ghost predicate Inside()
      reads this, sitemap.writer
    {
      open && Nesting([], sitemap.writer.written) == Some(["urlset"])
    }

    constructor (sitemap: SiteMapWriter)
      ensures this.sitemap == sitemap && open
    {
      this.sitemap := sitemap;
      open := true;
    }

    /** Writes one `<url>` element. */
    method Url(url: UrlEntry) returns (r: Result<(), Error>)
      requires open
      modifies sitemap.writer
      ensures var e := Emit(sitemap.writer.refuse, old(sitemap.writer.written), UrlEvents(sitemap.formatters, url));
        sitemap.writer.written == e.written && Reports(r, e.error)
      ensures old(Inside()) && r.Ok? ==> Inside()
    {
      var w := sitemap.writer;
      var fmt := sitemap.formatters;
      ghost var out := w.written;
      ghost var t4 := PriorityEvents(fmt, url.priority, WrittenPriorityTag) + [EndElement("url")];
      ghost var t3 := ChangeFreqEvents(url.changefreq) + t4;
      ghost var t2 := LastModEvents(fmt, url.lastmod) + t3;
      ghost var t1 := LocEvents(url.loc) + t2;
      EmitAppend(w.refuse, w.written, [StartElement("url")], t1);
      var s := w.Write(StartElement("url"));
      if s.Err? {
        return Result.Err(XmlWriteError(s.error));
      }
      EmitAppend(w.refuse, w.written, LocEvents(url.loc), t2);
      if url.loc.Url? {
        r := sitemap.WriteContentElement("loc", url.loc.url.serialization);
        if r.Err? {
          return;
        }
      }
      EmitAppend(w.refuse, w.written, LastModEvents(fmt, url.lastmod), t3);
      if url.lastmod.DateTime? {
        r := sitemap.WriteContentElement("lastmod", fmt.rfc3339(url.lastmod.time));
        if r.Err? {
          return;
        }
      }
      EmitAppend(w.refuse, w.written, ChangeFreqEvents(url.changefreq), t4);
      if url.changefreq.IsCanonical() {
        r := sitemap.WriteContentElement("changefreq", url.changefreq.AsStr());
        if r.Err? {
          return;
        }
      }
      EmitAppend(w.refuse, w.written, PriorityEvents(fmt, url.priority, WrittenPriorityTag), [EndElement("url")]);
      if url.priority.Value? {
        r := sitemap.WriteContentElement(WrittenPriorityTag, fmt.float(url.priority.value));
        if r.Err? {
          return;
        }
      }
      s := w.Write(EndElement("url"));
      if s.Err? {
        return Result.Err(XmlWriteError(s.error));
      }
      UrlKeepsUrlSetOpen(w.refuse, out, fmt, url);
      return Ok(());
    }

    /** Closes `<urlset>` and gives the root writer back; on an error the
        root writer is dropped with this phase. */
    method End() returns (r: Result<SiteMapWriter, Error>)
      requires open
      modifies this, sitemap, sitemap.writer
      ensures var e := Emit(sitemap.writer.refuse, old(sitemap.writer.written), [EndElement("urlset")]);
        sitemap.writer.written == e.written && Reports(r, e.error)
      ensures !open && sitemap.free == r.Ok?
      ensures r.Ok? ==> r.value == sitemap
      ensures old(Inside()) && r.Ok? ==> r.value.Idle()
    {
      if Inside() {
        EmitNesting(sitemap.writer.refuse, sitemap.writer.written, [EndElement("urlset")], ["urlset"]);
        CloseOne([], "urlset");
      }
      open := false;
      sitemap.free := false;
      var w := sitemap.writer.Write(EndElement("urlset"));
      if w.Err? {
        return Result.Err(XmlWriteError(w.error));
      }
      sitemap.free := true;
      return Ok(sitemap);
    }
  }

  /** The phase inside `<sitemapindex>`. */
  class SiteMapIndexWriter {
    const sitemap: SiteMapWriter
    /** The caller holds this phase: `end` has not consumed it. */
    ghost var open: bool

    /** Held by the caller, with only `<sitemapindex>` left open. */
    ghost predicate Inside()
      reads this, sitemap.writer
    {
      open && Nesting([], sitemap.writer.written) == Some(["sitemapindex"])
    }

    constructor (sitemap: SiteMapWriter)
      ensures this.sitemap == sitemap && open
    {
      this.sitemap := sitemap;
      open := true;
    }

    /** Writes one `<sitemap>` element. */
    method Sitemap(entry: SiteMapEntry) returns (r: Result<(), Error>)
      requires open
      modifies sitemap.writer
      ensures var e := Emit(sitemap.writer.refuse, old(sitemap.writer.written), SiteMapEvents(sitemap.formatters, entry));
        sitemap.writer.written == e.written && Reports(r, e.error)
      ensures old(Inside()) && r.Ok? ==> Inside()
    {
      var w := sitemap.writer;
      var fmt := sitemap.formatters;
      ghost var out := w.written;
      ghost var t2 := LastModEvents(fmt, entry.lastmod) + [EndElement("sitemap")];
      ghost var t1 := LocEvents(entry.loc) + t2;
      EmitAppend(w.refuse, w.written, [StartElement("sitemap")], t1);
      var s := w.Write(StartElement("sitemap"));
      if s.Err? {
        return Result.Err(XmlWriteError(s.error));
      }
      EmitAppend(w.refuse, w.written, LocEvents(entry.loc), t2);
      if entry.loc.Url? {
        r := sitemap.WriteContentElement("loc", entry.loc.url.serialization);
        if r.Err? {
          return;
        }
      }
      EmitAppend(w.refuse, w.written, LastModEvents(fmt, entry.lastmod), [EndElement("sitemap")]);
      if entry.lastmod.DateTime? {
        r := sitemap.WriteContentElement("lastmod", fmt.rfc3339(entry.lastmod.time));
        if r.Err? {
          return;
        }
      }
      s := w.Write(EndElement("sitemap"));
      if s.Err? {
        return Result.Err(XmlWriteError(s.error));
      }
      SiteMapKeepsIndexOpen(w.refuse, out, fmt, entry);
      return Ok(());
    }

    /** Closes `<sitemapindex>` and gives the root writer back; on an error the
        root writer is dropped with this phase. */
    method End() returns (r: Result<SiteMapWriter, Error>)
      requires open
      modifies this, sitemap, sitemap.writer
      ensures var e := Emit(sitemap.writer.refuse, old(sitemap.writer.written), [EndElement("sitemapindex")]);
        sitemap.writer.written == e.written && Reports(r, e.error)
      ensures !open && sitemap.free == r.Ok?
      ensures r.Ok? ==> r.value == sitemap
      ensures old(Inside()) && r.Ok? ==> r.value.Idle()
    {
      if Inside() {
        EmitNesting(sitemap.writer.refuse, sitemap.writer.written, [EndElement("sitemapindex")], ["sitemapindex"]);
        CloseOne([], "sitemapindex");
      }
      open := false;
      sitemap.free := false;
      var w := sitemap.writer.Write(EndElement("sitemapindex"));
      if w.Err? {
        return Result.Err(XmlWriteError(w.error));
      }
      sitemap.free := true;
      return Ok(sitemap);
    }
  }
}
