/** Writing entries with the writer (src/writer.rs) and reading the result
    with the reader (src/reader.rs).

    The reader's tokenizer reports a written start tag, text and end tag as
    its own start, characters and (nameless) end events, so a written
    `<url>` or `<sitemap>` element is exactly the reader's element made of
    one leaf per written child. Provided the parsers read back what the
    formatters wrote, a `<sitemap>` comes back unchanged. A `<url>` with a
    priority does not: its priority is written under the tag "lastmod", so
    the reader takes the number for a modification date and the priority is
    lost. With the protocol's "priority" tag every writable entry comes back
    unchanged. */
module RoundTrip {
  import opened Sitemap
  import opened Structs
  import Reader
  import Writer

  /** A written event as the reader's tokenizer reports it. */
  function AsRead(e: Writer.XmlEvent): Reader.Event {
    match e
    case StartElement(n) => Reader.Event.StartElement(n)
    case Characters(t) => Reader.Event.Characters(t)
    case EndElement(_) => Reader.Event.EndElement
  }

  function AsReadAll(evs: seq<Writer.XmlEvent>): (r: seq<Reader.Event>)
    ensures |r| == |evs|
    ensures forall i :: 0 <= i < |evs| ==> r[i] == AsRead(evs[i])
  {
    if evs == [] then [] else [AsRead(evs[0])] + AsReadAll(evs[1..])
  }

  lemma AsReadAllAppend(a: seq<Writer.XmlEvent>, b: seq<Writer.XmlEvent>)
    ensures AsReadAll(a + b) == AsReadAll(a) + AsReadAll(b)
  {
    assert forall i :: 0 <= i < |a + b| ==> (a + b)[i] == if i < |a| then a[i] else b[i - |a|];
  }

  // ---------------------------------------------------------------------------
  // The leaves a written element is made of

  function LocLeaves(loc: Location): seq<Reader.Leaf> {
    if loc.Url? then [Reader.Leaf("loc", loc.url.serialization)] else []
  }

  function LastModLeaves(fmt: Writer.Formatters, lastmod: LastMod): seq<Reader.Leaf> {
    if lastmod.DateTime? then [Reader.Leaf("lastmod", fmt.rfc3339(lastmod.time))] else []
  }

  function ChangeFreqLeaves(changefreq: ChangeFreq): seq<Reader.Leaf> {
    if changefreq.IsCanonical() then [Reader.Leaf("changefreq", changefreq.AsStr())] else []
  }

  function PriorityLeaves(fmt: Writer.Formatters, priority: Priority, tag: string): seq<Reader.Leaf> {
    if priority.Value? then [Reader.Leaf(tag, fmt.float(priority.value))] else []
  }

  function UrlLeaves(fmt: Writer.Formatters, url: UrlEntry, priorityTag: string): seq<Reader.Leaf> {
    LocLeaves(url.loc) + (LastModLeaves(fmt, url.lastmod) + (ChangeFreqLeaves(url.changefreq) + PriorityLeaves(fmt, url.priority, priorityTag)))
  }

  function SiteMapLeaves(fmt: Writer.Formatters, entry: SiteMapEntry): seq<Reader.Leaf> {
    LocLeaves(entry.loc) + LastModLeaves(fmt, entry.lastmod)
  }

  lemma OptionalAsLeaves(evs: seq<Writer.XmlEvent>, leaves: seq<Reader.Leaf>, present: bool, ele: string, content: string)
    requires present ==> evs == Writer.ContentElementEvents(ele, content) && leaves == [Reader.Leaf(ele, content)]
    requires !present ==> evs == [] && leaves == []
    ensures AsReadAll(evs) == Reader.LeavesEvents(leaves)
  {
    if present {
      assert leaves[1..] == [];
    }
  }

  lemma ChildrenAsLeaves(fmt: Writer.Formatters, loc: Location, lastmod: LastMod)
    ensures AsReadAll(Writer.LocEvents(loc)) == Reader.LeavesEvents(LocLeaves(loc))
    ensures AsReadAll(Writer.LastModEvents(fmt, lastmod)) == Reader.LeavesEvents(LastModLeaves(fmt, lastmod))
  {
    OptionalAsLeaves(Writer.LocEvents(loc), LocLeaves(loc), loc.Url?, "loc", if loc.Url? then loc.url.serialization else "");
    OptionalAsLeaves(Writer.LastModEvents(fmt, lastmod), LastModLeaves(fmt, lastmod), lastmod.DateTime?, "lastmod",
      if lastmod.DateTime? then fmt.rfc3339(lastmod.time) else "");
  }

  lemma ChildrenConcat(a: seq<Writer.XmlEvent>, b: seq<Writer.XmlEvent>, la: seq<Reader.Leaf>, lb: seq<Reader.Leaf>)
    requires AsReadAll(a) == Reader.LeavesEvents(la) && AsReadAll(b) == Reader.LeavesEvents(lb)
    ensures AsReadAll(a + b) == Reader.LeavesEvents(la + lb)
  {
    AsReadAllAppend(a, b);
    Reader.LeavesEventsAppend(la, lb);
  }

  /** Start and end tags around a body read as the reader's start and
      (nameless) end around the body as read. */
  lemma WrapAsRead(name: string, body: seq<Writer.XmlEvent>, read: seq<Reader.Event>)
    requires AsReadAll(body) == read
    ensures AsReadAll([Writer.StartElement(name)] + body + [Writer.EndElement(name)])
         == [Reader.Event.StartElement(name)] + read + [Reader.Event.EndElement]
  {
    AsReadAllAppend([Writer.StartElement(name)], body);
    AsReadAllAppend([Writer.StartElement(name)] + body, [Writer.EndElement(name)]);
  }


  lemma TailAsLeaves(fmt: Writer.Formatters, changefreq: ChangeFreq, priority: Priority, priorityTag: string)
    ensures AsReadAll(Writer.ChangeFreqEvents(changefreq) + Writer.PriorityEvents(fmt, priority, priorityTag))
         == Reader.LeavesEvents(ChangeFreqLeaves(changefreq) + PriorityLeaves(fmt, priority, priorityTag))
  {
    OptionalAsLeaves(Writer.ChangeFreqEvents(changefreq), ChangeFreqLeaves(changefreq), changefreq.IsCanonical(), "changefreq", changefreq.AsStr());
    OptionalAsLeaves(Writer.PriorityEvents(fmt, priority, priorityTag), PriorityLeaves(fmt, priority, priorityTag), priority.Value?, priorityTag,
      if priority.Value? then fmt.float(priority.value) else "");
    ChildrenConcat(Writer.ChangeFreqEvents(changefreq), Writer.PriorityEvents(fmt, priority, priorityTag),
      ChangeFreqLeaves(changefreq), PriorityLeaves(fmt, priority, priorityTag));
  }

  lemma UrlBodyAsLeaves(fmt: Writer.Formatters, url: UrlEntry, priorityTag: string)
    ensures AsReadAll(Writer.LocEvents(url.loc) + (Writer.LastModEvents(fmt, url.lastmod) + (Writer.ChangeFreqEvents(url.changefreq) + Writer.PriorityEvents(fmt, url.priority, priorityTag))))
         == Reader.LeavesEvents(UrlLeaves(fmt, url, priorityTag))
  {
    var loc, lastmod := Writer.LocEvents(url.loc), Writer.LastModEvents(fmt, url.lastmod);
    var tail := Writer.ChangeFreqEvents(url.changefreq) + Writer.PriorityEvents(fmt, url.priority, priorityTag);
    var lTail := ChangeFreqLeaves(url.changefreq) + PriorityLeaves(fmt, url.priority, priorityTag);
    ChildrenAsLeaves(fmt, url.loc, url.lastmod);
    TailAsLeaves(fmt, url.changefreq, url.priority, priorityTag);
    ChildrenConcat(lastmod, tail, LastModLeaves(fmt, url.lastmod), lTail);
    ChildrenConcat(loc, lastmod + tail, LocLeaves(url.loc), LastModLeaves(fmt, url.lastmod) + lTail);
  }

  lemma Reassociate<T>(s: T, a: seq<T>, b: seq<T>, c: seq<T>, d: seq<T>, e: T)
    ensures [s] + (a + (b + (c + (d + [e])))) == [s] + (a + (b + (c + d))) + [e]
  {
  }

  /** A written `<url>` is the reader's `<url>` element with one leaf per
      written child, in the writer's order. */
  lemma UrlAsLeaves(fmt: Writer.Formatters, url: UrlEntry, priorityTag: string)
    ensures AsReadAll(Writer.UrlEventsTagged(fmt, url, priorityTag)) == Reader.UrlElementEvents(UrlLeaves(fmt, url, priorityTag))
  {
    var loc, lastmod := Writer.LocEvents(url.loc), Writer.LastModEvents(fmt, url.lastmod);
    var changefreq := Writer.ChangeFreqEvents(url.changefreq);
    var priority := Writer.PriorityEvents(fmt, url.priority, priorityTag);
    UrlBodyAsLeaves(fmt, url, priorityTag);
    WrapAsRead("url", loc + (lastmod + (changefreq + priority)), Reader.LeavesEvents(UrlLeaves(fmt, url, priorityTag)));
    Reassociate(Writer.StartElement("url"), loc, lastmod, changefreq, priority, Writer.EndElement("url"));
  }

  /** A written `<sitemap>` is the reader's `<sitemap>` element with one leaf
      per written child. */
  lemma SiteMapAsLeaves(fmt: Writer.Formatters, entry: SiteMapEntry)
    ensures AsReadAll(Writer.SiteMapEvents(fmt, entry)) == Reader.SiteMapElementEvents(SiteMapLeaves(fmt, entry))
  {
    var loc, lastmod := Writer.LocEvents(entry.loc), Writer.LastModEvents(fmt, entry.lastmod);
    ChildrenAsLeaves(fmt, entry.loc, entry.lastmod);
    ChildrenConcat(loc, lastmod, LocLeaves(entry.loc), LastModLeaves(fmt, entry.lastmod));
    WrapAsRead("sitemap", loc + lastmod, Reader.LeavesEvents(SiteMapLeaves(fmt, entry)));
    assert Writer.SiteMapEvents(fmt, entry) == [Writer.StartElement("sitemap")] + (loc + lastmod) + [Writer.EndElement("sitemap")];
  }

  // ---------------------------------------------------------------------------
  // Reading one entry back

  /** Every field of the entry is absent or holds a value the reader accepts. */
  predicate Writable(url: UrlEntry) {
    && !url.loc.Err?
    && !url.lastmod.Err?
    && !url.changefreq.Err?
    && (url.priority.None? || (url.priority.Value? && 0.0 <= url.priority.value <= 1.0))
  }

  predicate SiteMapWritable(entry: SiteMapEntry) {
    !entry.loc.Err? && !entry.lastmod.Err?
  }

  /** The parsers give back what the formatters wrote for these fields. */
  predicate ReadsBack(p: Parsers, fmt: Writer.Formatters, loc: Location, lastmod: LastMod) {
    && (loc.Url? ==> p.url(loc.url.serialization) == Ok(loc.url))
    && (lastmod.DateTime? ==> p.w3cDatetime(fmt.rfc3339(lastmod.time)) == Ok(lastmod.time))
  }

  predicate UrlReadsBack(p: Parsers, fmt: Writer.Formatters, url: UrlEntry) {
    && ReadsBack(p, fmt, url.loc, url.lastmod)
    && (url.priority.Value? ==> p.float(fmt.float(url.priority.value)) == Ok(url.priority.value))
  }

  /** What the reader makes of a written `<url>`: the entry itself, except
      that a priority turns into a modification date decoded from the
      number's text and the priority is lost. */
  function AsWrittenReadBack(p: Parsers, fmt: Writer.Formatters, url: UrlEntry): UrlEntry {
    if url.priority.Value? then url.(lastmod := LastMod.From(p, fmt.float(url.priority.value)), priority := Priority.None)
    else url
  }

  lemma LocAndLastModBack(p: Parsers, fmt: Writer.Formatters, e: UrlEntry, loc: Location, lastmod: LastMod)
    requires !loc.Err? && !lastmod.Err? && ReadsBack(p, fmt, loc, lastmod)
    requires e.loc.None? && e.lastmod.None?
    ensures Reader.UrlFields(p, e, LocLeaves(loc) + LastModLeaves(fmt, lastmod)) == e.(loc := loc, lastmod := lastmod)
  {
    Reader.UrlFieldsAppend(p, e, LocLeaves(loc), LastModLeaves(fmt, lastmod));
    var e1 := Reader.UrlFields(p, e, LocLeaves(loc));
    if loc.Url? {
      Reader.UrlFieldsInOrder(p, e, Reader.Leaf("loc", loc.url.serialization), []);
      Reader.UrlLocLeaf(p, e, loc.url.serialization);
    }
    assert e1 == e.(loc := loc);
    if lastmod.DateTime? {
      Reader.UrlFieldsInOrder(p, e1, Reader.Leaf("lastmod", fmt.rfc3339(lastmod.time)), []);
      Reader.UrlLastmodLeaf(p, e1, fmt.rfc3339(lastmod.time));
    }
  }

  lemma ChangeFreqBack(p: Parsers, e: UrlEntry, changefreq: ChangeFreq)
    requires !changefreq.Err? && e.changefreq.None?
    ensures Reader.UrlFields(p, e, ChangeFreqLeaves(changefreq)) == e.(changefreq := changefreq)
  {
    if changefreq.IsCanonical() {
      Reader.UrlFieldsInOrder(p, e, Reader.Leaf("changefreq", changefreq.AsStr()), []);
      Reader.UrlChangefreqLeaf(p, e, changefreq.AsStr());
      ChangeFreqRoundTrip(changefreq);
    }
  }

  lemma Regroup<T>(l: seq<T>, m: seq<T>, c: seq<T>, q: seq<T>)
    ensures l + (m + (c + q)) == (l + m) + c + q
  {
  }

  /** Reading the leaves of a written `<url>` up to its priority restores
      location, date and frequency. */
  lemma FieldsBeforePriority(p: Parsers, fmt: Writer.Formatters, url: UrlEntry, priorityTag: string)
    requires Writable(url) && ReadsBack(p, fmt, url.loc, url.lastmod)
    ensures Reader.UrlFields(p, UrlEntry.New(), UrlLeaves(fmt, url, priorityTag))
         == Reader.UrlFields(p, url.(priority := Priority.None), PriorityLeaves(fmt, url.priority, priorityTag))
  {
    var e0 := UrlEntry.New();
    var locLastmod := LocLeaves(url.loc) + LastModLeaves(fmt, url.lastmod);
    var changefreq := ChangeFreqLeaves(url.changefreq);
    var priority := PriorityLeaves(fmt, url.priority, priorityTag);
    Regroup(LocLeaves(url.loc), LastModLeaves(fmt, url.lastmod), changefreq, priority);
    Reader.UrlFieldsAppend(p, e0, locLastmod + changefreq, priority);
    Reader.UrlFieldsAppend(p, e0, locLastmod, changefreq);
    LocAndLastModBack(p, fmt, e0, url.loc, url.lastmod);
    ChangeFreqBack(p, e0.(loc := url.loc, lastmod := url.lastmod), url.changefreq);
  }

  /** With the protocol's "priority" tag, a writable entry comes back unchanged. */
  lemma ProtocolUrlRoundTrip(p: Parsers, fmt: Writer.Formatters, url: UrlEntry)
    requires Writable(url) && UrlReadsBack(p, fmt, url)
    ensures Reader.UrlFields(p, UrlEntry.New(), UrlLeaves(fmt, url, Writer.ProtocolPriorityTag)) == url
  {
    FieldsBeforePriority(p, fmt, url, Writer.ProtocolPriorityTag);
    var e3 := url.(priority := Priority.None);
    if url.priority.Value? {
      var text := fmt.float(url.priority.value);
      Reader.UrlFieldsInOrder(p, e3, Reader.Leaf("priority", text), []);
      Reader.UrlPriorityLeaf(p, e3, text);
    }
  }

  /** As written, a writable entry comes back as `AsWrittenReadBack`, which
      differs from it exactly when it has a priority. */
  lemma WrittenUrlReadBack(p: Parsers, fmt: Writer.Formatters, url: UrlEntry)
    requires Writable(url) && UrlReadsBack(p, fmt, url)
    ensures Reader.UrlFields(p, UrlEntry.New(), UrlLeaves(fmt, url, Writer.WrittenPriorityTag)) == AsWrittenReadBack(p, fmt, url)
    ensures AsWrittenReadBack(p, fmt, url) == url <==> !url.priority.Value?
  {
    FieldsBeforePriority(p, fmt, url, Writer.WrittenPriorityTag);
    var e3 := url.(priority := Priority.None);
    if url.priority.Value? {
      var text := fmt.float(url.priority.value);
      Reader.UrlFieldsInOrder(p, e3, Reader.Leaf("lastmod", text), []);
      Reader.UrlLastmodLeaf(p, e3, text);
    }
  }

  /** A writable `<sitemap>` entry comes back unchanged. */
  lemma SiteMapRoundTrip(p: Parsers, fmt: Writer.Formatters, entry: SiteMapEntry)
    requires SiteMapWritable(entry) && ReadsBack(p, fmt, entry.loc, entry.lastmod)
    ensures Reader.SiteMapFields(p, SiteMapEntry.New(), SiteMapLeaves(fmt, entry)) == entry
  {
    var e0 := SiteMapEntry.New();
    Reader.SiteMapFieldsAppend(p, e0, LocLeaves(entry.loc), LastModLeaves(fmt, entry.lastmod));
    var e1 := Reader.SiteMapFields(p, e0, LocLeaves(entry.loc));
    if entry.loc.Url? {
      Reader.SiteMapFieldsInOrder(p, e0, Reader.Leaf("loc", entry.loc.url.serialization), []);
      Reader.SiteMapLocLeaf(p, e0, entry.loc.url.serialization);
    }
    assert e1 == e0.(loc := entry.loc);
    if entry.lastmod.DateTime? {
      Reader.SiteMapFieldsInOrder(p, e1, Reader.Leaf("lastmod", fmt.rfc3339(entry.lastmod.time)), []);
      Reader.SiteMapLastmodLeaf(p, e1, fmt.rfc3339(entry.lastmod.time));
    }
  }

  // ---------------------------------------------------------------------------
  // Reading whole documents back

  function UrlLeavesList(fmt: Writer.Formatters, urls: seq<UrlEntry>, priorityTag: string): (r: seq<seq<Reader.Leaf>>)
    ensures |r| == |urls|
    ensures forall i :: 0 <= i < |urls| ==> r[i] == UrlLeaves(fmt, urls[i], priorityTag)
  {
    if urls == [] then [] else [UrlLeaves(fmt, urls[0], priorityTag)] + UrlLeavesList(fmt, urls[1..], priorityTag)
  }

  function SiteMapLeavesList(fmt: Writer.Formatters, sitemaps: seq<SiteMapEntry>): (r: seq<seq<Reader.Leaf>>)
    ensures |r| == |sitemaps|
    ensures forall i :: 0 <= i < |sitemaps| ==> r[i] == SiteMapLeaves(fmt, sitemaps[i])
  {
    if sitemaps == [] then [] else [SiteMapLeaves(fmt, sitemaps[0])] + SiteMapLeavesList(fmt, sitemaps[1..])
  }

  lemma {:induction false} UrlsAsLeaves(fmt: Writer.Formatters, urls: seq<UrlEntry>, priorityTag: string)
    ensures AsReadAll(Writer.UrlsEvents(fmt, urls, priorityTag)) == Reader.UrlElementsEvents(UrlLeavesList(fmt, urls, priorityTag))
    decreases |urls|
  {
    if urls != [] {
      UrlsAsLeaves(fmt, urls[1..], priorityTag);
      UrlAsLeaves(fmt, urls[0], priorityTag);
      AsReadAllAppend(Writer.UrlEventsTagged(fmt, urls[0], priorityTag), Writer.UrlsEvents(fmt, urls[1..], priorityTag));
      assert UrlLeavesList(fmt, urls, priorityTag)[1..] == UrlLeavesList(fmt, urls[1..], priorityTag);
    }
  }

  lemma {:induction false} SiteMapsAsLeaves(fmt: Writer.Formatters, sitemaps: seq<SiteMapEntry>)
    ensures AsReadAll(Writer.SiteMapsEvents(fmt, sitemaps)) == Reader.SiteMapElementsEvents(SiteMapLeavesList(fmt, sitemaps))
    decreases |sitemaps|
  {
    if sitemaps != [] {
      SiteMapsAsLeaves(fmt, sitemaps[1..]);
      SiteMapAsLeaves(fmt, sitemaps[0]);
      AsReadAllAppend(Writer.SiteMapEvents(fmt, sitemaps[0]), Writer.SiteMapsEvents(fmt, sitemaps[1..]));
      assert SiteMapLeavesList(fmt, sitemaps)[1..] == SiteMapLeavesList(fmt, sitemaps[1..]);
    }
  }

  /** The events of a written `<urlset>` followed by a written
      `<sitemapindex>`, as the reader sees them. */
  lemma DocumentAsLeaves(fmt: Writer.Formatters, urls: seq<UrlEntry>, sitemaps: seq<SiteMapEntry>, priorityTag: string)
    ensures AsReadAll(Writer.UrlSetDocumentTagged(fmt, urls, priorityTag) + Writer.SiteMapIndexDocument(fmt, sitemaps))
         == Reader.UrlSetEvents(UrlLeavesList(fmt, urls, priorityTag)) + Reader.SiteMapIndexEvents(SiteMapLeavesList(fmt, sitemaps))
  {
    var urlset, index := Writer.UrlSetDocumentTagged(fmt, urls, priorityTag), Writer.SiteMapIndexDocument(fmt, sitemaps);
    UrlsAsLeaves(fmt, urls, priorityTag);
    SiteMapsAsLeaves(fmt, sitemaps);
    WrapAsRead("urlset", Writer.UrlsEvents(fmt, urls, priorityTag), Reader.UrlElementsEvents(UrlLeavesList(fmt, urls, priorityTag)));
    WrapAsRead("sitemapindex", Writer.SiteMapsEvents(fmt, sitemaps), Reader.SiteMapElementsEvents(SiteMapLeavesList(fmt, sitemaps)));
    AsReadAllAppend(urlset, index);
  }


  /** One entity per entry, in order. */
  function UrlsAsEntities(urls: seq<UrlEntry>): (r: seq<Reader.SiteMapEntity>)
    ensures |r| == |urls|
    ensures forall i :: 0 <= i < |urls| ==> r[i] == Reader.SiteMapEntity.Url(urls[i])
  {
    if urls == [] then [] else [Reader.SiteMapEntity.Url(urls[0])] + UrlsAsEntities(urls[1..])
  }

  function SiteMapsAsEntities(sitemaps: seq<SiteMapEntry>): (r: seq<Reader.SiteMapEntity>)
    ensures |r| == |sitemaps|
    ensures forall i :: 0 <= i < |sitemaps| ==> r[i] == Reader.SiteMapEntity.SiteMap(sitemaps[i])
  {
    if sitemaps == [] then [] else [Reader.SiteMapEntity.SiteMap(sitemaps[0])] + SiteMapsAsEntities(sitemaps[1..])
  }

  /** As written, each `<url>` entry reads back as `AsWrittenReadBack`. */
  function AsWrittenReadBackAll(p: Parsers, fmt: Writer.Formatters, urls: seq<UrlEntry>): (r: seq<UrlEntry>)
    ensures |r| == |urls|
    ensures forall i :: 0 <= i < |urls| ==> r[i] == AsWrittenReadBack(p, fmt, urls[i])
  {
    if urls == [] then [] else [AsWrittenReadBack(p, fmt, urls[0])] + AsWrittenReadBackAll(p, fmt, urls[1..])
  }

  predicate AllUrlsRoundTrip(p: Parsers, fmt: Writer.Formatters, urls: seq<UrlEntry>) {
    forall u :: u in urls ==> Writable(u) && UrlReadsBack(p, fmt, u)
  }

  predicate AllSiteMapsRoundTrip(p: Parsers, fmt: Writer.Formatters, sitemaps: seq<SiteMapEntry>) {
    forall s :: s in sitemaps ==> SiteMapWritable(s) && ReadsBack(p, fmt, s.loc, s.lastmod)
  }

  lemma SiteMapEntitiesBack(p: Parsers, fmt: Writer.Formatters, sitemaps: seq<SiteMapEntry>)
    requires AllSiteMapsRoundTrip(p, fmt, sitemaps)
    ensures Reader.SiteMapEntities(p, SiteMapLeavesList(fmt, sitemaps)) == SiteMapsAsEntities(sitemaps)
  {
    forall i | 0 <= i < |sitemaps|
      ensures Reader.SiteMapEntities(p, SiteMapLeavesList(fmt, sitemaps))[i] == SiteMapsAsEntities(sitemaps)[i]
    {
      SiteMapRoundTrip(p, fmt, sitemaps[i]);
    }
  }

  lemma ProtocolUrlEntitiesBack(p: Parsers, fmt: Writer.Formatters, urls: seq<UrlEntry>)
    requires AllUrlsRoundTrip(p, fmt, urls)
    ensures Reader.UrlEntities(p, UrlLeavesList(fmt, urls, Writer.ProtocolPriorityTag)) == UrlsAsEntities(urls)
  {
    forall i | 0 <= i < |urls|
      ensures Reader.UrlEntities(p, UrlLeavesList(fmt, urls, Writer.ProtocolPriorityTag))[i] == UrlsAsEntities(urls)[i]
    {
      ProtocolUrlRoundTrip(p, fmt, urls[i]);
    }
  }

  lemma WrittenUrlEntitiesBack(p: Parsers, fmt: Writer.Formatters, urls: seq<UrlEntry>)
    requires AllUrlsRoundTrip(p, fmt, urls)
    ensures Reader.UrlEntities(p, UrlLeavesList(fmt, urls, Writer.WrittenPriorityTag)) == UrlsAsEntities(AsWrittenReadBackAll(p, fmt, urls))
  {
    forall i | 0 <= i < |urls|
      ensures Reader.UrlEntities(p, UrlLeavesList(fmt, urls, Writer.WrittenPriorityTag))[i] == UrlsAsEntities(AsWrittenReadBackAll(p, fmt, urls))[i]
    {
      WrittenUrlReadBack(p, fmt, urls[i]);
    }
  }

  /** A `<urlset>` with the protocol's "priority" tag followed by a
      `<sitemapindex>`, both written from entries the reader accepts, reads
      back as exactly those entries, in order. */
  lemma ProtocolDocumentRoundTrip(p: Parsers, fmt: Writer.Formatters, urls: seq<UrlEntry>, sitemaps: seq<SiteMapEntry>)
    requires AllUrlsRoundTrip(p, fmt, urls) && AllSiteMapsRoundTrip(p, fmt, sitemaps)
    ensures Reader.ReadAll(p, Reader.Initial(),
              AsReadAll(Writer.UrlSetDocumentTagged(fmt, urls, Writer.ProtocolPriorityTag) + Writer.SiteMapIndexDocument(fmt, sitemaps)), 0)
         == UrlsAsEntities(urls) + SiteMapsAsEntities(sitemaps)
  {
    var urlLeaves := UrlLeavesList(fmt, urls, Writer.ProtocolPriorityTag);
    DocumentAsLeaves(fmt, urls, sitemaps, Writer.ProtocolPriorityTag);
    Reader.DocumentYieldsEntries(p, urlLeaves, SiteMapLeavesList(fmt, sitemaps));
    ProtocolUrlEntitiesBack(p, fmt, urls);
    SiteMapEntitiesBack(p, fmt, sitemaps);
  }

  /** The same documents as the writer writes them: every `<url>` entry
      reads back as `AsWrittenReadBack`, so each one with a priority loses
      it. */
  lemma WrittenDocumentReadBack(p: Parsers, fmt: Writer.Formatters, urls: seq<UrlEntry>, sitemaps: seq<SiteMapEntry>)
    requires AllUrlsRoundTrip(p, fmt, urls) && AllSiteMapsRoundTrip(p, fmt, sitemaps)
    ensures Reader.ReadAll(p, Reader.Initial(),
              AsReadAll(Writer.UrlSetDocument(fmt, urls) + Writer.SiteMapIndexDocument(fmt, sitemaps)), 0)
         == UrlsAsEntities(AsWrittenReadBackAll(p, fmt, urls)) + SiteMapsAsEntities(sitemaps)
  {
    var urlLeaves := UrlLeavesList(fmt, urls, Writer.WrittenPriorityTag);
    DocumentAsLeaves(fmt, urls, sitemaps, Writer.WrittenPriorityTag);
    Reader.DocumentYieldsEntries(p, urlLeaves, SiteMapLeavesList(fmt, sitemaps));
    WrittenUrlEntitiesBack(p, fmt, urls);
    SiteMapEntitiesBack(p, fmt, sitemaps);
  }
}
