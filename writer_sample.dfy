/** The writing scenario of tests/test_write_sitemap.rs: a `<urlset>` with two
    entries, then a `<sitemapindex>` with one, written through the phase
    objects in the test's order to a sink that accepts every event. The
    formatters are pinned to the texts the expected output shows. */
module WriterSample {
  import opened Sitemap
  import opened Structs
  import opened Writer

  const IndexPage := "http://www.example.com/index.html"
  const OtherPage := "http://www.example.com/other.html"
  const OtherSiteMap := "http://www.example.com/other_sitemap.xml"

  /** 2016-07-08T09:10:11 and 2016-07-18T09:10:11, both at offset zero. */
  const Date: Timestamp := Timestamp(1467969011, 0)
  const Date1: Timestamp := Timestamp(1468833011, 0)

  const DateText := "2016-07-08T09:10:11+00:00"
  const Date1Text := "2016-07-18T09:10:11+00:00"

  /** A sink that never refuses an event. */
  const Accept: Refusal := (w: seq<XmlEvent>, e: XmlEvent) => Option.None

  lemma Accepted(out: seq<XmlEvent>, evs: seq<XmlEvent>)
    ensures Emit(Accept, out, evs) == Emitted(out + evs, Option.None)
  {
    EmitAccepted(Accept, out, evs);
  }

  function SampleUrl0(p: Parsers): UrlEntry {
    UrlEntry.Builder().Loc(p, IndexPage).Changefreq(ChangeFreq.Daily).Priority(0.2).Lastmod(Date).Build()
  }

  function SampleUrl1(p: Parsers): UrlEntry {
    UrlEntry.Builder().Loc(p, OtherPage).Changefreq(ChangeFreq.Monthly).Priority(0.1).Lastmod(Date1).Build()
  }

  function SampleSiteMap(p: Parsers): SiteMapEntry {
    SiteMapEntry.Builder().Loc(p, OtherSiteMap).Lastmod(Date1).Build()
  }

  /** The parsers keep the three URLs as they are, and the formatters
      print the dates and priorities as the expected output shows them. */
  predicate SampleFormats(p: Parsers, fmt: Formatters) {
    && p.url(IndexPage) == Ok(UrlValue(IndexPage))
    && p.url(OtherPage) == Ok(UrlValue(OtherPage))
    && p.url(OtherSiteMap) == Ok(UrlValue(OtherSiteMap))
    && fmt.rfc3339(Date) == DateText
    && fmt.rfc3339(Date1) == Date1Text
    && fmt.float(0.2) == "0.2"
    && fmt.float(0.1) == "0.1"
  }

  /** The expected `<url>` elements: the priority sits in a second
      `<lastmod>` element. */
  function ExpectedUrl(page: string, dateText: string, changefreq: string, priority: string): seq<XmlEvent> {
    [StartElement("url")] + ContentElementEvents("loc", page) + ContentElementEvents("lastmod", dateText)
      + ContentElementEvents("changefreq", changefreq) + ContentElementEvents("lastmod", priority) + [EndElement("url")]
  }

  function ExpectedOutput(): seq<XmlEvent> {
    [StartElement("urlset")]
      + ExpectedUrl(IndexPage, DateText, "daily", "0.2")
      + ExpectedUrl(OtherPage, Date1Text, "monthly", "0.1")
      + [EndElement("urlset"), StartElement("sitemapindex")]
      + ([StartElement("sitemap")] + ContentElementEvents("loc", OtherSiteMap) + ContentElementEvents("lastmod", Date1Text) + [EndElement("sitemap")])
      + [EndElement("sitemapindex")]
  }

  lemma UrlWithEveryField(fmt: Formatters, url: UrlEntry, page: string, dateText: string, changefreq: string, priority: string)
    requires url.loc == Location.Url(UrlValue(page)) && url.lastmod.DateTime? && fmt.rfc3339(url.lastmod.time) == dateText
    requires url.changefreq.IsCanonical() && url.changefreq.AsStr() == changefreq
    requires url.priority.Value? && fmt.float(url.priority.value) == priority
    ensures UrlEvents(fmt, url) == ExpectedUrl(page, dateText, changefreq, priority)
  {
  }

  lemma TwoUrls(fmt: Formatters, url0: UrlEntry, url1: UrlEntry)
    ensures UrlSetDocument(fmt, [url0, url1]) == [StartElement("urlset")] + UrlEvents(fmt, url0) + UrlEvents(fmt, url1) + [EndElement("urlset")]
  {
    var e0, e1 := UrlEvents(fmt, url0), UrlEvents(fmt, url1);
    assert [url0, url1][1..] == [url1];
    assert [url1][1..] == [];
    assert UrlsEvents(fmt, [url1], WrittenPriorityTag) == e1 + UrlsEvents(fmt, [], WrittenPriorityTag);
    assert UrlsEvents(fmt, [url0, url1], WrittenPriorityTag) == e0 + e1;
  }

  lemma OneSiteMap(fmt: Formatters, entry: SiteMapEntry)
    ensures SiteMapIndexDocument(fmt, [entry]) == [StartElement("sitemapindex")] + SiteMapEvents(fmt, entry) + [EndElement("sitemapindex")]
  {
    assert [entry][1..] == [];
    assert SiteMapsEvents(fmt, [entry]) == SiteMapEvents(fmt, entry) + SiteMapsEvents(fmt, []);
  }

  lemma SampleEvents(p: Parsers, fmt: Formatters)
    requires SampleFormats(p, fmt)
    ensures UrlSetDocument(fmt, [SampleUrl0(p), SampleUrl1(p)]) + SiteMapIndexDocument(fmt, [SampleSiteMap(p)]) == ExpectedOutput()
  {
    var url0, url1 := SampleUrl0(p), SampleUrl1(p);
    UrlWithEveryField(fmt, url0, IndexPage, DateText, "daily", "0.2");
    UrlWithEveryField(fmt, url1, OtherPage, Date1Text, "monthly", "0.1");
    TwoUrls(fmt, url0, url1);
    OneSiteMap(fmt, SampleSiteMap(p));
  }

  /** The test's `<urlset>` part: start it, write two entries, end it. */
  method WriteUrlSet(sitemapWriter: SiteMapWriter, url0: UrlEntry, url1: UrlEntry)
    requires sitemapWriter.writer.refuse == Accept && sitemapWriter.Idle()
    modifies sitemapWriter, sitemapWriter.writer
    ensures sitemapWriter.writer.written == old(sitemapWriter.writer.written) + UrlSetDocument(sitemapWriter.formatters, [url0, url1])
    ensures sitemapWriter.Idle()
  {
    var sink, fmt := sitemapWriter.writer, sitemapWriter.formatters;
    ghost var before := sink.written;
    Accepted(sink.written, [StartElement("urlset")]);
    var started := sitemapWriter.StartUrlset();
    var urlWriter := started.value;
    WriteTwoUrls(urlWriter, url0, url1);
    Accepted(sink.written, [EndElement("urlset")]);
    var ended := urlWriter.End();
    TwoUrls(fmt, url0, url1);
    Regroup(before, [StartElement("urlset")], UrlEvents(fmt, url0), UrlEvents(fmt, url1), [EndElement("urlset")]);
  }

  lemma Regroup<T>(s: seq<T>, a: seq<T>, b: seq<T>, c: seq<T>, d: seq<T>)
    ensures s + a + b + c + d == s + (a + b + c + d)
  {
  }

  lemma Regroup3<T>(s: seq<T>, a: seq<T>, b: seq<T>, c: seq<T>)
    ensures s + a + b + c == s + (a + b + c)
  {
  }

  method WriteTwoUrls(urlWriter: UrlSetWriter, url0: UrlEntry, url1: UrlEntry)
    requires urlWriter.sitemap.writer.refuse == Accept && urlWriter.Inside()
    modifies urlWriter.sitemap.writer
    ensures urlWriter.sitemap.writer.written
         == old(urlWriter.sitemap.writer.written) + UrlEvents(urlWriter.sitemap.formatters, url0) + UrlEvents(urlWriter.sitemap.formatters, url1)
    ensures urlWriter.Inside()
  {
    var sink, fmt := urlWriter.sitemap.writer, urlWriter.sitemap.formatters;
    Accepted(sink.written, UrlEvents(fmt, url0));
    var r0 := urlWriter.Url(url0);
    Accepted(sink.written, UrlEvents(fmt, url1));
    var r1 := urlWriter.Url(url1);
  }

  /** The test's `<sitemapindex>` part: start it, write one entry, end it. */
  method WriteSiteMapIndex(sitemapWriter: SiteMapWriter, entry: SiteMapEntry)
    requires sitemapWriter.writer.refuse == Accept && sitemapWriter.Idle()
    modifies sitemapWriter, sitemapWriter.writer
    ensures sitemapWriter.writer.written == old(sitemapWriter.writer.written) + SiteMapIndexDocument(sitemapWriter.formatters, [entry])
    ensures sitemapWriter.Idle()
  {
    var sink, fmt := sitemapWriter.writer, sitemapWriter.formatters;
    ghost var before := sink.written;
    Accepted(sink.written, [StartElement("sitemapindex")]);
    var started := sitemapWriter.StartSitemapindex();
    var indexWriter := started.value;
    WriteOneSiteMap(indexWriter, entry);
    Accepted(sink.written, [EndElement("sitemapindex")]);
    var ended := indexWriter.End();
    OneSiteMap(fmt, entry);
    Regroup3(before, [StartElement("sitemapindex")], SiteMapEvents(fmt, entry), [EndElement("sitemapindex")]);
  }

  method WriteOneSiteMap(indexWriter: SiteMapIndexWriter, entry: SiteMapEntry)
    requires indexWriter.sitemap.writer.refuse == Accept && indexWriter.Inside()
    modifies indexWriter.sitemap.writer
    ensures indexWriter.sitemap.writer.written == old(indexWriter.sitemap.writer.written) + SiteMapEvents(indexWriter.sitemap.formatters, entry)
    ensures indexWriter.Inside()
  {
    var sink, fmt := indexWriter.sitemap.writer, indexWriter.sitemap.formatters;
    Accepted(sink.written, SiteMapEvents(fmt, entry));
    var r := indexWriter.Sitemap(entry);
  }

  /** Runs the test's calls and returns what the sink received: the
      expected document, event by event, with every element closed. */
  method WriteSample(p: Parsers, fmt: Formatters) returns (written: seq<XmlEvent>)
    requires SampleFormats(p, fmt)
    ensures written == ExpectedOutput()
    ensures Balanced(written)
  {
    var sitemapWriter := new SiteMapWriter(Accept, fmt);
    WriteUrlSet(sitemapWriter, SampleUrl0(p), SampleUrl1(p));
    WriteSiteMapIndex(sitemapWriter, SampleSiteMap(p));
    written := sitemapWriter.writer.written;
    SampleEvents(p, fmt);
  }
}
