/** The reader's test document (tests/test_read_sitemap.rs): five `<url>`
    entries followed by two `<sitemap>` entries. The document `tests/documents/sitemap1.xml` is
    not part of this model; its events are rebuilt from the test's
    assertions, with the texts of the sitemaps.org protocol sample that those
    assertions describe, and without the whitespace events the reader skips. */
module ReaderSample {
  import opened Structs
  import opened Reader

  const Loc0: string := "http://www.example.com/"
  const Loc1: string := "http://www.example.com/catalog?item=12&desc=vacation_hawaii"
  const Loc2: string := "http://www.example.com/catalog?item=73&desc=vacation_new_zealand"
  const Loc3: string := "http://www.example.com/catalog?item=74&desc=vacation_newfoundland"
  const Loc4: string := "http://www.example.com/catalog?item=83&desc=vacation_usa"
  const SiteMapLoc0: string := "http://www.example.com/sitemap1.xml.gz"
  const SiteMapLoc1: string := "http://www.example.com/sitemap2.xml.gz"

  function Url0Leaves(): seq<Leaf> {
    [Leaf("loc", Loc0), Leaf("lastmod", "2005-01-01"), Leaf("changefreq", "monthly"), Leaf("priority", "0.8")]
  }

  function Url1Leaves(): seq<Leaf> {
    [Leaf("loc", Loc1), Leaf("changefreq", "weekly")]
  }

  function Url2Leaves(): seq<Leaf> {
    [Leaf("loc", Loc2), Leaf("lastmod", "2004-12-23"), Leaf("changefreq", "weekly")]
  }

  function Url3Leaves(): seq<Leaf> {
    [Leaf("loc", Loc3), Leaf("lastmod", "2004-12-23T18:00:15+00:00"), Leaf("priority", "0.3")]
  }

  function Url4Leaves(): seq<Leaf> {
    [Leaf("loc", Loc4), Leaf("lastmod", "2004-11-23")]
  }

  function SiteMap0Leaves(): seq<Leaf> {
    [Leaf("loc", SiteMapLoc0), Leaf("lastmod", "2004-10-01T18:23:17+00:00")]
  }

  function SiteMap1Leaves(): seq<Leaf> {
    [Leaf("loc", SiteMapLoc1), Leaf("lastmod", "2005-01-01")]
  }

  function SampleUrls(): seq<seq<Leaf>> {
    [Url0Leaves(), Url1Leaves(), Url2Leaves(), Url3Leaves(), Url4Leaves()]
  }

  function SampleSiteMaps(): seq<seq<Leaf>> {
    [SiteMap0Leaves(), SiteMap1Leaves()]
  }

  function SampleDocument(): seq<Event> {
    UrlSetEvents(SampleUrls()) + SiteMapIndexEvents(SampleSiteMaps())
  }

  lemma UrlFieldsTwo(p: Parsers, e: UrlEntry, a: Leaf, b: Leaf)
    ensures UrlFields(p, e, [a, b]) == SetUrlField(p, SetUrlField(p, e, a), b)
  {
    assert [a, b] == [a] + [b] && [b] == [b] + [];
    UrlFieldsInOrder(p, e, a, [b]);
    UrlFieldsInOrder(p, SetUrlField(p, e, a), b, []);
  }

  lemma UrlFieldsThree(p: Parsers, e: UrlEntry, a: Leaf, b: Leaf, c: Leaf)
    ensures UrlFields(p, e, [a, b, c]) == SetUrlField(p, SetUrlField(p, SetUrlField(p, e, a), b), c)
  {
    assert [a, b, c] == [a] + [b, c];
    UrlFieldsInOrder(p, e, a, [b, c]);
    UrlFieldsTwo(p, SetUrlField(p, e, a), b, c);
  }

  lemma UrlFieldsFour(p: Parsers, e: UrlEntry, a: Leaf, b: Leaf, c: Leaf, d: Leaf)
    ensures UrlFields(p, e, [a, b, c, d]) == SetUrlField(p, SetUrlField(p, SetUrlField(p, SetUrlField(p, e, a), b), c), d)
  {
    assert [a, b, c, d] == [a] + [b, c, d];
    UrlFieldsInOrder(p, e, a, [b, c, d]);
    UrlFieldsThree(p, SetUrlField(p, e, a), b, c, d);
  }

  lemma SiteMapFieldsTwo(p: Parsers, e: SiteMapEntry, a: Leaf, b: Leaf)
    ensures SiteMapFields(p, e, [a, b]) == SetSiteMapField(p, SetSiteMapField(p, e, a), b)
  {
    assert [a, b] == [a] + [b] && [b] == [b] + [];
    SiteMapFieldsInOrder(p, e, a, [b]);
    SiteMapFieldsInOrder(p, SetSiteMapField(p, e, a), b, []);
  }

  /** The url shapes that occur in the sample, for any texts. */
  lemma UrlShape0(p: Parsers, loc: string, lastmod: string, changefreq: ChangeFreq, priority: string)
    requires changefreq.IsCanonical()
    ensures UrlFields(p, UrlEntry.New(), [Leaf("loc", loc), Leaf("lastmod", lastmod), Leaf("changefreq", changefreq.AsStr()), Leaf("priority", priority)])
         == UrlEntry(Location.From(p, loc), LastMod.From(p, lastmod), changefreq, Priority.From(p, priority))
  {
    var e0 := UrlEntry.New();
    var e1 := e0.(loc := Location.From(p, loc));
    var e2 := e1.(lastmod := LastMod.From(p, lastmod));
    var e3 := e2.(changefreq := changefreq);
    UrlFieldsFour(p, e0, Leaf("loc", loc), Leaf("lastmod", lastmod), Leaf("changefreq", changefreq.AsStr()), Leaf("priority", priority));
    UrlLocLeaf(p, e0, loc);
    UrlLastmodLeaf(p, e1, lastmod);
    UrlChangefreqLeaf(p, e2, changefreq.AsStr());
    TokenDecodes(changefreq, changefreq.AsStr());
    UrlPriorityLeaf(p, e3, priority);
  }

  lemma UrlShape1(p: Parsers, loc: string, changefreq: ChangeFreq)
    requires changefreq.IsCanonical()
    ensures UrlFields(p, UrlEntry.New(), [Leaf("loc", loc), Leaf("changefreq", changefreq.AsStr())])
         == UrlEntry(Location.From(p, loc), LastMod.None, changefreq, Priority.None)
  {
    var e0 := UrlEntry.New();
    var e1 := e0.(loc := Location.From(p, loc));
    UrlFieldsTwo(p, e0, Leaf("loc", loc), Leaf("changefreq", changefreq.AsStr()));
    UrlLocLeaf(p, e0, loc);
    UrlChangefreqLeaf(p, e1, changefreq.AsStr());
    TokenDecodes(changefreq, changefreq.AsStr());
  }

  lemma UrlShape2(p: Parsers, loc: string, lastmod: string, changefreq: ChangeFreq)
    requires changefreq.IsCanonical()
    ensures UrlFields(p, UrlEntry.New(), [Leaf("loc", loc), Leaf("lastmod", lastmod), Leaf("changefreq", changefreq.AsStr())])
         == UrlEntry(Location.From(p, loc), LastMod.From(p, lastmod), changefreq, Priority.None)
  {
    var e0 := UrlEntry.New();
    var e1 := e0.(loc := Location.From(p, loc));
    var e2 := e1.(lastmod := LastMod.From(p, lastmod));
    UrlFieldsThree(p, e0, Leaf("loc", loc), Leaf("lastmod", lastmod), Leaf("changefreq", changefreq.AsStr()));
    UrlLocLeaf(p, e0, loc);
    UrlLastmodLeaf(p, e1, lastmod);
    UrlChangefreqLeaf(p, e2, changefreq.AsStr());
    TokenDecodes(changefreq, changefreq.AsStr());
  }

  lemma UrlShape3(p: Parsers, loc: string, lastmod: string, priority: string)
    ensures UrlFields(p, UrlEntry.New(), [Leaf("loc", loc), Leaf("lastmod", lastmod), Leaf("priority", priority)])
         == UrlEntry(Location.From(p, loc), LastMod.From(p, lastmod), ChangeFreq.None, Priority.From(p, priority))
  {
    var e0 := UrlEntry.New();
    var e1 := e0.(loc := Location.From(p, loc));
    var e2 := e1.(lastmod := LastMod.From(p, lastmod));
    UrlFieldsThree(p, e0, Leaf("loc", loc), Leaf("lastmod", lastmod), Leaf("priority", priority));
    UrlLocLeaf(p, e0, loc);
    UrlLastmodLeaf(p, e1, lastmod);
    UrlPriorityLeaf(p, e2, priority);
  }

  lemma UrlShape4(p: Parsers, loc: string, lastmod: string)
    ensures UrlFields(p, UrlEntry.New(), [Leaf("loc", loc), Leaf("lastmod", lastmod)])
         == UrlEntry(Location.From(p, loc), LastMod.From(p, lastmod), ChangeFreq.None, Priority.None)
  {
    var e0 := UrlEntry.New();
    var e1 := e0.(loc := Location.From(p, loc));
    UrlFieldsTwo(p, e0, Leaf("loc", loc), Leaf("lastmod", lastmod));
    UrlLocLeaf(p, e0, loc);
    UrlLastmodLeaf(p, e1, lastmod);
  }

  lemma SiteMapShape(p: Parsers, loc: string, lastmod: string)
    ensures SiteMapFields(p, SiteMapEntry.New(), [Leaf("loc", loc), Leaf("lastmod", lastmod)])
         == SiteMapEntry(Location.From(p, loc), LastMod.From(p, lastmod))
  {
    var e0 := SiteMapEntry.New();
    SiteMapFieldsTwo(p, e0, Leaf("loc", loc), Leaf("lastmod", lastmod));
    SiteMapLocLeaf(p, e0, loc);
    SiteMapLastmodLeaf(p, e0.(loc := Location.From(p, loc)), lastmod);
  }

  /** A sequence known element by element. */
  lemma Listed<T>(xs: seq<T>, ys: seq<T>)
    requires |xs| == |ys|
    requires forall i :: 0 <= i < |xs| ==> xs[i] == ys[i]
    ensures xs == ys
  {
  }

  lemma FiveUrls(p: Parsers, a: seq<Leaf>, b: seq<Leaf>, c: seq<Leaf>, d: seq<Leaf>, e: seq<Leaf>)
    ensures UrlEntities(p, [a, b, c, d, e]) ==
      [ SiteMapEntity.Url(UrlFields(p, UrlEntry.New(), a)), SiteMapEntity.Url(UrlFields(p, UrlEntry.New(), b)),
        SiteMapEntity.Url(UrlFields(p, UrlEntry.New(), c)), SiteMapEntity.Url(UrlFields(p, UrlEntry.New(), d)),
        SiteMapEntity.Url(UrlFields(p, UrlEntry.New(), e)) ]
  {
    var u := [a, b, c, d, e];
    Listed(UrlEntities(p, u), [ SiteMapEntity.Url(UrlFields(p, UrlEntry.New(), u[0])),
      SiteMapEntity.Url(UrlFields(p, UrlEntry.New(), u[1])), SiteMapEntity.Url(UrlFields(p, UrlEntry.New(), u[2])),
      SiteMapEntity.Url(UrlFields(p, UrlEntry.New(), u[3])), SiteMapEntity.Url(UrlFields(p, UrlEntry.New(), u[4])) ]);
  }

  lemma TwoSiteMaps(p: Parsers, a: seq<Leaf>, b: seq<Leaf>)
    ensures SiteMapEntities(p, [a, b]) ==
      [ SiteMapEntity.SiteMap(SiteMapFields(p, SiteMapEntry.New(), a)), SiteMapEntity.SiteMap(SiteMapFields(p, SiteMapEntry.New(), b)) ]
  {
    var s := [a, b];
    Listed(SiteMapEntities(p, s), [ SiteMapEntity.SiteMap(SiteMapFields(p, SiteMapEntry.New(), s[0])),
      SiteMapEntity.SiteMap(SiteMapFields(p, SiteMapEntry.New(), s[1])) ]);
  }

  lemma SampleUrl0(p: Parsers)
    ensures UrlFields(p, UrlEntry.New(), Url0Leaves()) == UrlEntry(Location.From(p, Loc0), LastMod.From(p, "2005-01-01"), ChangeFreq.Monthly, Priority.From(p, "0.8"))
  {
    assert ChangeFreq.Monthly.AsStr() == "monthly";
    UrlShape0(p, Loc0, "2005-01-01", ChangeFreq.Monthly, "0.8");
  }

  lemma SampleUrl1(p: Parsers)
    ensures UrlFields(p, UrlEntry.New(), Url1Leaves()) == UrlEntry(Location.From(p, Loc1), LastMod.None, ChangeFreq.Weekly, Priority.None)
  {
    assert ChangeFreq.Weekly.AsStr() == "weekly";
    UrlShape1(p, Loc1, ChangeFreq.Weekly);
  }

  lemma SampleUrl2(p: Parsers)
    ensures UrlFields(p, UrlEntry.New(), Url2Leaves()) == UrlEntry(Location.From(p, Loc2), LastMod.From(p, "2004-12-23"), ChangeFreq.Weekly, Priority.None)
  {
    assert ChangeFreq.Weekly.AsStr() == "weekly";
    UrlShape2(p, Loc2, "2004-12-23", ChangeFreq.Weekly);
  }

  lemma SampleUrl3(p: Parsers)
    ensures UrlFields(p, UrlEntry.New(), Url3Leaves()) == UrlEntry(Location.From(p, Loc3), LastMod.From(p, "2004-12-23T18:00:15+00:00"), ChangeFreq.None, Priority.From(p, "0.3"))
  {
    UrlShape3(p, Loc3, "2004-12-23T18:00:15+00:00", "0.3");
  }

  lemma SampleUrl4(p: Parsers)
    ensures UrlFields(p, UrlEntry.New(), Url4Leaves()) == UrlEntry(Location.From(p, Loc4), LastMod.From(p, "2004-11-23"), ChangeFreq.None, Priority.None)
  {
    UrlShape4(p, Loc4, "2004-11-23");
  }

  lemma SampleUrlEntities(p: Parsers)
    ensures UrlEntities(p, SampleUrls()) ==
      [ SiteMapEntity.Url(UrlEntry(Location.From(p, Loc0), LastMod.From(p, "2005-01-01"), ChangeFreq.Monthly, Priority.From(p, "0.8"))),
        SiteMapEntity.Url(UrlEntry(Location.From(p, Loc1), LastMod.None, ChangeFreq.Weekly, Priority.None)),
        SiteMapEntity.Url(UrlEntry(Location.From(p, Loc2), LastMod.From(p, "2004-12-23"), ChangeFreq.Weekly, Priority.None)),
        SiteMapEntity.Url(UrlEntry(Location.From(p, Loc3), LastMod.From(p, "2004-12-23T18:00:15+00:00"), ChangeFreq.None, Priority.From(p, "0.3"))),
        SiteMapEntity.Url(UrlEntry(Location.From(p, Loc4), LastMod.From(p, "2004-11-23"), ChangeFreq.None, Priority.None)) ]
  {
    SampleUrl0(p);
    SampleUrl1(p);
    SampleUrl2(p);
    SampleUrl3(p);
    SampleUrl4(p);
    FiveUrls(p, Url0Leaves(), Url1Leaves(), Url2Leaves(), Url3Leaves(), Url4Leaves());
  }

  lemma SampleSiteMapEntities(p: Parsers)
    ensures SiteMapEntities(p, SampleSiteMaps()) ==
      [ SiteMapEntity.SiteMap(SiteMapEntry(Location.From(p, SiteMapLoc0), LastMod.From(p, "2004-10-01T18:23:17+00:00"))),
        SiteMapEntity.SiteMap(SiteMapEntry(Location.From(p, SiteMapLoc1), LastMod.From(p, "2005-01-01"))) ]
  {
    SiteMapShape(p, SiteMapLoc0, "2004-10-01T18:23:17+00:00");
    SiteMapShape(p, SiteMapLoc1, "2005-01-01");
    TwoSiteMaps(p, SiteMap0Leaves(), SiteMap1Leaves());
  }

  /** Reading the test document entity by entity gives five `Url` entities
      and then two `SiteMap` entities, with no `Err`, each carrying the
      decoding of its element's texts: absent children stay `None`, and
      `changefreq` decodes to its canonical variant. */
  lemma SampleDocumentEntities(p: Parsers)
    ensures ReadAll(p, Initial(), SampleDocument(), 0) ==
      [ SiteMapEntity.Url(UrlEntry(Location.From(p, Loc0), LastMod.From(p, "2005-01-01"), ChangeFreq.Monthly, Priority.From(p, "0.8"))),
        SiteMapEntity.Url(UrlEntry(Location.From(p, Loc1), LastMod.None, ChangeFreq.Weekly, Priority.None)),
        SiteMapEntity.Url(UrlEntry(Location.From(p, Loc2), LastMod.From(p, "2004-12-23"), ChangeFreq.Weekly, Priority.None)),
        SiteMapEntity.Url(UrlEntry(Location.From(p, Loc3), LastMod.From(p, "2004-12-23T18:00:15+00:00"), ChangeFreq.None, Priority.From(p, "0.3"))),
        SiteMapEntity.Url(UrlEntry(Location.From(p, Loc4), LastMod.From(p, "2004-11-23"), ChangeFreq.None, Priority.None)),
        SiteMapEntity.SiteMap(SiteMapEntry(Location.From(p, SiteMapLoc0), LastMod.From(p, "2004-10-01T18:23:17+00:00"))),
        SiteMapEntity.SiteMap(SiteMapEntry(Location.From(p, SiteMapLoc1), LastMod.From(p, "2005-01-01"))) ]
  {
    DocumentYieldsEntries(p, SampleUrls(), SampleSiteMaps());
    SampleUrlEntities(p);
    SampleSiteMapEntities(p);
  }
}
