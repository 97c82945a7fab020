/** Sitemap field values, their text decoders, and the two entry records
    with their builders (src/structs.rs).

    The URL parser, the W3C-datetime parser and the `f32` parser are foreign
    code: the decoders take them as a `Parsers` value and only rely on whether
    each one succeeds and what it returns. */
module Structs {
  import opened Sitemap
  import opened Text

  /** A parsed URL, represented by its serialization (what `Url::as_str` returns). */
  datatype UrlValue = UrlValue(serialization: string)

  /** A point in time with a fixed UTC offset (`DateTime<FixedOffset>`). */
  datatype Timestamp = Timestamp(utcSeconds: int, offsetSeconds: int)

  datatype UrlParseError = UrlParseError(reason: string)
  datatype DateParseError = DateParseError(reason: string)
  datatype FloatParseError = FloatParseError(reason: string)

  /** The external parsers the decoders consume: `Url::parse`,
      `parse_w3c_datetime` and `str::parse::<f32>` (the number as a real). */
  datatype Parsers = Parsers(
    url: string -> Result<UrlValue, UrlParseError>,
    w3cDatetime: string -> Result<Timestamp, DateParseError>,
    float: string -> Result<real, FloatParseError>)

  // ---------------------------------------------------------------------------
  // Location

  /** Url location: absent, a parsed URL, or the parser's error. */
  datatype Location = None | Url(url: UrlValue) | Err(error: UrlParseError)
  {
    /** The URL, present exactly for the `Url` variant. */
    function GetUrl(): (r: Option<UrlValue>)
      ensures r.Some? <==> this.Url?
      ensures r.Some? ==> r.value == this.url
    {
      match this
      case Url(u) => Some(u)
      case _ => Option.None
    }

    /** Decodes text with the URL parser; never yields `None`. */
    static function From(p: Parsers, text: string): (r: Location)
      ensures !r.None?
      ensures r.Url? <==> p.url(text).Ok?
      ensures r.Url? ==> r.url == p.url(text).value
      ensures r.Err? ==> r.error == p.url(text).error
    {
      match p.url(text)
      case Ok(u) => Location.Url(u)
      case Err(e) => Location.Err(e)
    }
  }

  // ---------------------------------------------------------------------------
  // LastMod

  /** Date of last modification: absent, a parsed timestamp, or the parser's error. */
  datatype LastMod = None | DateTime(time: Timestamp) | Err(error: DateParseError)
  {
    /** The timestamp, present exactly for the `DateTime` variant. */
    function GetTime(): (r: Option<Timestamp>)
      ensures r.Some? <==> this.DateTime?
      ensures r.Some? ==> r.value == this.time
    {
      match this
      case DateTime(t) => Some(t)
      case _ => Option.None
    }

    /** Decodes text with the W3C-datetime parser; never yields `None`. */
    static function From(p: Parsers, text: string): (r: LastMod)
      ensures !r.None?
      ensures r.DateTime? <==> p.w3cDatetime(text).Ok?
      ensures r.DateTime? ==> r.time == p.w3cDatetime(text).value
      ensures r.Err? ==> r.error == p.w3cDatetime(text).error
    {
      match p.w3cDatetime(text)
      case Ok(t) => LastMod.DateTime(t)
      case Err(e) => LastMod.Err(e)
    }
  }

  // ---------------------------------------------------------------------------
  // ChangeFreq

  /** The text a change frequency could not be decoded from, in its original case. */
  datatype ChangeFreqParseError = ChangeFreqParseError(description: string)

  /** The seven tokens of the sitemap protocol, in lower case. */
  const Tokens: set<string> := {"always", "hourly", "daily", "weekly", "monthly", "yearly", "never"}

  /** How frequently the page is likely to change. */
  datatype ChangeFreq =
    | None | Always | Hourly | Daily | Weekly | Monthly | Yearly | Never
    | Err(error: ChangeFreqParseError)
  {
    /** One of the seven protocol values (neither absent nor an error). */
    predicate IsCanonical() {
      !this.None? && !this.Err?
    }

    /** The protocol token; empty for `None` and `Err`. */
    function AsStr(): (s: string)
      ensures s == "" <==> !IsCanonical()
      ensures IsCanonical() <==> s in Tokens
    {
      match this
      case None => ""
      case Always => "always"
      case Hourly => "hourly"
      case Daily => "daily"
      case Weekly => "weekly"
      case Monthly => "monthly"
      case Yearly => "yearly"
      case Never => "never"
      case Err(_) => ""
    }

    /** Decodes text case-insensitively; anything that is not one of the
        seven tokens becomes `Err` carrying the text as given. */
    static function From(text: string): (r: ChangeFreq)
      ensures !r.None?
      ensures r.IsCanonical() <==> Lower(text) in Tokens
      ensures r.IsCanonical() ==> r.AsStr() == Lower(text)
      ensures !r.IsCanonical() ==> r == ChangeFreq.Err(ChangeFreqParseError(text))
    {
      var lowercase := Lower(text);
      if lowercase == "always" then Always
      else if lowercase == "hourly" then Hourly
      else if lowercase == "daily" then Daily
      else if lowercase == "weekly" then Weekly
      else if lowercase == "monthly" then Monthly
      else if lowercase == "yearly" then Yearly
      else if lowercase == "never" then Never
      else ChangeFreq.Err(ChangeFreqParseError(text))
    }
  }

  /** Decoding the token of a protocol value gives that value back. */
  lemma {:induction false} ChangeFreqRoundTrip(c: ChangeFreq)
    requires c.IsCanonical()
    ensures ChangeFreq.From(c.AsStr()) == c
  {
    var token := c.AsStr();
    TokensAreLower();
    LowerOfLower(token);
  }

  /** The text of a protocol value decodes to that value. */
  lemma TokenDecodes(c: ChangeFreq, token: string)
    requires c.IsCanonical() && token == c.AsStr()
    ensures ChangeFreq.From(token) == c
  {
    ChangeFreqRoundTrip(c);
  }

  lemma TokensAreLower()
    ensures IsLower("always") && IsLower("hourly") && IsLower("daily") && IsLower("weekly")
    ensures IsLower("monthly") && IsLower("yearly") && IsLower("never")
  {
  }

  /** Texts that fold to the same lower-case string decode to the same
      protocol value; only the error description keeps the original case. */
  lemma ChangeFreqCaseInsensitive(a: string, b: string)
    requires Lower(a) == Lower(b)
    ensures ChangeFreq.From(a).IsCanonical() <==> ChangeFreq.From(b).IsCanonical()
    ensures ChangeFreq.From(a).IsCanonical() ==> ChangeFreq.From(a) == ChangeFreq.From(b)
  {
  }

  /** Decoding the lower-case form of a text agrees with decoding the text
      itself on every protocol value. */
  lemma ChangeFreqFromLower(text: string)
    ensures ChangeFreq.From(text).IsCanonical() ==> ChangeFreq.From(Lower(text)) == ChangeFreq.From(text)
    ensures !ChangeFreq.From(text).IsCanonical() ==> !ChangeFreq.From(Lower(text)).IsCanonical()
  {
    LowerIsLower(text);
  }

  // ---------------------------------------------------------------------------
  // Priority

  /** The priority of a URL: absent, a value in [0, 1], a parse failure, or a
      parsed number below 0 or above 1 kept with its magnitude. */
  datatype Priority =
    | None
    | Value(value: real)
    | Err(error: FloatParseError)
    | ErrValueLesserZero(value: real)
    | ErrValueGreaterOne(value: real)
  {
    /** The priority, present exactly for the `Value` variant. */
    function GetPriority(): (r: Option<real>)
      ensures r.Some? <==> this.Value?
      ensures r.Some? ==> r.value == this.value
    {
      match this
      case Value(v) => Some(v)
      case _ => Option.None
    }

    /** Decodes text with the float parser and sorts the number by range. */
    static function From(p: Parsers, text: string): (r: Priority)
      ensures !r.None?
      ensures r.Err? <==> p.float(text).Err?
      ensures r.Err? ==> r.error == p.float(text).error
      ensures p.float(text).Ok? ==> r.value == p.float(text).value
      ensures p.float(text).Ok? ==> (r.ErrValueGreaterOne? <==> p.float(text).value > 1.0)
      ensures p.float(text).Ok? ==> (r.ErrValueLesserZero? <==> p.float(text).value < 0.0)
      ensures p.float(text).Ok? ==> (r.Value? <==> 0.0 <= p.float(text).value <= 1.0)
    {
      match p.float(text)
      case Ok(v) =>
        if v > 1.0 then ErrValueGreaterOne(v)
        else if v < 0.0 then ErrValueLesserZero(v)
        else Value(v)
      case Err(e) => Priority.Err(e)
    }
  }

  /** A decoded priority that can be read back lies in [0, 1] and is the
      parsed number itself. */
  lemma PriorityInRange(p: Parsers, text: string, v: real)
    requires Priority.From(p, text).GetPriority() == Some(v)
    ensures 0.0 <= v <= 1.0
    ensures p.float(text) == Ok(v)
  {
  }

  // ---------------------------------------------------------------------------
  // Entries

  /** Url entry: location, modification time, update frequency, priority. */
  datatype UrlEntry = UrlEntry(loc: Location, lastmod: LastMod, changefreq: ChangeFreq, priority: Priority)
  {
    /** A new entry with every field absent. */
    static function New(): (e: UrlEntry)
      ensures e.loc.None? && e.lastmod.None? && e.changefreq.None? && e.priority.None?
    {
      UrlEntry(Location.None, LastMod.None, ChangeFreq.None, Priority.None)
    }

    static function Builder(): (b: UrlEntryBuilder)
      ensures b.urlEntry == New()
    {
      UrlEntryBuilder(New())
    }
  }

  /** Accumulates a `UrlEntry` one field at a time. */
  datatype UrlEntryBuilder = UrlEntryBuilder(urlEntry: UrlEntry)
  {
    function Loc(p: Parsers, url: string): (b: UrlEntryBuilder)
      ensures b.urlEntry.loc == Location.From(p, url)
      ensures b.urlEntry.lastmod == urlEntry.lastmod
      ensures b.urlEntry.changefreq == urlEntry.changefreq
      ensures b.urlEntry.priority == urlEntry.priority
    {
      UrlEntryBuilder(urlEntry.(loc := Location.From(p, url)))
    }

    function Lastmod(date: Timestamp): (b: UrlEntryBuilder)
      ensures b.urlEntry.lastmod == LastMod.DateTime(date)
      ensures b.urlEntry.loc == urlEntry.loc
      ensures b.urlEntry.changefreq == urlEntry.changefreq
      ensures b.urlEntry.priority == urlEntry.priority
    {
      UrlEntryBuilder(urlEntry.(lastmod := LastMod.DateTime(date)))
    }

    function Changefreq(changefreq: ChangeFreq): (b: UrlEntryBuilder)
      ensures b.urlEntry.changefreq == changefreq
      ensures b.urlEntry.loc == urlEntry.loc
      ensures b.urlEntry.lastmod == urlEntry.lastmod
      ensures b.urlEntry.priority == urlEntry.priority
    {
      UrlEntryBuilder(urlEntry.(changefreq := changefreq))
    }

    /** Stores the number as a `Value`, whatever its range. */
    function Priority(val: real): (b: UrlEntryBuilder)
      ensures b.urlEntry.priority == Value(val)
      ensures b.urlEntry.loc == urlEntry.loc
      ensures b.urlEntry.lastmod == urlEntry.lastmod
      ensures b.urlEntry.changefreq == urlEntry.changefreq
    {
      UrlEntryBuilder(urlEntry.(priority := Value(val)))
    }

    /** As written: hands back the accumulated entry with no check at all. */
    function Build(): (e: UrlEntry)
      ensures e == urlEntry
    {
      urlEntry
    }

    /** The check the finish call is meant to make: a parsed location, and a
        priority value, when present, within [0, 1]. */
    function BuildChecked(): (r: Result<UrlEntry, Error>)
      ensures r.Ok? <==> ValidUrlEntry(urlEntry)
      ensures r.Ok? ==> r.value == urlEntry
      ensures r.Err? ==> r.error.Invalid?
    {
      if !urlEntry.loc.Url? then Result.Err(Invalid("location is not a parsed URL"))
      else if urlEntry.priority.Value? && !(0.0 <= urlEntry.priority.value <= 1.0) then
        Result.Err(Invalid("priority is outside [0, 1]"))
      else Ok(urlEntry)
    }
  }

  /** A url entry that may be submitted for writing. */
  predicate ValidUrlEntry(e: UrlEntry) {
    && e.loc.Url?
    && (e.priority.Value? ==> 0.0 <= e.priority.value <= 1.0)
  }

  /** Sitemap entry: location and modification time. */
  datatype SiteMapEntry = SiteMapEntry(loc: Location, lastmod: LastMod)
  {
    /** A new entry with both fields absent. */
    static function New(): (e: SiteMapEntry)
      ensures e.loc.None? && e.lastmod.None?
    {
      SiteMapEntry(Location.None, LastMod.None)
    }

    static function Builder(): (b: SiteMapEntryBuilder)
      ensures b.sitemapEntry == New()
    {
      SiteMapEntryBuilder(New())
    }
  }

  /** Accumulates a `SiteMapEntry` one field at a time. */
  datatype SiteMapEntryBuilder = SiteMapEntryBuilder(sitemapEntry: SiteMapEntry)
  {
    function Loc(p: Parsers, url: string): (b: SiteMapEntryBuilder)
      ensures b.sitemapEntry.loc == Location.From(p, url)
      ensures b.sitemapEntry.lastmod == sitemapEntry.lastmod
    {
      SiteMapEntryBuilder(sitemapEntry.(loc := Location.From(p, url)))
    }

    function Lastmod(date: Timestamp): (b: SiteMapEntryBuilder)
      ensures b.sitemapEntry.lastmod == LastMod.DateTime(date)
      ensures b.sitemapEntry.loc == sitemapEntry.loc
    {
      SiteMapEntryBuilder(sitemapEntry.(lastmod := LastMod.DateTime(date)))
    }

    /** As written: hands back the accumulated entry with no check at all. */
    function Build(): (e: SiteMapEntry)
      ensures e == sitemapEntry
    {
      sitemapEntry
    }

    /** The check the finish call is meant to make: a parsed location. */
    function BuildChecked(): (r: Result<SiteMapEntry, Error>)
      ensures r.Ok? <==> sitemapEntry.loc.Url?
      ensures r.Ok? ==> r.value == sitemapEntry
      ensures r.Err? ==> r.error.Invalid?
    {
      if sitemapEntry.loc.Url? then Ok(sitemapEntry)
      else Result.Err(Invalid("location is not a parsed URL"))
    }
  }

  /** As written, finishing an empty builder succeeds and yields an entry
      without a location, where the expected behaviour is a rejection. */
  lemma BuildAcceptsEmptyEntry()
    ensures UrlEntry.Builder().Build().loc.None?
    ensures !ValidUrlEntry(UrlEntry.Builder().Build())
    ensures SiteMapEntry.Builder().Build().loc.None?
  {
  }

  /** With the check in place, the rejections the crate's tests expect hold:
      no location, a priority of 2.0 or of -1.0. */
  lemma BuildCheckedRejects(p: Parsers, url: string)
    ensures UrlEntry.Builder().BuildChecked() == Result.Err(Invalid("location is not a parsed URL"))
    ensures UrlEntry.Builder().Priority(2.0).BuildChecked().Err?
    ensures UrlEntry.Builder().Priority(-1.0).BuildChecked().Err?
    ensures UrlEntry.Builder().Loc(p, url).Priority(2.0).BuildChecked().Err?
    ensures SiteMapEntry.Builder().BuildChecked().Err?
  {
  }
}
