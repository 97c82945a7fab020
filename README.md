# rust-sitemap in Dafny

A model of the core of the `sitemap` crate, a reader and writer for the
sitemaps.org XML protocol, with proofs about it.

- **Entries** (`structs.dfy`, module `Structs`). These model `src/structs.rs`.
  - The field types `Location`, `LastMod`, `ChangeFreq` and `Priority` each hold an absent value, a decoded value or a decoding error.
  - Their text decoders and getters are modelled.
  - So are the two entry records `UrlEntry` and `SiteMapEntry`, and their builders.
  - URL, date and float parsing belong to other crates. They are passed in as the function-typed fields of a `Parsers` value.
- **Reader** (`reader.dfy`, module `Reader`). This models `src/reader.rs`.
  - The class `SiteMapReader` keeps the path of open tags and the two accumulators, as the Rust struct does.
  - Its methods `OpenTag`, `TextContent`, `CloseTag` and `Next` are proved against pure functions: `OpenTagSpec`, `TextContentSpec`, `CloseTagSpec`, the one-event function `Step` and its driver `NextSpec`.
  - `Run` reads a whole event stream and `ReadAll` iterates the reader.
  - The tokenizer becomes a sequence of events that the reader is constructed with.
- **Writer** (`writer.dfy`, module `Writer`). This models `src/writer.rs`.
  - The classes `SiteMapWriter`, `UrlSetWriter` and `SiteMapIndexWriter` write to an `EventSink`.
  - The sink records the accepted XML events. It may refuse one, and that refusal is the I/O error `?` propagates.
  - Each method is proved against the pure function `Emit`: the events are written in order until the first refusal, and the refusal comes back as `Error::XmlWriteError`.
- **Round trip** (`roundtrip.dfy`, module `RoundTrip`). This connects the writer to the reader. It shows what reading back what was written gives.
- **Crate tests** (`reader_sample.dfy` and `writer_sample.dfy`). These restate the scenarios of the crate's two test files.

`Text.Lower` is ASCII lower-casing. It stands in for `str::to_lowercase` at src/structs.rs:245 and src/reader.rs:111.

## Model

| member | source | states |
|---|---|---|
| Text.Lower | src/reader.rs:111 | lower-casing keeps the length, turns each of A-Z into its lower-case letter and keeps every other character |
| Text.LowerOfLower | src/structs.rs:245 | a text with no upper-case letter is its own lower-case form |
| Text.LowerIsLower | src/structs.rs:245 | lower-casing leaves no upper-case letter and is idempotent |
| Structs.Location.GetUrl | src/structs.rs:123-132 | a URL comes back exactly for the `Url` variant, and it is the stored one |
| Structs.Location.From | src/structs.rs:134-146 | the result is never `None`; it is a URL exactly when the URL parser succeeds, otherwise the parser's error |
| Structs.LastMod.GetTime | src/structs.rs:159-168 | a time comes back exactly for the `DateTime` variant, and it is the stored one |
| Structs.LastMod.From | src/structs.rs:170-181 | the result is never `None`; it is a time exactly when the W3C-datetime parser succeeds, otherwise the parser's error |
| Structs.ChangeFreq.AsStr | src/structs.rs:228-241 | the text is empty exactly for `None` and `Err`, and otherwise it is one of the seven protocol tokens |
| Structs.ChangeFreq.From | src/structs.rs:243-272 | a protocol value exactly when the lower-cased text is a token, and its token is that lower-cased text; otherwise `Err` carrying the original text |
| Structs.ChangeFreqRoundTrip | src/structs.rs:228-272 | decoding the token of any protocol value gives that value back |
| Structs.ChangeFreqCaseInsensitive | src/structs.rs:245-267 | two texts with the same lower-case form decode alike |
| Structs.ChangeFreqFromLower | src/structs.rs:245-271 | decoding the lower-cased text agrees with decoding the text |
| Structs.Priority.GetPriority | src/structs.rs:291-300 | a value comes back exactly for the `Value` variant |
| Structs.Priority.From | src/structs.rs:302-320 | a parse failure gives `Err`; otherwise the number is above 1, below 0 or in [0, 1], and it is kept in the matching variant |
| Structs.PriorityInRange | src/structs.rs:291-320 | a priority read from text lies in [0, 1] and is the parsed number |
| Structs.UrlEntry.New | src/structs.rs:55-62 | every field is absent |
| Structs.UrlEntry.Builder | src/structs.rs:63-65 | a builder starts from the empty entry |
| Structs.UrlEntryBuilder.Loc | src/structs.rs:31-34 | sets the decoded location and leaves the other fields alone |
| Structs.UrlEntryBuilder.Lastmod | src/structs.rs:35-38 | sets the time and leaves the other fields alone |
| Structs.UrlEntryBuilder.Changefreq | src/structs.rs:39-42 | sets the frequency and leaves the other fields alone |
| Structs.UrlEntryBuilder.Priority | src/structs.rs:43-46 | sets the priority value, without any range check, and leaves the other fields alone |
| Structs.UrlEntryBuilder.Build | src/structs.rs:47-50 | as written: returns the accumulated entry unchanged, with no check |
| Structs.BuildAcceptsEmptyEntry | src/structs.rs:47-50 | as written, an empty builder builds an entry with no location, which is not a valid entry |
| Structs.UrlEntryBuilder.BuildChecked | src/structs.rs:47-50 | corrected build: succeeds exactly for a parsed location with an in-range or absent priority, and then returns the entry unchanged |
| Structs.SiteMapEntry.New | src/structs.rs:99-104 | both fields are absent |
| Structs.SiteMapEntry.Builder | src/structs.rs:106-108 | a builder starts from the empty entry |
| Structs.SiteMapEntryBuilder.Loc | src/structs.rs:73-76 | sets the decoded location and keeps the time |
| Structs.SiteMapEntryBuilder.Lastmod | src/structs.rs:78-81 | sets the time and keeps the location |
| Structs.SiteMapEntryBuilder.Build | src/structs.rs:83-86 | as written: returns the accumulated entry unchanged, with no check |
| Structs.SiteMapEntryBuilder.BuildChecked | src/structs.rs:83-86 | corrected build: succeeds exactly for a parsed location |
| Structs.BuildCheckedRejects | tests/test_write_sitemap.rs:80-86 | the corrected builds reject what the validation test expects rejected: no location, priority 2.0 and priority -1.0 |
| Reader.SiteMapReader.constructor | src/reader.rs:62-70 | a new reader has an empty path, empty accumulators and the initial state, positioned before the first event |
| Reader.SiteMapReader.OpenTag | src/reader.rs:71-77 | the new state is `OpenTagSpec` of the old one: an accumulator is reset exactly when its container path was just entered |
| Reader.SiteMapReader.TextContent | src/reader.rs:78-92 | the new state is `TextContentSpec` of the old one |
| Reader.SiteMapReader.CloseTag | src/reader.rs:93-100 | the entity is `CloseTagSpec` of the current state |
| Reader.SiteMapReader.Next | src/reader.rs:104-139 | the pull loop ends in the state, cursor and item that `NextSpec` gives |
| Reader.Pop | src/reader.rs:117 | removes the last open tag, and leaves an empty path empty |
| Reader.NextSpec | src/reader.rs:104-139 | the cursor never moves back; when no item comes out the events are used up; an item consumes at least one event |
| Reader.StartTagPushes | src/reader.rs:110-114 | a start tag pushes its lower-cased name; only the two container paths reset an accumulator |
| Reader.TextSetsOneField | src/reader.rs:125-127 | text sets exactly the field of its leaf path, decoded; on any other path it changes nothing |
| Reader.EndTagYieldsAndPops | src/reader.rs:115-124 | an end tag yields the url entry exactly at `urlset/url` and the sitemap entry exactly at `sitemapindex/sitemap`, then pops |
| Reader.ErrorAndOtherKeepState | src/reader.rs:128-131 | a tokenizer error is yielded as it is, and other events are skipped; neither changes the state |
| Reader.RunAppend | src/reader.rs:104-139 | reading a concatenation reads the first part and then the second from the state the first left |
| Reader.NextIsRunPrefix | src/reader.rs:104-139 | one `next` call consumes a prefix of the events and yields what reading that prefix yields |
| Reader.ReadAllIsRun | src/reader.rs:102-139 | iterating the reader yields exactly the entities of reading the whole stream |
| Reader.ErrorIsReportedInPlace | src/reader.rs:128-130 | an error becomes one `Err` entity in its position, and reading goes on from the unchanged state |
| Reader.UrlElementYieldsEntry | src/reader.rs:72-95 | a `url` element inside `urlset` yields one entry: a fresh entry filled from its children in order |
| Reader.SiteMapElementYieldsEntry | src/reader.rs:74-97 | a `sitemap` element inside `sitemapindex` yields one entry filled from its children |
| Reader.UrlSetYieldsEntries | src/reader.rs:104-139 | a `urlset` document yields one url entity per `url` element, in order, and closes its path |
| Reader.SiteMapIndexYieldsEntries | src/reader.rs:104-139 | a `sitemapindex` document yields one sitemap entity per `sitemap` element, in order |
| Reader.DocumentYieldsEntries | src/reader.rs:102-139 | a `urlset` followed by a `sitemapindex` reads as the url entities followed by the sitemap entities |
| ReaderSample.SampleDocumentEntities | tests/test_read_sitemap.rs:28-86 | the sample document reads as the five url entries and two sitemap entries that the reading tests check |
| Writer.EmitStopsAtFirstRefusal | src/writer.rs:17-35 | events are written in order up to the first refusal; that refusal is the error; with no refusal every event is written |
| Writer.EmitAppend | src/writer.rs:78-83 | writing two runs of events is writing the first and, unless it failed, then the second |
| Writer.UrlChildren | src/writer.rs:16-36 | `loc` is written exactly for a parsed URL and `changefreq` exactly for a protocol value; `lastmod` is written when there is a time or a priority; `priority` is never written, and the priority text is written |
| Writer.SiteMapChildren | src/writer.rs:49-59 | `loc` is written exactly for a parsed URL and `lastmod` exactly for a time, and no other element is written |
| Writer.UrlEventsBalanced | src/writer.rs:16-36 | a written `url` element is balanced, whatever the entry |
| Writer.SiteMapEventsBalanced | src/writer.rs:49-59 | a written `sitemap` element is balanced, whatever the entry |
| Writer.DocumentsBalanced | src/writer.rs:73-87 | a written `urlset`, a written `sitemapindex` and the one followed by the other are each balanced |
| Writer.EmitNesting | src/writer.rs:73-87 | when no event is refused, the elements left open after a write are those the new events leave open on top of the ones open before |
| Writer.UrlKeepsUrlSetOpen | src/writer.rs:16-36 | writing a `url` element inside an open `urlset`, with no refusal, leaves exactly `urlset` open |
| Writer.SiteMapKeepsIndexOpen | src/writer.rs:49-59 | writing a `sitemap` element inside an open `sitemapindex`, with no refusal, leaves exactly `sitemapindex` open |
| Writer.EventSink.Write | src/writer.rs:79 | a write the sink accepts appends the event and returns `Ok`; a refused one changes nothing and returns the refusal |
| Writer.SiteMapWriter.constructor | src/writer.rs:68-71 | a new writer has an empty sink with the given refusal and formatters; the caller holds it, and nothing is open |
| Writer.SiteMapWriter.StartUrlset | src/writer.rs:73-76 | callable only on a writer the caller holds, which it consumes; the sink holds what `Emit` gives for a `urlset` start tag, and the result reports its error; on success a fresh url-set phase holds this writer, and if nothing was open before, exactly `urlset` is open |
| Writer.SiteMapWriter.WriteContentElement | src/writer.rs:78-83 | the sink holds what `Emit` gives for start tag, text and end tag, and the result reports its error |
| Writer.SiteMapWriter.StartSitemapindex | src/writer.rs:84-87 | callable only on a writer the caller holds, which it consumes; the sink holds what `Emit` gives for a `sitemapindex` start tag, and the result reports its error; on success a fresh index phase holds this writer, and if nothing was open before, exactly `sitemapindex` is open |
| Writer.UrlSetWriter.constructor | src/writer.rs:75 | the phase holds the given writer and is held by the caller |
| Writer.UrlSetWriter.Url | src/writer.rs:16-36 | callable only on a phase not yet ended; the sink holds what `Emit` gives for the entry's `url` element, and the result reports the first refusal; on success inside an open `urlset` that stays the only open element |
| Writer.UrlSetWriter.End | src/writer.rs:38-41 | consumes the phase; the sink holds what `Emit` gives for the `urlset` end tag; on success the root writer comes back to the caller with every element closed, and on an error it is dropped |
| Writer.SiteMapIndexWriter.constructor | src/writer.rs:86 | the phase holds the given writer and is held by the caller |
| Writer.SiteMapIndexWriter.Sitemap | src/writer.rs:49-59 | callable only on a phase not yet ended; the sink holds what `Emit` gives for the entry's `sitemap` element, and the result reports the first refusal; on success inside an open `sitemapindex` that stays the only open element |
| Writer.SiteMapIndexWriter.End | src/writer.rs:61-64 | consumes the phase; the sink holds what `Emit` gives for the `sitemapindex` end tag; on success the root writer comes back to the caller with every element closed, and on an error it is dropped |
| WriterSample.SampleEvents | tests/test_write_sitemap.rs:8-36 | the test's two url entries and one sitemap entry are written as the expected document, including the priority under `lastmod` |
| WriterSample.WriteSample | tests/test_write_sitemap.rs:40-78 | making the test's calls, in the test's order, on a sink that accepts everything leaves the expected document in the sink, with every element closed |
| RoundTrip.UrlAsLeaves | src/writer.rs:16-36 | a written `url` element is, as the reader sees it, a `url` element with one text child per written field, in order |
| RoundTrip.SiteMapAsLeaves | src/writer.rs:49-59 | a written `sitemap` element is, as the reader sees it, a `sitemap` element with one text child per written field |
| RoundTrip.ProtocolUrlRoundTrip | src/reader.rs:79-86 | written under the protocol's `priority` tag, a valid entry reads back unchanged, provided the parsers invert the formatters |
| RoundTrip.WrittenUrlReadBack | src/writer.rs:31-33 | as written, an entry reads back with its priority gone and its date replaced by the decoding of the priority's text; it comes back unchanged exactly when it has no priority |
| RoundTrip.SiteMapRoundTrip | src/writer.rs:49-59 | a valid sitemap entry reads back unchanged, provided the parsers invert the formatters |
| RoundTrip.ProtocolDocumentRoundTrip | src/writer.rs:16-87 | with the protocol's tag, a written `urlset` and `sitemapindex` read back as exactly the written entries, in order |
| RoundTrip.WrittenDocumentReadBack | src/writer.rs:31-33 | the same documents as written read back with every url entry passed through the as-written loss |

## Left out

- URL, W3C-datetime and float parsing belong to the `url`, `chrono_utils` and standard crates. They are function parameters (`Parsers`), as are RFC 3339 and float formatting (`Formatters`). The round trips assume these parsers invert these formatters.
- `Url::as_str` is the URL's stored serialization. URL normalisation is not modelled.
- Priority is a real number. `f32` rounding and NaN are not modelled.
- `Text.Lower` lower-cases ASCII only. `to_lowercase` also folds other Unicode letters.
- The `xml-rs` tokenizer is not modelled. The reader is given its event stream, keeping start tags (local name only), end tags, text, errors and "anything else". Attributes, namespaces, whitespace and comment events are not modelled.
- The `xml-rs` event writer is not modelled. Indentation, the XML declaration, escaping and bytes are left out, and so is a write that fails after emitting part of an event. The sink records whole events and may refuse any one of them.
- The crate's write test expects an `xmlns` attribute on both roots. `src/writer.rs:74` and `src/writer.rs:85` write bare start tags, and the model follows the code.
- Rust's by-value hand-over between writer phases is modelled by ghost flags (`SiteMapWriter.free`, and `open` on the two phases) that the consuming methods require and clear. Borrowing is not modelled: `SiteMapWriter.WriteContentElement` has no ownership precondition, because the phases call it on the root writer they hold, so a direct call on a root writer that a phase holds is not excluded as the Rust compiler would exclude it.
- `Display` and `Error` impls, the `From` conversions of `src/errors.rs` and the `ChangeFreqParseError` message are not modelled. Only the wrapping of a writer failure as `XmlWriteError` is kept.
- File I/O in the tests is not modelled. The read test's document `tests/documents/sitemap1.xml` is not modelled; `ReaderSample` rebuilds its event stream from the values the test checks. The reconstruction is five `url` elements and two `sitemap` elements.
- The tests build entries with `build().expect(...)` and `build().is_err()`. In `src/structs.rs:47-50` and `src/structs.rs:83-86`, `build` returns the entry itself. The model follows the code, and the checked build is the corrected half of the first finding below.

## Findings

| source | as written | input that shows it | evidently intended | confidence | as-written member | corrected member |
|---|---|---|---|---|---|---|
| src/structs.rs:47-50 | `build` returns the accumulated entry without checking it | `UrlEntry::builder().build()` yields an entry with no location, and `priority(2.0)` is kept | a location is required and the priority is in [0, 1], as `tests/test_write_sitemap.rs:80-86` expects | not executed | Structs.BuildAcceptsEmptyEntry | Structs.UrlEntryBuilder.BuildChecked |
| src/writer.rs:31-33 | the priority is written in an element named `lastmod` | any entry with `priority(0.2)` writes `<lastmod>0.2</lastmod>`; reading it back replaces the date by the decoding of "0.2" and loses the priority | the element is `priority`, which the reader decodes at `src/reader.rs:85-86` | not executed | RoundTrip.WrittenUrlReadBack | RoundTrip.ProtocolUrlRoundTrip |
