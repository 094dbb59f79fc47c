# ncbi-rs core in Dafny

A model of the core of `ncbi-rs`, a Rust client for the NCBI Entrez
E-utilities. The crate builds request URLs for the `efetch` and `esearch`
services. It reads the XML they return with a pull parser into Rust structures
derived from the NCBI ASN.1 schema (Bioseq-set, Entrezgene, eSearchResult and
the types they use). The model covers:

- **The XML readers.** Each `from_reader` loop works on a finished list of
  reader events: a `Reader` class with a cursor, its methods and their `while`
  loops. Every loop is proved equal to a recursive specification function
  (`...Loop`). The properties are lemmas about those functions: which
  closing tag ends a record, which tags are dispatched or panic, what every
  field holds afterwards, and that document order is kept.
- **The request builders.** These are the database-name table, the unescaped
  `build_search_url` and `build_fetch_url` concatenations, comma-joined id
  lists, the efetch return-type table, and the exact order of the query
  pairs that `EFetch::build_url` and `ESearch::build_url` append.
- **The schema types.** Every fieldless schema enum, with declared
  discriminants or implicit ones counted from 0, has an encoding and a decoding, with its values, round trip and
  injectivity proved. The documented constraints become validity predicates
  with lemmas about them. These cover date ranges, alignment array sizes,
  PSSM storage order, seq-table common-string, delta, scaled and
  most-significant-bit-first bit decoding, NCBI2na/NCBI4na codes, citation
  title items, seq-code table offsets and seq-graph value counts.

A reader outcome is `Parse<T>`, which is one of three:

- `Done(value, next)`: the reader returned, leaving the cursor at `next`.
- `Panic`: an `unwrap`, `expect` or `panic!` fired.
- `Hang`: a loop that never checks for end of file reached the end of the
  events, where the Rust code would spin forever.

| module | file | models |
|---|---|---|
| `Wrappers`, `Collections`, `Strings` | `wrappers.dfy`, `collections.dfy`, `strings.dfy` | Option/Result, lists collected into sets, joining with a separator |
| `Bytes` | `bytes.dfy` | bytes, `escape_ascii`, `trim`, `atoi` |
| `Xml` | `xml.dfy` | the event list, the `Reader` class, `Parse<T>` |
| `Standins` | `standins.dfy` | readers whose code is not part of this model |
| `Unexpected` | `unexpected.dfy` | `src/parsing/unexpected.rs` |
| `ParsingUtils` | `parsing_utils.dfy` | `src/parsing/utils.rs` and `src/parsing_utils.rs` |
| `Element` | `element.dfy` | `src/element.rs` |
| `SeqLoc`, `SeqSet` | `seqloc.dfy`, `seqset.dfy` | `src/asn/seqloc.rs`, `src/asn/seqset.rs` |
| `EntrezGene`, `EntrezGeneExamples` | `entrezgene.dfy`, `entrezgene_examples.dfy` | `src/asn/entrezgene.rs` and its tests |
| `EUtils`, `ParseXml` | `eutils.dfy`, `parse_xml.dfy` | `src/eutils/mod.rs`, `src/eutils.rs`, `src/helpers.rs` |
| `Fetch`, `Search`, `ESearchResults` | `efetch.dfy`, `esearch.dfy`, `esearchresult.dfy` | `src/eutils/efetch.rs`, `src/eutils/esearch.rs`, `src/eutils/esearchresult.rs` |
| `General`, `GeneralSets` | `general.dfy`, `general_sets.dfy` | `src/asn/general.rs`, `src/general.rs` |
| `Medline`, `MedlineSets` | `medline.dfy`, `medline_sets.dfy` | `src/asn/medline.rs`, `src/medline.rs` |
| `Seq`, `SeqAlign`, `SeqBlock`, `SeqFeat`, `SeqTable`, `Scoremat`, `SeqCode`, `Biblio` | one file each | the matching `src/asn/*.rs` |
| `SeqRes` | `seqres.dfy` | `src/seqres.rs` |

Some modelling choices and points where the code and its documentation
disagree:

- **Three copies of the E-utilities code.** `src/eutils/mod.rs`, `src/eutils.rs`
  and `src/helpers.rs` hold the same `EntrezDb::as_str` and URL builders, so
  they are modelled once in `EUtils`. `parse_xml` of `src/helpers.rs` is the
  same as that of `src/eutils/mod.rs`. The two-root `parse_xml` of
  `src/eutils.rs`, which reports string errors, is a member of its own.
- **Two copies of the leaf readers.** `src/parsing/utils.rs` and
  `src/parsing_utils.rs` hold the same leaf readers, modelled once in
  `ParsingUtils`. `check_unexpected` exists only in the second.
- **Sets and lists.** `src/general.rs` and `src/medline.rs` declare the
  collections of `src/asn/general.rs` and `src/asn/medline.rs` as sets. The
  enums of both files are the same, so they are modelled once in the `asn`
  module. The set-valued modules convert a list-valued record and prove what
  the conversion keeps.
- **The `\\n` filter.** `is_alphanum` rejects the three-character text
  `\\n`, not a newline. Its input is escaped text: the escaped document holds
  `\n` as two characters, and `bytes_to_string` escapes the backslash
  again. The model keeps the comparison as written
  (`ParsingUtils.NewlineTextIsKept`, `ParsingUtils.NewlineInIntListPanics`).
- **`scaling_factor`.** The comment says it defaults to 1, but
  `#[serde(default)]` gives 0. The model asserts neither.
- **Spellings kept as written.** Variant names keep the source's spelling,
  including the lower-case `RnaRefType` variants (`mRNA`, `tRNA`, …), the
  `SnRNA`-style `GeneCommentaryType` variants, `IntFuzz::P_M` and
  `SplicedExonChunk::ProductLine`. The `Int8` seq-table arm keeps its serde
  name `int3`. Field names are written in camel case (`first_starts`
  becomes `firstStarts`). Fields named by a Rust raw identifier or a Dafny
  reserved word are renamed: `r#type` becomes `kind` or a `...Type` name,
  `class` becomes `objectClass`, `r#abstract` becomes `abstractText`, and
  `Imprint`'s `r#pub` becomes `publisher`.
- **Which arms `Rows` decodes.** Real-valued and bit-vector arms have no
  integer rows: `SeqTable.Rows` gives None for `RealScaled`, `BitVector`
  and `BitSetBvector`.
- **seqcode lookups.** `src/asn/seqcode.rs` declares only the tables. Its
  module comment (lines 5-8) requires every table to start at code 0 and
  increase without gaps, padding with zero cells (65 of them before `A` in
  the IUPAC tables), so that lookup is a plain index. The model's lookups
  take `start_at` into account, reading row `x - start_at`.
  `SeqCode.FromZero` pads a table to start at 0, and
  `SeqCode.FromZeroLookup` proves that the padded table answers every
  lookup the same way with a plain index.

## Model

| member | source | states |
|---|---|---|
| Bytes.HexDigit | src/parsing/utils.rs:26-28 | the lower-case hexadecimal digit of a value below 16, read back by `HexValue` |
| Bytes.EscapeByte | src/parsing/utils.rs:26-28 | one byte as `escape_ascii` writes it: 1 to 4 printable characters, the byte itself exactly when it is plain printable ASCII, a backslash first otherwise |
| Bytes.EscapeAscii | src/parsing/utils.rs:26-28 | the escapes of the bytes in order; printable text at least as long as the bytes |
| Bytes.UnescapeEscapeByte | src/parsing/utils.rs:26-28 | reading back an escaped byte recovers it, whatever follows |
| Bytes.EscapeRoundTrip | src/parsing/utils.rs:26-28 | `bytes_to_string` loses nothing: unescaping its output gives the bytes back |
| Bytes.EscapeInjective | src/parsing/utils.rs:26-28 | two byte strings with the same escaped text are equal |
| Bytes.TrimStart | src/parsing/utils.rs:108 | `trim` on the left: a suffix of the text, only white space removed, no white space left in front |
| Bytes.TrimEnd | src/parsing/utils.rs:108 | `trim` on the right: a prefix of the text, only white space removed, no white space left at the end |
| Bytes.TrimSpec | src/parsing/utils.rs:108 | the trimmed text is one contiguous piece of the text with only white space around it |
| Bytes.TrimPrintable | src/parsing/utils.rs:108 | trimming printable text leaves printable ASCII text |
| Bytes.DigitPrefix | src/parsing/utils.rs:18-23 | the longest run of decimal digits at the front of the bytes, as atoi reads it |
| Bytes.Atoi | src/parsing/utils.rs:18-23 | `atoi` for a type with values lo..=hi: a result is in range; empty input and input not starting with a sign or digit give None |
| Bytes.DigitChar | src/eutils/efetch.rs:250-253 | a decimal digit character for a value below 10 |
| Bytes.NatToString | src/eutils/efetch.rs:250-253 | `to_string` of an unsigned number: at least one character, all decimal digits |
| Bytes.AsciiBytes | src/parsing/utils.rs:26-28 | the bytes of ASCII text, one per character, with the same values |
| Bytes.PlainTextRoundTrip | src/parsing/utils.rs:26-28 | plain printable text passes through bytes and `escape_ascii` unchanged |
| Bytes.DecimalValueOfString | src/parsing/utils.rs:18-23 | a rendered number is ASCII digits whose decimal value is the number |
| Bytes.DigitPrefixOfDigits | src/parsing/utils.rs:18-23 | atoi's digit run over all-digit bytes is the whole input |
| Bytes.AtoiOfNatToString | src/parsing/utils.rs:18-23 | atoi reads back any in-range number written in decimal |
| Bytes.ParseU64 | src/asn/entrezgene.rs:782 | `str::parse::<u64>`: a result is below 2^64 and comes from text starting with `+` or a digit |
| Bytes.DigitsValueOfNatToString | src/asn/entrezgene.rs:782 | the digits `to_string` writes are worth the number |
| Bytes.LeadingDigitPositive | src/asn/entrezgene.rs:782 | digits led by a non-zero digit are worth at least 1 |
| Bytes.NatToStringIsNumeral | src/asn/entrezgene.rs:782 | `to_string` writes a numeral (no leading zero) worth the number |
| Bytes.NumeralIsNatToString | src/asn/entrezgene.rs:782 | every numeral is what `to_string` writes for its value |
| Bytes.ParseU64OfNatToString | src/asn/entrezgene.rs:782 | a 64-bit number written in decimal parses back to itself |
| Collections.SetOf | src/general.rs:1-142 | the set of a list's members, no more and no fewer |
| Collections.CardSetOf | src/general.rs:1-142 | a set collected from a list is no larger than it, and as large exactly when the list has no repeats |
| Collections.NoDuplicatesCons | src/general.rs:1-142 | a list starting with `x` has no repeats exactly when its rest has none and does not hold `x` |
| Strings.Join | src/eutils/efetch.rs:114-127 | the parts in order with the separator between neighbours; one part is itself, none is empty |
| Strings.JoinSnoc | src/eutils/efetch.rs:114-127 | joining one more part appends the separator and that part |
| Strings.IndexOf | src/eutils/efetch.rs:148-161 | the first occurrence of a character, or the length when there is none |
| Strings.Split | src/eutils/efetch.rs:148-161 | `str::split`: at least one piece |
| Strings.SplitJoin | src/eutils/efetch.rs:148-161 | splitting joined pieces that hold no separator gives the pieces back |
| Strings.NoSeparator | src/eutils/efetch.rs:148-161 | text without the separator has no occurrence of it |
| Strings.IndexAfterPrefix | src/eutils/efetch.rs:148-161 | the first separator after a separator-free prefix is right after the prefix |
| Xml.Next | src/parsing/utils.rs:62-71 | `read_event` moves the cursor one event on and stays put at the end of the events |
| Xml.MapParse | src/element.rs:14-45 | transforming a parse result keeps its outcome and cursor and maps its value |
| Xml.Reader.constructor | src/parsing/utils.rs:62-71 | a reader over the events, at the first one |
| Xml.Reader.ReadEvent | src/parsing/utils.rs:62-71 | `read_event`: the event at the cursor (Eof past the end), and the cursor advanced by `Next` |
| Xml.Reader.Seek | src/parsing/utils.rs:91-93 | the cursor is left where a nested reader finished |
| Xml.Reader.Valid | src/parsing/utils.rs:62-71 | the cursor never passes the end of the events |
| Unexpected.Check | src/parsing/unexpected.rs:17-28 | one warning per stored tag equal to the current name; returns exactly when there is one, panics otherwise |
| ParsingUtils.CheckUnexpected | src/parsing_utils.rs:145-156 | one warning per entry equal to the current name; returns exactly when there is one, panics otherwise, always with an empty list |
| Element.CollectLoop | src/element.rs:14-45 | the collector's loop: it only moves forward and only ever appends to the items already collected |
| Element.VecFromReader | src/element.rs:14-45 | `vec_from_reader` gives exactly the collector loop's result from the reader's cursor, with the closing tag defaulting to the element's own, and leaves the reader where the loop stopped |
| Element.CountStarts | src/element.rs:14-45 | the number of item start tags in a range of events, at most its length |
| Element.CountStartsMonotone | src/element.rs:14-45 | a later range holds no more item start tags than an earlier one to the same end |
| Element.CollectBound | src/element.rs:14-45 | at most one new item per item start tag read |
| Element.CollectReachesEnd | src/element.rs:14-45 | other events are skipped; with nothing else left the collector returns its items at the end of the events |
| ParsingUtils.BytesToInt | src/parsing/utils.rs:18-23 | `bytes_to_int` returns exactly when atoi reads a value in the target range, and then returns that value; it panics otherwise |
| ParsingUtils.BytesToIntOfDecimal | src/parsing/utils.rs:18-23 | an in-range number written in decimal converts back to itself |
| ParsingUtils.BytesToString | src/parsing/utils.rs:26-28 | `bytes_to_string` is byte-wise `escape_ascii`: printable text from which the bytes can be read back |
| ParsingUtils.NewlineTextIsKept | src/parsing/utils.rs:172-175 | a text of one newline byte escapes and trims to `\n`, which the filter does not drop |
| ParsingUtils.FirstValueIndex | src/parsing/utils.rs:47-59 | the position of the first attribute keyed `value`, None exactly when there is none |
| ParsingUtils.Utf8Width | src/parsing/utils.rs:53 | a character takes one to four bytes in UTF-8, and one exactly when it is ASCII |
| ParsingUtils.Utf8Len | src/parsing/utils.rs:53 | `len()` of a `String` counts bytes: at least one per character, and zero only for the empty string |
| ParsingUtils.InnerValue | src/parsing/utils.rs:47-59 | the value with two UTF-8 bytes cut from each end; it returns exactly when the value is at least four bytes long and bytes 2 and len-2 fall on character boundaries, and otherwise panics |
| ParsingUtils.AsciiInnerValue | src/parsing/utils.rs:53 | on an ASCII value the cut removes two characters from each end, and values shorter than four characters panic |
| ParsingUtils.WideCharAtTwoPanics | src/parsing/utils.rs:53 | a two-byte character straddling byte 2 makes `get` give None and the unwrap panic |
| ParsingUtils.BoundaryIndex | src/parsing/utils.rs:53 | a byte offset is a character boundary exactly when some prefix of the value takes that many bytes, and that prefix is returned |
| ParsingUtils.AttributeValue | src/parsing/utils.rs:47-59 | `attribute_value` scans the attributes and gives the first `value` attribute's inner text, as `AttributeValueOf` defines it |
| ParsingUtils.ReadBoolAttribute | src/parsing/utils.rs:35-45 | Some(true) exactly for the value text `true`, Some(false) exactly for `false`, None otherwise, and a panic exactly when reading the value panics |
| ParsingUtils.ReadIntSpec | src/parsing/utils.rs:62-71 | `read_int` reads exactly one event; Some exactly for a text event that atoi converts, within the type's range |
| ParsingUtils.ReadStringSpec | src/parsing/utils.rs:73-88 | `read_string`/`read_real` read exactly one event; Some exactly for a text event, a panic exactly for a reader error |
| ParsingUtils.ReadInt | src/parsing/utils.rs:62-71 | the reader method returns `ReadIntSpec` of its cursor and leaves the cursor after the event |
| ParsingUtils.ReadReal | src/parsing/utils.rs:73-79 | the reader method returns `ReadStringSpec` of its cursor and leaves the cursor after the event |
| ParsingUtils.ReadString | src/parsing/utils.rs:82-88 | the reader method returns `ReadStringSpec` of its cursor and leaves the cursor after the event |
| ParsingUtils.CleanText | src/parsing/utils.rs:108 | the escaped and trimmed text of a text event is printable ASCII |
| ParsingUtils.KeptTexts | src/parsing/utils.rs:103-123 | reference definition of the kept texts: no more than the events, all ASCII |
| ParsingUtils.FirstStop | src/parsing/utils.rs:103-123 | the first closing tag named `end` or reader error, with none of either before it |
| ParsingUtils.VecStrLoop | src/parsing/utils.rs:103-123 | the list loop only moves forward and only appends to the texts already kept |
| ParsingUtils.KeptTextsCons | src/parsing/utils.rs:103-123 | the kept texts of a stretch are those of its first event followed by those of the rest |
| ParsingUtils.VecStrSkip | src/parsing/utils.rs:103-123 | an event that neither closes the list nor fails is passed over, keeping its text if it has one |
| ParsingUtils.VecStrRefSkip | src/parsing/utils.rs:103-123 | the reference definition passes over such an event in the same way |
| ParsingUtils.VecStrLoopSpec | src/parsing/utils.rs:103-123 | the loop agrees with its reference definition from any cursor and any kept prefix |
| ParsingUtils.VecStrResult | src/parsing/utils.rs:103-123 | `read_vec_str_unchecked` returns the kept texts before the first End named `end`, in order; other End tags do not stop it, an error panics, no End never returns |
| ParsingUtils.ReadVecStrUnchecked | src/parsing/utils.rs:103-123 | the reader method returns the loop's result from its cursor and leaves the cursor where the loop stopped |
| ParsingUtils.ParseAll | src/parsing/utils.rs:133-155 | converting every text returns exactly when all convert, one integer per text in order |
| ParsingUtils.VecIntLoop | src/parsing/utils.rs:133-155 | the integer list loop only moves forward |
| ParsingUtils.VecIntLoopInRange | src/parsing/utils.rs:133-155 | every integer the list loop returns lies in the range of the target type, because each comes from `bytes_to_int` for that type |
| ParsingUtils.ParseAllSnoc | src/parsing/utils.rs:133-155 | converting one more text adds its conversion at the end, or panics when it fails |
| ParsingUtils.ParseAllPrefixPanics | src/parsing/utils.rs:133-155 | once a prefix fails to convert, every extension fails too |
| ParsingUtils.VecIntSkip | src/parsing/utils.rs:133-155 | a non-stopping event is passed over, its kept text converted |
| ParsingUtils.BadTextTracks | src/parsing/utils.rs:133-155 | a failed conversion makes the integer reader panic whatever the string reader does next |
| ParsingUtils.VecIntTracksVecStr | src/parsing/utils.rs:133-155 | the integer reader converts exactly the texts the string reader keeps, from any point of their loops |
| ParsingUtils.VecIntMatchesVecStr | src/parsing/utils.rs:133-155 | `read_vec_int_unchecked` yields one integer per text `read_vec_str_unchecked` keeps, in order, or panics on the first that does not convert |
| ParsingUtils.ReadVecIntUnchecked | src/parsing/utils.rs:133-155 | the reader method returns the loop's result from its cursor and leaves the cursor where the loop stopped |
| ParsingUtils.NewlineInIntListPanics | src/parsing/utils.rs:172-175 | an integer list holding a bare newline text panics instead of returning |
| Standins.OpaqueLoop | src/parsing/utils.rs:91-93 | the stand-in element reader only moves forward and always stops at the end of the events |
| Standins.ReadOpaqueSpec | src/parsing/utils.rs:91-93 | the stand-in reader for a named element only moves forward and never loops for ever |
| Standins.OpaqueLoopBody | src/parsing/utils.rs:91-93 | the stand-in returns an element exactly when it finds its closing tag, holding every event in between in order |
| Standins.ReadOpaque | src/parsing/utils.rs:91-93 | the reader method returns `ReadOpaqueSpec` of its cursor and leaves the cursor where it stopped |
| ParseXml.FirstSetLoop | src/eutils/mod.rs:124-139 | the root scan only moves forward; a set is returned right after its closing `Bioseq-set` tag, nothing only at the end of the events or at Eof |
| ParseXml.FirstSetScan | src/eutils/mod.rs:124-139 | events the scan passes over do not change its result |
| ParseXml.FirstSetDecides | src/eutils/mod.rs:124-139 | the first `Bioseq-set` start decides: the result is the set read after it, default in every field but its entries |
| ParseXml.NoSetFindsNothing | src/eutils/mod.rs:124-139 | without a `Bioseq-set` start or a reader error the scan finds nothing |
| ParseXml.FirstSetFromReader | src/eutils/mod.rs:124-139 | the reader method returns the scan's result from its cursor |
| ParseXml.UnitResult | src/eutils/mod.rs:124-139 | `Err(())` exactly when no root was found, the set otherwise, at the same cursor |
| ParseXml.ParseXmlUnit | src/helpers.rs:106-121 | `parse_xml` of the one-root versions is the root scan from the first event, with a missing root as `Err(())` |
| ParseXml.RootLoop | src/eutils.rs:112-151 | the two-root scan only moves forward and a set or gene set is returned right after its closing tag |
| ParseXml.RootErrors | src/eutils.rs:112-151 | each `Err` message names what went wrong: a set or gene set that did not parse, or no root tag |
| ParseXml.RootLoopAgrees | src/eutils.rs:112-151 | over the same event list with no error and no `Entrezgene-Set`, the two-root and one-root versions give the same set, or both report no root |
| ParseXml.RootFromReader | src/eutils.rs:112-151 | the reader method returns the two-root scan's result from its cursor |
| ParseXml.ParseXmlMessages | src/eutils.rs:112-151 | `parse_xml` of `src/eutils.rs` is the two-root scan from the first event |
| SeqLoc.LocIds | src/asn/seqloc.rs:216-234 | the sequence ids a location mentions: none for `Null` and `Feat`, the one id of an interval, point or packed points |
| SeqLoc.IntervalIds | src/asn/seqloc.rs:238-245 | one id per interval, in order |
| SeqLoc.LocationsNameSequences | src/asn/seqloc.rs:216-234 | a location names no sequence exactly when it is `Null`, `Feat`, or a compound of such |
| SeqLoc.SetChild | src/asn/seqloc.rs:128-179 | a child's text sets name, accession or release to the escaped text, version to atoi's `u64`, and an unknown child changes nothing |
| SeqLoc.TextseqIdLoop | src/asn/seqloc.rs:128-179 | `TextseqId::from_reader` only moves forward and returns Some right after its closing tag |
| SeqLoc.TextseqIdFromReader | src/asn/seqloc.rs:128-179 | the reader method returns the loop's result from its cursor, starting from an empty id |
| SeqLoc.ChildEvents | src/asn/seqloc.rs:128-179 | three events per text-only child element |
| SeqLoc.TextseqIdOfChildren | src/asn/seqloc.rs:128-179 | over text-only children the reader sets the fields child by child: absent stay None, a repeated child keeps its last text |
| SeqLoc.SeqIdLoop | src/asn/seqloc.rs:77-101 | `SeqId::from_reader` only moves forward and can only return `Other`, `General` or `Gi` |
| SeqLoc.SeqIdFromReader | src/asn/seqloc.rs:77-101 | the reader method returns the loop's result from its cursor |
| SeqLoc.SeqIdScan | src/asn/seqloc.rs:77-101 | events the loop passes over do not change its result |
| SeqLoc.SeqIdWithoutChild | src/asn/seqloc.rs:77-101 | with no recognised child, not even a closing tag stops it: the reader never returns |
| SeqLoc.SeqIdFirstChild | src/asn/seqloc.rs:77-101 | the first recognised child decides the arm: `Gi` of the text atoi reads, `Other` of the text id read after it, `General` of the tag read after it |
| SeqSet.SetDepth | src/asn/seqset.rs:96-111 | each entry of a set nests strictly deeper than the set |
| SeqSet.EntryDepth | src/asn/seqset.rs:142-145 | an entry holding a set has positive depth |
| SeqSet.MaxDepth | src/asn/seqset.rs:96-111 | no entry of a list is deeper than the list's depth |
| SeqSet.SeqEntryLoop | src/asn/seqset.rs:151-177 | `SeqEntry::from_reader` only moves forward; None only right after the closing `Seq-entry` tag |
| SeqSet.BioSeqSetLoop | src/asn/seqset.rs:118-139 | `BioSeqSet::from_reader` only moves forward and returns right after its closing `Bioseq-set` tag |
| SeqSet.SeqEntryVecLoop | src/asn/seqset.rs:118-139 | the entry collector only moves forward and only appends entries |
| SeqSet.EntryItem | src/asn/seqset.rs:151-177 | the entry reader meets the collector's item-reader conditions |
| SeqSet.SeqEntryVecIsCollector | src/asn/seqset.rs:118-139 | the entries of `seq_set` are what the generic collector of `src/element.rs` reads with the entry reader |
| SeqSet.BioSeqSetOnlyFillsSeqSet | src/asn/seqset.rs:118-139 | a set read from its start has every field at its default except `seq_set` |
| SeqSet.SeqEntryScan | src/asn/seqset.rs:151-177 | events the loop passes over do not change its result |
| SeqSet.SeqEntryFirstDecides | src/asn/seqset.rs:151-177 | the first child or closing tag decides: None at the closing tag, `Seq` of the bioseq read after `Seq-entry_seq`, `Set` of the set read after `Seq-entry_set` |
| SeqSet.SeqEntryFromReader | src/asn/seqset.rs:151-177 | the reader method returns the loop's result from its cursor |
| SeqSet.BioSeqSetFromReader | src/asn/seqset.rs:118-139 | the reader method returns the loop's result from its cursor, starting from the default set |
| SeqSet.SeqEntryVecFromReader | src/asn/seqset.rs:118-139 | the reader method returns the collector's result from its cursor |
| EUtils.DbName | src/eutils/mod.rs:54-85 | each database's E-utilities name is a word of 3 to 15 characters |
| EUtils.DbOfName | src/eutils/mod.rs:54-85 | a name read back as a database is that database's name; other names give None |
| EUtils.PDbOfName | src/eutils/mod.rs:54-85 | the names starting with `p` read back only as the database whose name they are |
| EUtils.DbNameRoundTrip | src/eutils/mod.rs:54-85 | every database's name reads back as that database |
| EUtils.DbNameIsWord | src/eutils/mod.rs:54-85 | no database name holds `&` or `=`, so it cannot disturb a query string |
| EUtils.DbNameInjective | src/eutils/mod.rs:54-85 | no two databases share a name |
| EUtils.PairText | src/eutils/mod.rs:88-97 | a pair is written as its key, one `=`, then its value |
| EUtils.PairTexts | src/eutils/mod.rs:88-97 | each pair of a query is written in order |
| EUtils.Lookup | src/eutils/efetch.rs:233-258 | the first value under a key, present exactly when some pair has that key |
| EUtils.LookupAfter | src/eutils/efetch.rs:233-258 | pairs without the key that come first do not change what a lookup finds |
| EUtils.LookupCons | src/eutils/efetch.rs:233-258 | a lookup checks the first pair, then the rest |
| EUtils.SplitPair | src/eutils/mod.rs:88-97 | reading a pair back, its key never holds `=` |
| EUtils.SplitPairs | src/eutils/mod.rs:88-97 | each part of a query is read back as a pair, in order |
| EUtils.ParseQuery | src/eutils/mod.rs:88-97 | a query string reads back as at least one pair |
| EUtils.SplitPairText | src/eutils/mod.rs:88-97 | a pair whose key holds no `=` reads back from its text |
| EUtils.QueryRoundTrip | src/eutils/mod.rs:88-97 | pairs with keys free of `=` and `&` and values free of `&` read back from the query string unchanged |
| EUtils.QuerySnoc | src/eutils/mod.rs:88-97 | each further pair is written after one `&` |
| EUtils.QueryOfOne | src/eutils/mod.rs:88-97 | a query of one pair is that pair's text |
| EUtils.FetchPairs | src/eutils/mod.rs:88-97 | the fetch address carries four pairs |
| EUtils.SearchPairs | src/eutils.rs:78-88 | the search address carries four pairs |
| EUtils.QueryOfFour | src/eutils/mod.rs:88-97 | a query of four pairs is built one `&` and one pair at a time |
| EUtils.Query | src/eutils/mod.rs:88-97 | the pairs written as `key=value`, separated by `&`, with no escaping |
| EUtils.SameQuerySnoc | src/eutils/mod.rs:88-97 | two lists of pairs that write the same query still do after the same pair is added |
| EUtils.BuildFetchUrl | src/eutils/mod.rs:88-97 | `build_fetch_url` is the base, `efetch.fcgi?` and db, id, rettype and retmode in that order, unescaped; it starts with the base address |
| EUtils.BuildSearchUrl | src/eutils.rs:78-88 | `build_search_url` is the base, `esearch.fcgi?` and db, term, rettype=xml and retmode=xml in that order; it starts with the base address |
| EUtils.FetchUrlReadsBack | src/eutils/mod.rs:88-97 | an id, type and mode free of `&` read back out of the fetch address in order |
| EUtils.SearchUrlReadsBack | src/eutils.rs:78-88 | a term free of `&` reads back out of the search address |
| EUtils.FetchIdIsNotEscaped | src/eutils/mod.rs:88-97 | nothing is escaped: an id `a&k=v` reads back as the id `a` and an extra pair `k=v` |
| EUtils.FetchIdSplitsQuery | src/eutils/mod.rs:88-97 | the query of a fetch whose id holds `&k=v` is the query of the same fetch with the id cut at `&` and the pair `k=v` after it |
| Fetch.CheckReturnTypeMode | src/eutils/efetch.rs:26-35 | returns exactly for the four sequence and two gene databases, mode always `xml`, type `native` exactly for the sequence databases and empty exactly for the gene databases; any other database is `unimplemented!` |
| Fetch.New | src/eutils/efetch.rs:221-231 | a new fetch exists exactly when the return settings do; no id, retstart or retmax; type and mode those of the database |
| Fetch.Id | src/eutils/efetch.rs:95-98 | sets the id and keeps every other setting |
| Fetch.Start | src/eutils/efetch.rs:176-179 | sets retstart and keeps every other setting |
| Fetch.Max | src/eutils/efetch.rs:195-198 | sets retmax and keeps every other setting |
| Fetch.Ids | src/eutils/efetch.rs:114-127 | the identifiers joined with `,` in order become the id; identifiers without a comma split back out of it |
| Fetch.IdTexts | src/eutils/efetch.rs:148-161 | each identifier is written as its decimal numeral, which holds no comma |
| Fetch.IdsFromResult | src/eutils/efetch.rs:148-161 | the result's identifiers in decimal joined with `,` become the id, and splitting it gives them back |
| Fetch.FetchQueryPairs | src/eutils/efetch.rs:233-258 | a fetch query has at least the five fixed pairs |
| Fetch.BuildUrl | src/eutils/efetch.rs:233-258 | panics exactly without an id; otherwise the query pairs in order |
| Fetch.OptionalPairsReadBack | src/eutils/efetch.rs:243-254 | idtype=acc reads back exactly for a sequence database, retstart and retmax exactly when set, with their decimal values |
| Fetch.IdTypeReadBack | src/eutils/efetch.rs:244-246 | idtype reads back as acc for a sequence database and is absent otherwise |
| Fetch.RetStartReadBack | src/eutils/efetch.rs:249-251 | retstart reads back as the decimal start when set and is absent otherwise |
| Fetch.RetMaxReadBack | src/eutils/efetch.rs:252-254 | retmax reads back as the decimal maximum when set and is absent otherwise |
| Fetch.FrontReadsBack | src/eutils/efetch.rs:237-242 | db, id, sort=relevance, retmode and rettype read back whatever follows them |
| Fetch.FetchQueryReadsBack | src/eutils/efetch.rs:233-258 | a reader of the query finds the database, the id, the return settings, idtype=acc exactly for the sequence databases, and retstart and retmax exactly when they are set |
| Fetch.FetchData | src/eutils/efetch.rs:200-217 | without an id, building the address panics; otherwise the first `Bioseq-set` of the response, or None |
| Fetch.ReturnTypeModeTable | src/eutils/efetch.rs:266-276 | the return type and mode of each of the six supported databases |
| Fetch.NucleotideFetch | src/eutils/efetch.rs:278-295 | a nucleotide fetch with an id asks for `idtype=acc` and carries the id; a fresh one has no id, so building it panics |
| Search.New | src/eutils/esearch.rs:191-199 | a new search has only the database set |
| Search.Term | src/eutils/esearch.rs:98-101 | sets the term and keeps every other setting |
| Search.Start | src/eutils/esearch.rs:117-120 | sets retstart and keeps every other setting |
| Search.Max | src/eutils/esearch.rs:135-138 | sets retmax and keeps every other setting |
| Search.Field | src/eutils/esearch.rs:164-167 | sets the field and keeps every other setting |
| Search.OptionalPairs | src/eutils/esearch.rs:211-220 | at most three optional pairs |
| Search.SearchQueryPairs | src/eutils/esearch.rs:201-224 | five fixed pairs first, db, term, rettype=xml, retmode=xml, sort=relevance, and at most three more |
| Search.BuildUrl | src/eutils/esearch.rs:201-224 | panics exactly without a term; otherwise the query pairs in order |
| Search.OptionalPairsReadBack | src/eutils/esearch.rs:211-220 | retstart, retmax and field read back exactly when set, with their values |
| Search.RetStartReadBack | src/eutils/esearch.rs:213-215 | retstart reads back as the decimal start when set and is absent otherwise |
| Search.RetMaxReadBack | src/eutils/esearch.rs:216-218 | retmax reads back as the decimal maximum when set and is absent otherwise |
| Search.FieldReadBack | src/eutils/esearch.rs:219-221 | field reads back as the search field exactly as set |
| Search.FrontReadsBack | src/eutils/esearch.rs:205-210 | the five fixed pairs read back whatever follows them |
| Search.SearchQueryReadsBack | src/eutils/esearch.rs:201-224 | a reader of the query finds the database, the term, XML type and mode, relevance order, and each refinement exactly when set |
| Search.SearchData | src/eutils/esearch.rs:183-187 | without a term, building the address panics; otherwise the result read from the start of the response |
| Search.Hundreds | src/eutils/esearch.rs:254-293 | the decimal texts the tests expect for 100 and 1000 |
| Search.BuilderTests | src/eutils/esearch.rs:235-335 | the pairs of each built genome search for "deaminase" in the five builder tests |
| ESearchResults.MemberOf | src/eutils/esearchresult.rs:36-56 | a Start tag names a member exactly when its name is that member's tag |
| ESearchResults.ReadU64Member | src/eutils/esearchresult.rs:44-50 | a number member never hangs; a text that is not a `u64` numeral panics |
| ESearchResults.MemberFromEvents | src/eutils/esearchresult.rs:41-53 | reading a member moves forward and changes no other member |
| ESearchResults.ESearchResultLoop | src/eutils/esearchresult.rs:38-65 | the reader only moves forward and returns right after `</eSearchResult>` |
| ESearchResults.UntouchedMemberKept | src/eutils/esearchresult.rs:38-65 | a member whose tag never opens before the reader returns keeps its value |
| ESearchResults.NoStartInSuffix | src/eutils/esearchresult.rs:38-65 | a member tag absent from a stretch of events is absent from every suffix of it |
| ESearchResults.NoMembersGiveDefault | src/eutils/esearchresult.rs:28-65 | a document without the four member tags reads as the default record |
| ESearchResults.ESearchResultFromReader | src/eutils/esearchresult.rs:28-65 | the reader method returns the loop's result from its cursor, starting from the default record |
| ESearchResults.NumeralClean | src/parsing/utils.rs:82-88 | trimming and unescaping leave a numeral unchanged |
| ESearchResults.DigitsClean | src/parsing/utils.rs:82-88 | a string of digits is unchanged by trimming and unescaping |
| ESearchResults.NumeralText | src/parsing/utils.rs:133-155 | a numeral of a `u64` is kept by the list reader and reads back as its value |
| ESearchResults.NumberMemberStep | src/eutils/esearchresult.rs:44-50 | a number member followed by its numeral stores that number |
| ESearchResults.SkipStep | src/eutils/esearchresult.rs:38-65 | an event that opens no member and does not close the record is stepped over |
| ESearchResults.IdItemStep | src/parsing/utils.rs:133-155 | `<Id>v</Id>` inside the identifier list appends `v` |
| ESearchResults.IdListEnd | src/parsing/utils.rs:133-155 | `</IdList>` ends the list with what was read |
| ESearchResults.TwoIds | src/parsing/utils.rs:133-155 | a list of two numerals reads as those two identifiers |
| ESearchResults.ThreeNumbers | src/eutils/esearchresult.rs:44-50 | Count, RetMax and RetStart in order each store their value |
| ESearchResults.IdListMember | src/eutils/esearchresult.rs:51-52 | an IdList member replaces the identifier list with the identifiers read |
| ESearchResults.IdListStep | src/eutils/esearchresult.rs:51-52 | an IdList member whose identifiers read as `l` replaces the identifier list with `l` and leaves the other members |
| ESearchResults.SampleDocument | src/eutils/esearchresult.rs:72-86 | a result document of that shape reads as the count, paging values and identifiers in document order |
| ESearchResults.SampleEvents | src/eutils/esearchresult.rs:72-86 | the test document has nineteen events |
| ESearchResults.SampleShapeHead | src/eutils/esearchresult.rs:72-86 | the test document opens the record and the count |
| ESearchResults.SampleShapePaging | src/eutils/esearchresult.rs:72-86 | the test document holds RetMax and RetStart in that order |
| ESearchResults.SampleShapeIds | src/eutils/esearchresult.rs:72-86 | the test document's identifier list holds two identifiers |
| ESearchResults.SampleShapeTail | src/eutils/esearchresult.rs:72-86 | the test document ends by closing the record |
| ESearchResults.TestFile | src/eutils/esearchresult.rs:72-86 | the test file reads as count 2, ret_max 2, ret_start 0 and identifiers 11294 and 1387 |
| EntrezGene.GeneTrackStatusOf | src/asn/entrezgene.rs:328-338 | Live exactly for "0" or "live", Secondary exactly for "1" or "secondary", Discontinued for every other text |
| EntrezGene.ReadGeneTrackStatus | src/asn/entrezgene.rs:328-338 | never hangs, moves forward, and gives None exactly when the next event is not a text |
| EntrezGene.GeneTrackStatusOfOfCode | src/asn/entrezgene.rs:328-338 | the decimal numeral of a status's discriminant reads back as that status |
| EntrezGene.EntrezgeneTypeOf | src/asn/entrezgene.rs:340-358 | each type exactly for its numeral or its name; Unknown for "0", "unknown" and every unlisted text |
| EntrezGene.EntrezgeneTypeOfOfCode | src/asn/entrezgene.rs:340-358 | the decimal numeral of a type's discriminant reads back as that type |
| EntrezGene.GeneCommentaryTypeByCode | src/asn/entrezgene.rs:599-638 | the numeric spellings the reader knows are numerals |
| EntrezGene.GeneCommentaryTypeByCodeSpelling | src/asn/entrezgene.rs:599-638 | a text is a known numeric spelling exactly when it is the numeral of a discriminant |
| EntrezGene.GeneCommentaryTypeNameAToM | src/asn/entrezgene.rs:599-638 | the names from `a` to `m` read as the type they name |
| EntrezGene.GeneCommentaryTypeNameNToZ | src/asn/entrezgene.rs:599-638 | the names from `n` on read as the type they name |
| EntrezGene.GeneCommentaryTypeOf | src/asn/entrezgene.rs:599-638 | a text reads as a type other than Other only when it is that type's numeral or case-sensitive name |
| EntrezGene.GeneCommentaryTypeOfSpelling | src/asn/entrezgene.rs:599-638 | a text reads as a type other than Other exactly when it is that type's numeral or name |
| EntrezGene.GeneCommentaryTypeOfOfCode | src/asn/entrezgene.rs:599-638 | the decimal numeral of a commentary type's discriminant reads back as that type |
| EntrezGene.LowercaseGenomicIsOther | src/asn/entrezgene.rs:599-602 | `genomic`, the serialised name, reads as Other; only `Genomic` reads as Genomic |
| EntrezGene.MapsItem | src/asn/entrezgene.rs:494-502 | the placeholder `Maps` reader meets the list collector's item conditions |
| EntrezGene.XtraItem | src/asn/entrezgene.rs:441-449 | the placeholder `Xtra-terms` reader meets the list collector's item conditions |
| EntrezGene.StringItem | src/asn/entrezgene.rs:506-514 | the `String` reader, `read_string`, meets the list collector's item conditions |
| EntrezGene.OpaqueItem | src/asn/entrezgene.rs:365-437 | a reader that keeps an element's events meets the list collector's item conditions |
| EntrezGene.CommentaryItem | src/asn/entrezgene.rs:518-582 | the commentary reader meets the list collector's item conditions |
| EntrezGene.OtherSourceItem | src/asn/entrezgene.rs:809-833 | the `OtherSource` reader meets the list collector's item conditions |
| EntrezGene.ReadU64Text | src/asn/entrezgene.rs:782 | a `u64` read from a text succeeds exactly when the next event is a text that parses as a `u64`, and gives that value |
| EntrezGene.Unwrap | src/asn/entrezgene.rs:784 | an unwrapped `Option` succeeds exactly on Some, with its value; None panics |
| EntrezGene.GeneTrackChild | src/asn/entrezgene.rs:781-789 | reading one child of a track moves forward |
| EntrezGene.GeneTrackLoop | src/asn/entrezgene.rs:776-800 | `GeneTrack::from_reader` moves forward; Some only right after `</Gene-track>`, None only at Eof |
| EntrezGene.GeneSourceChild | src/asn/entrezgene.rs:463-468 | a `Gene-source` child never hangs and moves forward |
| EntrezGene.GeneSourceLoop | src/asn/entrezgene.rs:458-480 | `GeneSource::from_reader` never hangs; Some only right after `</Gene-source>`, None only at Eof; the three display flags stay false |
| EntrezGene.OtherSourceChild | src/asn/entrezgene.rs:815-822 | a child other than src, pre-text, anchor, url and post-text panics |
| EntrezGene.OtherSourceLoop | src/asn/entrezgene.rs:809-832 | `OtherSource::from_reader` returns Some only right after `</OtherSource>`; it never returns None |
| EntrezGene.CommentaryTagOf | src/asn/entrezgene.rs:549-570 | a tag is recognised only by its prefixed name or its bare name |
| EntrezGene.CommentaryTagNames | src/asn/entrezgene.rs:549-570 | every commentary member is reached by its prefixed name, and by its bare name when it has one |
| EntrezGene.CommentaryPrefixOnly | src/asn/entrezgene.rs:565-568 | `products`, `comment`, `create-date` and `update-date` are not recognised bare |
| EntrezGene.CommentaryChild | src/asn/entrezgene.rs:549-570 | an undispatched tag passes only when it is `unknown-tag` and panics otherwise; `refs` and `rna` are never filled |
| EntrezGene.GeneCommentaryLoop | src/asn/entrezgene.rs:523-582 | `GeneCommentary::from_reader` moves forward; Some only right after `</Gene-commentary>`, None only at Eof; `refs` and `rna` keep their start values |
| EntrezGene.CommentaryVecLoop | src/element.rs:14-45 | the commentary list collector moves forward and only appends |
| EntrezGene.CommentaryVecIsCollector | src/element.rs:14-45 | the commentary list collector is the generic collector of `src/element.rs` with the commentary reader |
| EntrezGene.RefsFillComment | src/asn/entrezgene.rs:561 | a `refs` child fills `comment` with the commentaries read and leaves `refs` unset, in either spelling |
| EntrezGene.GeneTagOf | src/asn/entrezgene.rs:400-423 | a tag names a member only by its bare name or, except `rna`, its prefixed name |
| EntrezGene.GeneTagNames | src/asn/entrezgene.rs:400-423 | every member is reached by its bare name and, except `rna`, by its prefixed name |
| EntrezGene.UndispatchedGeneTags | src/asn/entrezgene.rs:400-423 | `refgene` and `homology` are not dispatched in either spelling |
| EntrezGene.OnlyChangesAgree | src/asn/entrezgene.rs:400-423 | a record that changes one member agrees with the original on every other member |
| EntrezGene.GeneMember | src/asn/entrezgene.rs:401-421 | reading a member moves forward and changes no other member |
| EntrezGene.GeneChild | src/asn/entrezgene.rs:400-423 | an undispatched tag passes only when it is `extra-field` or `other-field` and panics otherwise; a dispatched one changes only its member |
| EntrezGene.EntrezgeneLoop | src/asn/entrezgene.rs:365-437 | `Entrezgene::from_reader` moves forward; Some only right after `</Entrezgene>`, None only at Eof; `refgene` and `homology` are never filled |
| EntrezGene.UntouchedMemberKept | src/asn/entrezgene.rs:365-437 | a member whose tag never opens before the reader returns keeps its starting value |
| EntrezGene.EntrezgeneSetLoop | src/asn/entrezgene.rs:710-754 | `Vec<Entrezgene>::from_reader` moves forward and only appends; Some only right after `</Entrezgene-Set>`, None only at Eof |
| EntrezGene.ReadU64 | src/asn/entrezgene.rs:782 | the reader method reads as `ReadU64Text` from its cursor |
| EntrezGene.GeneTrackStatusFromReader | src/asn/entrezgene.rs:328-338 | the reader method reads as `ReadGeneTrackStatus` from its cursor |
| EntrezGene.GeneTrackChildFromReader | src/asn/entrezgene.rs:781-789 | the reader method reads one track child as `GeneTrackChild` |
| EntrezGene.GeneTrackFromReader | src/asn/entrezgene.rs:776-800 | the reader method returns the loop's result from its cursor, starting from the default track |
| EntrezGene.GeneSourceFromReader | src/asn/entrezgene.rs:458-480 | the reader method returns the loop's result from its cursor, starting from the default source |
| EntrezGene.OtherSourceFromReader | src/asn/entrezgene.rs:809-832 | the reader method returns the loop's result from its cursor, starting from the default source |
| EntrezGene.GeneCommentaryFromReader | src/asn/entrezgene.rs:523-582 | the reader method returns the loop's result from its cursor, starting from type Other and nothing set |
| EntrezGene.CommentaryChildFromReader | src/asn/entrezgene.rs:549-570 | the reader method reads one commentary child as `CommentaryChild` |
| EntrezGene.CommentaryVecFromReader | src/element.rs:14-45 | the reader method returns the commentary collector's result from its cursor |
| EntrezGene.GeneMemberFromReader | src/asn/entrezgene.rs:401-421 | the reader method reads one member as `GeneMember` |
| EntrezGene.GeneChildFromReader | src/asn/entrezgene.rs:400-423 | the reader method dispatches one child as `GeneChild` |
| EntrezGene.EntrezgeneFromReader | src/asn/entrezgene.rs:365-437 | the reader method returns the loop's result from its cursor, starting from the record with type Unknown and nothing set |
| EntrezGene.EntrezgeneSetFromReader | src/asn/entrezgene.rs:710-754 | the reader method returns the set loop's result from its cursor, starting from the empty list |
| EntrezGeneExamples.ReadTxt | src/parsing/utils.rs:82-88 | the text event of a plain string reads back as that string |
| EntrezGeneExamples.NumeralIsPlain | src/parsing/utils.rs:82-88 | a decimal numeral is plain text |
| EntrezGeneExamples.MinimalEvents | src/asn/entrezgene.rs:844-889 | the events of the minimal test document for a given gene id |
| EntrezGeneExamples.LiveCode | src/asn/entrezgene.rs:332 | text "0" reads as Live |
| EntrezGeneExamples.ProteinCodingCode | src/asn/entrezgene.rs:349 | text "6" reads as ProteinCoding |
| EntrezGeneExamples.StatusThenEnd | src/asn/entrezgene.rs:776-800 | a track whose status holds "0" right before `</Gene-track>` ends Live |
| EntrezGeneExamples.GeneidMember | src/asn/entrezgene.rs:782 | a geneid member holding the numeral of `v` sets the gene id to `v` |
| EntrezGeneExamples.TrackOfGeneidAndStatus | src/asn/entrezgene.rs:776-800 | a track of geneid `v` and status "0" reads as id `v`, status Live |
| EntrezGeneExamples.TypeThenEnd | src/asn/entrezgene.rs:402-406 | a type member holding `s` right before `</Entrezgene>` sets the type read from `s` |
| EntrezGeneExamples.AfterTrack | src/asn/entrezgene.rs:365-437 | in the minimal document the track member is followed by the type member |
| EntrezGeneExamples.TrackFirst | src/asn/entrezgene.rs:401 | a record opening with a track member goes on with that track set |
| EntrezGeneExamples.MinimalLayout | src/asn/entrezgene.rs:844-889 | any document laid out as the minimal one reads as a protein-coding gene whose track has id `v` and status Live |
| EntrezGeneExamples.MinimalShape | src/asn/entrezgene.rs:844-889 | the minimal document has that layout |
| EntrezGeneExamples.CommentsEvents | src/asn/entrezgene.rs:891-942 | the events of the comments test document for a given text |
| EntrezGeneExamples.TypeThenText | src/asn/entrezgene.rs:549-570 | a commentary of a type member and a text member has that type and that text |
| EntrezGeneExamples.CodeThreeIsMRna | src/asn/entrezgene.rs:604 | the code 3 reads as mRNA |
| EntrezGeneExamples.OneCommentary | src/element.rs:14-45 | a list holding one commentary that reads as `c` reads as `[c]` |
| EntrezGeneExamples.OneCommentaryThenEnd | src/asn/entrezgene.rs:416 | a comments member holding one commentary `c` and then `</Entrezgene>` give the list `[c]` |
| EntrezGeneExamples.TypeFirst | src/asn/entrezgene.rs:402-406 | a type member holding `s` and then its End: the loop goes on with that type |
| EntrezGeneExamples.TypeThenOneCommentary | src/asn/entrezgene.rs:365-437 | a type member followed by a comments member with one commentary gives that type and that one commentary |
| EntrezGeneExamples.CommentaryRead | src/asn/entrezgene.rs:523-582 | a commentary laid out as type code "3" then a text reads as type mRNA holding that text, and the read ends after its closing tag |
| EntrezGeneExamples.CommentsShape | src/asn/entrezgene.rs:891-942 | the comments document has that shape |
| EntrezGeneExamples.PseudoCode | src/asn/entrezgene.rs:350 | text "7" reads as Pseudo |
| EntrezGeneExamples.MinimalDocument | src/asn/entrezgene.rs:844-889 | the minimal document reads as a protein-coding gene whose track has the document's gene id and status Live |
| EntrezGeneExamples.CommentsDocument | src/asn/entrezgene.rs:891-942 | the comments document reads as a pseudogene with exactly one commentary, of type mRNA, holding the document's text |
| EntrezGeneExamples.CommentsLayout | src/asn/entrezgene.rs:891-942 | events laid out as the comments document at any position read as the pseudogene with one mRNA commentary holding the text |
| General.DateStdRanges | src/asn/general.rs:18-33 | a date of a year alone is valid; a month of 0 or 13 or a day of 32 is invalid though each fits in a `u8` |
| General.UserFieldNeedsNum | src/asn/general.rs:159-167 | a field holding strings, integers or reals is invalid without `num` and valid with it |
| General.ValidDateStd | src/asn/general.rs:18-33 | month 1-12, day 1-31, hour 0-23, minute and second 0-59 when present |
| General.ValidDate | src/asn/general.rs:11-14 | a structured date is valid when its fields are; a free-text date always is |
| General.ValidUserField | src/asn/general.rs:159-167 | a field holding strings, integers or reals carries `num`, and its data is valid |
| General.ValidUserData | src/asn/general.rs:143-157 | nested fields and objects are valid |
| General.ValidUserObject | src/asn/general.rs:133-141 | every field of the object is valid |
| Biblio.SharedJournalBookTitle | src/asn/biblio.rs:365-411 | a title valid both for a journal and for a book holds only names and translated titles |
| Biblio.AnalyticTitleItems | src/asn/biblio.rs:365-411 | an item is valid for an analytic citation exactly when it is a name, subordinate or translated title; the journal-only and book-only items are exactly those listed for one kind |
| Biblio.ValidFor | src/asn/biblio.rs:365-411 | the documented A/J/B validity of each title item |
| Biblio.ValidTitle | src/asn/biblio.rs:365-411 | a title is valid for a citation when each of its items is |
| Biblio.ValidCitJour | src/asn/biblio.rs:111-116 | a journal citation's title holds only items valid for journals |
| Biblio.ValidCitBook | src/asn/biblio.rs:118-130 | a book citation's title and collection hold only items valid for books, and its imprint names the publisher and copyright date that the imprint requires for a book (biblio.rs:433-437) |
| Biblio.ValidCitArt | src/asn/biblio.rs:90-109 | an article's title is valid for analytic citations, and the journal, book or proceedings book it appears in is valid for its kind |
| Biblio.ValidCitArtTitles | src/asn/biblio.rs:365-411 | in a valid article, the article title has only name, subordinate and translated items, a journal has no book-only items and a book no journal-only items |
| Biblio.BookWithoutPublisher | src/asn/biblio.rs:433-434 | an article in a book whose imprint names no publisher is not valid |
| GeneralSets.IntFuzzOfList | src/general.rs:99-106 | the set-valued fuzz keeps its arm, and the set of alternatives holds exactly the listed ones |
| GeneralSets.AltIgnoresOrderAndRepeats | src/general.rs:105 | alternatives listed in another order or with repeats make the same set-valued fuzz |
| GeneralSets.AltSize | src/general.rs:105 | the set of alternatives is no larger than the list, and as large exactly when the list has no repeats |
| GeneralSets.UserFieldOfList | src/general.rs:135-142 | the set-valued field keeps its label and `num`, and needs `num` exactly when the list-valued field does |
| GeneralSets.UserDataOfList | src/general.rs:120-133 | every list arm becomes the set of its converted members; the scalar arms are unchanged |
| GeneralSets.UserObjectOfList | src/general.rs:111-118 | the set-valued object keeps class and type and holds exactly the converted fields |
| GeneralSets.UserFieldValidity | src/general.rs:135-142 | a list-valued field is valid exactly when its set-valued form is |
| GeneralSets.UserDataValidity | src/general.rs:120-133 | list-valued data is valid exactly when its set-valued form is |
| GeneralSets.UserObjectValidity | src/general.rs:111-118 | a list-valued object is valid exactly when its set-valued form is |
| GeneralSets.ValidUserField | src/general.rs:135-142 | a field holding strings, integers or reals carries `num`, and its data is valid |
| GeneralSets.ValidUserData | src/general.rs:120-133 | nested fields and objects are valid |
| GeneralSets.ValidUserObject | src/general.rs:111-118 | every field of the object is valid |
| MedlineSets.OptSetOf | src/medline.rs:23-53 | an optional list becomes an optional set holding exactly its members |
| MedlineSets.MeshOfList | src/medline.rs:55-65 | a MeSH term keeps its main-point flag and term, and its qualifiers become the set of the listed ones |
| MedlineSets.EntryOfList | src/medline.rs:23-53 | the set-valued entry keeps every scalar field and the article citation, and each collection keeps exactly the members of its list |
| MedlineSets.EntryCollectionSizes | src/medline.rs:23-53 | each set-valued collection is no larger than its list, and as large exactly when the list has no repeats |
| MedlineSets.RepeatedGeneCollapses | src/medline.rs:41 | two identical gene symbols become one |
| Seq.DefaultCodes | src/asn/seq.rs:470-478 | the `#[default]` variants of BioMol, MolTech and MolCompleteness have discriminant 0 and Topology's default has 1 |
| Seq.Ncbi2naCode | src/asn/seq.rs:676-677 | A, C, G and T are coded 00, 01, 10 and 11, each code belonging to exactly one base |
| Seq.Ncbi2naBase | src/asn/seq.rs:676-677 | each two-bit code decodes to the base it codes |
| Seq.Ncbi2naBaseOfCode | src/asn/seq.rs:676-677 | decoding a base's code gives the base back |
| Seq.PackQuad | src/asn/seq.rs:676-677 | four bases in one octet, the first in the two most significant bits (the NCBI2na packing of NCBI's seqcode definitions; the crate gives only the two-bit codes): each two-bit field reads back as its base's code |
| Seq.UnpackOctet | src/asn/seq.rs:676-677 | an octet holds four bases, first base in the two most significant bits as NCBI2na packs them, which pack back into that octet |
| Seq.UnpackPackQuad | src/asn/seq.rs:676-677 | unpacking a packed octet gives its four bases back |
| Seq.Pack2na | src/asn/seq.rs:590-591 | packing n bases takes ceil(n/4) octets |
| Seq.Unpack2na | src/asn/seq.rs:590-591 | each octet unpacks to four bases |
| Seq.Unpack2naPack2na | src/asn/seq.rs:590-591 | unpacking packed bases gives the bases back followed by at most three padding A's |
| Seq.Pack2naUnpack2na | src/asn/seq.rs:590-591 | packing unpacked octets gives the octets back |
| Seq.Ncbi4naBit | src/asn/seq.rs:679-682 | a single base is one of the bits 0001, 0010, 0100, 1000 |
| Seq.Ncbi4naCode | src/asn/seq.rs:679-682 | a set of bases is coded 0 to 15, with the A, C, G and T bits set exactly for the bases in the set |
| Seq.Ncbi4naBases | src/asn/seq.rs:679-682 | a code from 0 to 15 stands for the bases whose bits are set |
| Seq.Ncbi4naBasesOfCode | src/asn/seq.rs:679-682 | decoding the code of a set of bases gives the set back |
| Seq.Ncbi4naCodeOfBases | src/asn/seq.rs:679-682 | every code from 0 to 15 is the code of the set it decodes to |
| Seq.Ncbi4naAmbiguity | src/asn/seq.rs:679-682 | a single base is coded by its own bit; purine is 0101 and pyrimidine 1010 |
| Seq.Chunks | src/asn/seq.rs:688-704 | probability data of n residues of w octets is cut into n runs of w octets |
| Seq.ChunkAt | src/asn/seq.rs:688-704 | residue i occupies octets w*i up to w*i+w |
| Seq.FlattenChunks | src/asn/seq.rs:688-704 | the per-residue runs put back together are the data |
| Seq.ProbabilityResidues | src/asn/seq.rs:688-704 | only the two probability alphabets have a residue count, 5 octets per nucleotide and 25 per amino acid, exactly covering the data |
| Seq.Packed2naValid | src/asn/seq.rs:590-591 | packed NCBI2na data is always valid and unpacks to at most three residues more than were packed |
| Seq.ValidSeqData | src/asn/seq.rs:670-705 | IUPAC letters without spaces, whole runs of 5 octets for NCBIpna and 25 for NCBIpaa, and NCBIstdaa codes 0 to 25 |
| Seq.RawInst | src/asn/seq.rs:410-412 | a raw instance carries its sequence data and is consistent |
| Seq.VirtualInst | src/asn/seq.rs:408-409 | a virtual instance carries no sequence data and is consistent |
| Seq.SegInst | src/asn/seq.rs:413-421 | a segmented instance has no data, its extension is its ordered list of locations, and it is consistent |
| Seq.ReprMismatches | src/asn/seq.rs:408-421 | a raw instance without data, a virtual or segmented one with data, or a segmented one without a location list is inconsistent |
| SeqAlign.CellBound | src/asn/seqalign.rs:84-95 | cell (segment, row) of numseg segments of dim entries lies within the numseg*dim layout |
| SeqAlign.StartIndex | src/asn/seqalign.rs:91-93 | the start of each cell is stored within `starts`, in ids order within segments |
| SeqAlign.StartIndexInjective | src/asn/seqalign.rs:91-93 | no two cells share a stored start |
| SeqAlign.StartIndexOnto | src/asn/seqalign.rs:91-93 | every stored start belongs to the cell (k / dim, k % dim) |
| SeqAlign.Start | src/asn/seqalign.rs:74 | a start is an offset or -1 for a gap |
| SeqAlign.AlignedResidues | src/asn/seqalign.rs:74-95 | a row aligns at most the total segment length, and exactly that when it has no gap |
| SeqAlign.SegmentsLengthAppend | src/asn/seqalign.rs:94-95 | the total length of segments adds up over concatenation |
| SeqAlign.DiagAsSeg | src/asn/seqalign.rs:54-66 | a DenseDiag is a valid DenseSeg of one segment with the same ids, its length and its starts |
| SeqAlign.DocumentedDenseSegValid | src/asn/seqalign.rs:74-82 | the documented alignment, starts stored as signed values, is valid and its rows align 30, 23 and 22 residues, as its picture shows |
| SeqAlign.DocumentedStartsOutOfRange | src/asn/seqalign.rs:81-93 | with starts declared `u64`, the documented alignment's -1 gaps cannot be stored |
| SeqAlign.Segments | src/asn/seqalign.rs:309-324 | a sparse alignment has `numseg` segments, segment k made of the k-th first start, second start and length |
| SeqAlign.SparseAlignOf | src/asn/seqalign.rs:309-324 | segments laid out as parallel lists make a valid sparse alignment of that many segments |
| SeqAlign.SparseSegmentsRoundTrip | src/asn/seqalign.rs:309-324 | the segments and the parallel lists hold the same information, both ways round |
| SeqAlign.MaxProductEnd | src/asn/seqalign.rs:163-177 | the last aligned product position bounds every exon's end and is one of them |
| SeqAlign.MinProductStart | src/asn/seqalign.rs:163-177 | the first aligned product position bounds every exon's start and is one of them |
| SeqAlign.PolyABeyondAlignment | src/asn/seqalign.rs:163-177 | in a valid spliced alignment every aligned product position lies before the poly(A) start on a sense transcript and after it on an antisense one |
| SeqAlign.InferredTailAtEnd | src/asn/seqalign.rs:166-168 | a sense tail at exactly the product length, after the last exon, is consistent |
| SeqAlign.MaxProductEndBound | src/asn/seqalign.rs:165-166 | the tail starts after the last aligned position exactly when it starts after every exon's end |
| SeqAlign.SpanDifference | src/asn/seqalign.rs:258-284 | matches, mismatches and diagonals cover the same extent on both sides; each insertion widens one side by its length |
| SeqAlign.DiscValid | src/asn/seqalign.rs:24-31 | a discontinuous alignment is valid exactly when each of its alignments is |
| SeqAlign.ValidDenseDiag | src/asn/seqalign.rs:54-61 | `dim` sequences in order, with one start offset each |
| SeqAlign.ValidDenseSeg | src/asn/seqalign.rs:74-95 | `dim` sequences, `numseg` lengths, `numseg` times `dim` starts in ids order within segments, each an offset or -1 for a gap, and one score per segment when scores are given |
| SeqAlign.ValidPackedSeg | src/asn/seqalign.rs:100-125 | one sequence and one start per dimension for the whole alignment, presence flags as bytes, one length and, when scored, one score per segment |
| SeqAlign.ValidStdSeg | src/asn/seqalign.rs:127-140 | the sequences, when listed, number `dim` |
| SeqAlign.ValidSparseAlign | src/asn/seqalign.rs:313-323 | the starts on each sequence and the lengths each have `numseg` entries |
| SeqAlign.ValidProtPos | src/asn/seqalign.rs:247-255 | the frame is 0 (not set) or 1 to 3 |
| SeqAlign.ValidProductPos | src/asn/seqalign.rs:241-255 | a protein position has a valid frame |
| SeqAlign.ValidSplicedExon | src/asn/seqalign.rs:204-211 | `product_end >= product_start` and `genomic_end >= genomic_start` |
| SeqAlign.ValidSplicedSeg | src/asn/seqalign.rs:163-172 | every exon is valid and the poly(A) start lies beyond the aligned product positions on the documented side |
| SeqAlign.ValidSegs | src/asn/seqalign.rs:24-31 | each segment layout meets its own constraints, a discontinuous one through each of its alignments |
| SeqAlign.ValidSeqAlign | src/asn/seqalign.rs:35-49 | an alignment is valid when its segments are |
| SeqAlign.ProductSpan | src/asn/seqalign.rs:258-284 | the product extent of an exon's parts is at least its product insertions |
| SeqAlign.GenomicSpan | src/asn/seqalign.rs:258-284 | the genomic extent of an exon's parts is at least its genomic insertions |
| SeqAlign.InsertedOn | src/asn/seqalign.rs:276-282 | parts without insertions insert nothing on either side |
| SeqTable.Expand | src/asn/seqtable.rs:88-95 | a common table has one row per index, row i holding the value its index names |
| SeqTable.Position | src/asn/seqtable.rs:88-95 | the first position of a value in a list |
| SeqTable.Intern | src/asn/seqtable.rs:88-95 | a common table for given rows lists each distinct value once, exactly the rows' values, and its indexes are in range |
| SeqTable.ExpandIntern | src/asn/seqtable.rs:88-95 | expanding an interned table gives the rows back |
| SeqTable.OctetOfBits | src/asn/seqtable.rs:169-171 | eight bits packed into an octet, the first the most significant |
| SeqTable.OctetBits | src/asn/seqtable.rs:169-171 | the eight bits of an octet, most significant first |
| SeqTable.OctetBitsRoundTrip | src/asn/seqtable.rs:169-171 | splitting an octet into bits and packing them again gives it back |
| SeqTable.OctetOfBitsRoundTrip | src/asn/seqtable.rs:169-171 | packing eight bits and splitting the octet gives them back |
| SeqTable.Bits | src/asn/seqtable.rs:169-171 | a bit list of n octets holds 8n rows |
| SeqTable.BitsAt | src/asn/seqtable.rs:169-171 | row r is bit r mod 8 of octet r div 8, most significant first |
| SeqTable.OctetsOfBits | src/asn/seqtable.rs:169-171 | rows' bits packed into octets, the last padded with clear bits |
| SeqTable.BitsOfOctets | src/asn/seqtable.rs:169-171 | packing bits and reading them back gives the bits followed by clear padding |
| SeqTable.OctetsOfBitsOfOctets | src/asn/seqtable.rs:169-171 | reading a bit list and packing the bits again gives the octets back |
| SeqTable.SetRows | src/asn/seqtable.rs:225-227 | the rows whose bit is set, each exactly once, in increasing order |
| SeqTable.SetRowsPosition | src/asn/seqtable.rs:225-227 | a set row sits at the position that counts the set rows before it |
| SeqTable.PositionIs | src/asn/seqtable.rs:222-223 | the first position of a value is where it occurs with no earlier occurrence |
| SeqTable.DeltaDecode | src/asn/seqtable.rs:178-179 | the running sums of a delta-encoded list |
| SeqTable.DeltaEncode | src/asn/seqtable.rs:178-179 | the differences of a list |
| SeqTable.DeltaDecodeEncode | src/asn/seqtable.rs:178-179 | decoding an encoded list gives it back |
| SeqTable.DeltaEncodeDecode | src/asn/seqtable.rs:178-179 | encoding a decoded list gives the deltas back |
| SeqTable.DeltaDecodeSorted | src/asn/seqtable.rs:229-230 | non-negative deltas decode to non-decreasing, non-negative rows |
| SeqTable.IndexDeltas | src/asn/seqtable.rs:229-230 | the unsigned deltas of a non-decreasing index list are its delta encoding |
| SeqTable.IndexDeltasRoundTrip | src/asn/seqtable.rs:229-230 | decoding unsigned deltas gives a non-decreasing list whose deltas they are |
| SeqTable.Scaled | src/asn/seqtable.rs:110-112 | each output row less `add` is its data row times `mul` |
| SeqTable.ScaledRecoverable | src/asn/seqtable.rs:110-112 | with a non-zero `mul` each data row is recovered from its output |
| SeqTable.MulSigns | src/asn/seqtable.rs:110-112 | a product of non-zero integers is at least as far from zero as either factor |
| SeqTable.ScaledMonotone | src/asn/seqtable.rs:110-112 | a non-negative `mul` keeps the order of the rows |
| SeqTable.ScaledRange | src/asn/seqtable.rs:110-122 | data within [lo, hi] scaled by a non-negative `mul` lies within [lo*mul+add, hi*mul+add] |
| SeqTable.ScaledWithinBounds | src/asn/seqtable.rs:118-122 | `min` and `max`, when set, bound the scaled values; when neither is set, every scaled value fits a 32-bit signed integer |
| SeqTable.ScaledFitsWithoutBounds | src/asn/seqtable.rs:118-122 | data whose scaled range fits a 32-bit signed integer meets the bounds with `min` and `max` both unset |
| SeqTable.Signed | src/asn/seqtable.rs:192-202 | a signed integer stored in its unsigned two's-complement form: below half it is itself, from half on it is less by the type's range |
| SeqTable.SingleValue | src/asn/seqtable.rs:206-217 | a single datum stands for an integer row exactly when it is `int` or `int8` |
| SeqTable.AsInts | src/asn/seqtable.rs:178-182 | the integers of an int or bit column, a set bit counting 1, one per row; None exactly when some row is neither |
| SeqTable.Rows | src/asn/seqtable.rs:148-203 | one row per integer, string and bit; a common table decodes exactly when its indexes are in range |
| SeqTable.CommonStringAgrees | src/asn/seqtable.rs:160-161 | a common string table holds the same rows as the plain strings it interns |
| SeqTable.IntDeltaAgrees | src/asn/seqtable.rs:178-179 | delta-encoded integers hold the same rows as the non-decreasing integers they encode |
| SeqTable.IntScaledRow | src/asn/seqtable.rs:110-112 | row i of a scaled column is data row i times `mul` plus `add` |
| SeqTable.SparsePosition | src/asn/seqtable.rs:220-236 | a row has a position in a sparse index exactly when it is listed, or its bit is set, and the position holds that row |
| SeqTable.IndexesDeltaAgrees | src/asn/seqtable.rs:229-230 | a delta-encoded index list places every row where the plain list does |
| SeqTable.BitSetAgrees | src/asn/seqtable.rs:225-227 | a bit set places every row where the increasing list of its set rows does |
| SeqTable.ColumnValue | src/asn/seqtable.rs:239-256 | row r's value: data row r, the default past short data, the data at its sparse position, or `sparse_other` for an unlisted row |
| SeqTable.ListedRowValue | src/asn/seqtable.rs:239-256 | in a sparse column the i-th listed row gets the i-th data row |
| SeqTable.SparseEncodingsAgree | src/asn/seqtable.rs:220-236 | replacing an increasing index list by its delta encoding, or by the bit set of the same rows, changes no row's value |
| Scoremat.OrDefault | src/asn/scoremat.rs:91-100 | an absent field reads as its default, a present one as its value |
| Scoremat.ReadLoopConstraint | src/asn/scoremat.rs:91-100 | `minlength` defaults to 0 and `maxlength` to 100000 when absent |
| Scoremat.DefaultLoopAdmits | src/asn/scoremat.rs:91-100 | a constraint with both fields absent admits exactly the lengths 0 to 100000 |
| Scoremat.DerivedDefaultCoreDefInvalid | src/asn/scoremat.rs:102-110 | the derived `Default` core, with no blocks and no loops, breaks the documented nblocks+1 loop constraints |
| Scoremat.EmptyCoreDef | src/asn/scoremat.rs:103-115 | the empty core the documented sizes ask for, no blocks and one unconstrained loop, is valid |
| Scoremat.MakeCoreDef | src/asn/scoremat.rs:103-115 | a core of given blocks and loops exists exactly when there is one loop more than blocks, and is valid |
| Scoremat.AddBlockKeepsValid | src/asn/scoremat.rs:103-115 | adding a block with the loop after it keeps a core valid; adding the block alone does not |
| Scoremat.ReadPssmFlags | src/asn/scoremat.rs:284-304 | `is_protein` defaults to true and `by_row` to false when absent |
| Scoremat.BlockBound | src/asn/scoremat.rs:279-283 | entry `inner` of block `outer` lies within `count` blocks of `size` entries |
| Scoremat.CellIndex | src/asn/scoremat.rs:279-283 | every cell of a rows by cols matrix is stored within rows*cols values |
| Scoremat.CellAt | src/asn/scoremat.rs:279-283 | every storage position holds a cell of the matrix, stored at that position |
| Scoremat.BlockOf | src/asn/scoremat.rs:279-283 | position k of count blocks of size entries is entry k mod size of block k div size |
| Scoremat.CellIndexInjective | src/asn/scoremat.rs:279-283 | no two cells are stored at the same position |
| Scoremat.CellAtIndex | src/asn/scoremat.rs:279-283 | reading back the cell of a cell's position gives the cell |
| Scoremat.Restore | src/asn/scoremat.rs:279-304 | values stored in one order, stored in the other, keep every cell's value |
| Scoremat.Restored | src/asn/scoremat.rs:279-304 | a matrix stored in the other order stays well formed with the same dimensions and the same data present |
| Scoremat.RestoredSameCells | src/asn/scoremat.rs:279-304 | storing the matrix in the other order changes no score and no frequency ratio |
| Scoremat.UsedData | src/asn/scoremat.rs:361-381 | final data takes precedence when both are present; intermediate data is used only on its own; none only when both are absent |
| Scoremat.ValidPssmHasData | src/asn/scoremat.rs:284-318 | a well-formed matrix always has data to use, with one value per cell |
| Scoremat.AbsentByRowIsColumnMajor | src/asn/scoremat.rs:302-304 | with `by_row` absent cell (r, c) is entry c*rows + r, and a matrix is protein unless told otherwise |
| Scoremat.ValidCoreDef | src/asn/scoremat.rs:104-110 | `nblocks` blocks and `nblocks + 1` loop constraints |
| Scoremat.ValidPssm | src/asn/scoremat.rs:291-316 | at least one of intermediate and final data, each holding `num_rows` times `num_columns` values, and one row label per row when labels are given |
| SeqCode.MapValue | src/asn/seqcode.rs:45-59 | a value converts exactly when it is one of the `num` values from `start_at`, to the table entry at its offset from `start_at` |
| SeqCode.FromZero | src/asn/seqcode.rs:5-8 | the table indexed from 0 has `start_at` more rows and the same codes |
| SeqCode.FromZeroLookup | src/asn/seqcode.rs:5-8 | indexing from 0 keeps every converted value, the added rows are 0, and each lookup is a plain index |
| SeqCode.CodeRow | src/asn/seqcode.rs:71-86 | a value has a row exactly when it is one of the `num` values from `start_at`, and the row is the one at its offset from `start_at`; in a one-letter table every symbol is one letter |
| SeqCode.Complement | src/asn/seqcode.rs:71-86 | a value has a complement exactly when the table has complements and the value has a row, and the complement is the entry at its offset from `start_at` |
| SeqCode.ComplementHasRow | src/asn/seqcode.rs:84-85 | when complements are values of the table, a complement has a row and a complement of its own |
| SeqCode.ValidMapTable | src/asn/seqcode.rs:50-58 | one table entry per row, `num` rows |
| SeqCode.ValidCodeTable | src/asn/seqcode.rs:74-86 | one row, and one complement when there are complements, per value; one-letter symbols when `one_letter` is set |
| SeqRes.ValueCount | src/seqres.rs:7-11 | the number of values of whichever graph is chosen |
| SeqRes.MakeSeqGraph | src/seqres.rs:14-34 | a graph with only its mandatory fields, `numval` counted from its values, is consistent |
| SeqRes.AddByteValue | src/seqres.rs:30-31 | adding a byte value keeps the graph consistent when `numval` grows with it, and breaks it otherwise |
| SeqRes.ValidSeqGraph | src/seqres.rs:30-31 | `numval` is the number of values of the chosen graph |
| SeqFeat.VariantResourceLinkBits | src/asn/seqfeat.rs:326-333 | each VariantResourceLink flag is a single bit, so the flags combine as a bit set |
| SeqFeat.VariantGeneLocationBits | src/asn/seqfeat.rs:335-348 | each VariantGeneLocation flag is a single bit |
| SeqFeat.VariantEffectBits | src/asn/seqfeat.rs:350-361 | each VariantEffect flag other than NoChange is a single bit, and NoChange is no bit |
| SeqFeat.VariantMappingBits | src/asn/seqfeat.rs:363-367 | each VariantMapping flag is a single bit |
| SeqFeat.PopulationDataFlagsBits | src/asn/seqfeat.rs:466-470 | each PopulationDataFlags flag is a single bit |
| SeqFeat.AlleleOriginOtherAsWritten | src/asn/seqfeat.rs:416 | as declared, `Other` is 10732741824: neither a single bit nor a 32-bit value |
| SeqFeat.VariantAlleleOriginIntendedCode | src/asn/seqfeat.rs:403-417 | the discriminants with `Other` as bit 30, 1073741824: every other flag as declared, and all below 2^31 |
| SeqFeat.AlleleOriginIntendedBits | src/asn/seqfeat.rs:403-417 | with the intended value every flag but Unknown is a single bit, and only Unknown is 0 |
| SeqFeat.AlleleOriginDeclaredBits | src/asn/seqfeat.rs:405-415 | every flag declared as bits 0 to 10 has a single-bit value |
| SeqFeat.AlleleOriginIntendedInjective | src/asn/seqfeat.rs:403-417 | with the intended value the discriminants stay distinct |
| Biblio.PubStatusCode | src/asn/biblio.rs:41-79 | `PubStatus`: each variant's discriminant is the value declared for it, among the declared values |
| Biblio.PubStatusFromCode | src/asn/biblio.rs:41-79 | `PubStatus`: a code decodes exactly when it is a declared discriminant, to the variant with that discriminant |
| Biblio.PubStatusRoundTrip | src/asn/biblio.rs:41-79 | `PubStatus`: decoding a variant's discriminant gives the variant back |
| Biblio.PubStatusCodeInjective | src/asn/biblio.rs:41-79 | `PubStatus`: no two variants share a discriminant |
| Biblio.LetTypeCode | src/asn/biblio.rs:211-215 | `LetType`: each variant's discriminant is the value declared for it, among the declared values |
| Biblio.LetTypeFromCode | src/asn/biblio.rs:211-215 | `LetType`: a code decodes exactly when it is a declared discriminant, to the variant with that discriminant |
| Biblio.LetTypeRoundTrip | src/asn/biblio.rs:211-215 | `LetType`: decoding a variant's discriminant gives the variant back |
| Biblio.LetTypeCodeInjective | src/asn/biblio.rs:211-215 | `LetType`: no two variants share a discriminant |
| Biblio.SubMediumCode | src/asn/biblio.rs:229-235 | `SubMedium`: each variant's discriminant is the value declared for it, among the declared values |
| Biblio.SubMediumFromCode | src/asn/biblio.rs:229-235 | `SubMedium`: a code decodes exactly when it is a declared discriminant, to the variant with that discriminant |
| Biblio.SubMediumRoundTrip | src/asn/biblio.rs:229-235 | `SubMedium`: decoding a variant's discriminant gives the variant back |
| Biblio.SubMediumCodeInjective | src/asn/biblio.rs:229-235 | `SubMedium`: no two variants share a discriminant |
| Biblio.AuthorLevelCode | src/asn/biblio.rs:301-304 | `AuthorLevel`: each variant's discriminant is the value declared for it, among the declared values |
| Biblio.AuthorLevelFromCode | src/asn/biblio.rs:301-304 | `AuthorLevel`: a code decodes exactly when it is a declared discriminant, to the variant with that discriminant |
| Biblio.AuthorLevelRoundTrip | src/asn/biblio.rs:301-304 | `AuthorLevel`: decoding a variant's discriminant gives the variant back |
| Biblio.AuthorLevelCodeInjective | src/asn/biblio.rs:301-304 | `AuthorLevel`: no two variants share a discriminant |
| Biblio.AuthorRoleCode | src/asn/biblio.rs:306-311 | `AuthorRole`: each variant's discriminant is the value declared for it, among the declared values |
| Biblio.AuthorRoleFromCode | src/asn/biblio.rs:306-311 | `AuthorRole`: a code decodes exactly when it is a declared discriminant, to the variant with that discriminant |
| Biblio.AuthorRoleRoundTrip | src/asn/biblio.rs:306-311 | `AuthorRole`: decoding a variant's discriminant gives the variant back |
| Biblio.AuthorRoleCodeInjective | src/asn/biblio.rs:306-311 | `AuthorRole`: no two variants share a discriminant |
| Biblio.ImprintPrePubCode | src/asn/biblio.rs:414-422 | `ImprintPrePub`: each variant's discriminant is the value declared for it, among the declared values |
| Biblio.ImprintPrePubFromCode | src/asn/biblio.rs:414-422 | `ImprintPrePub`: a code decodes exactly when it is a declared discriminant, to the variant with that discriminant |
| Biblio.ImprintPrePubRoundTrip | src/asn/biblio.rs:414-422 | `ImprintPrePub`: decoding a variant's discriminant gives the variant back |
| Biblio.ImprintPrePubCodeInjective | src/asn/biblio.rs:414-422 | `ImprintPrePub`: no two variants share a discriminant |
| Biblio.CitRetractTypeCode | src/asn/biblio.rs:463-475 | `CitRetractType`: each variant's discriminant is the value declared for it, among the declared values |
| Biblio.CitRetractTypeFromCode | src/asn/biblio.rs:463-475 | `CitRetractType`: a code decodes exactly when it is a declared discriminant, to the variant with that discriminant |
| Biblio.CitRetractTypeRoundTrip | src/asn/biblio.rs:463-475 | `CitRetractType`: decoding a variant's discriminant gives the variant back |
| Biblio.CitRetractTypeCodeInjective | src/asn/biblio.rs:463-475 | `CitRetractType`: no two variants share a discriminant |
| EntrezGene.EntrezgeneTypeCode | src/asn/entrezgene.rs:61-76 | `EntrezgeneType`: each variant's discriminant is the value declared for it, among the declared values |
| EntrezGene.EntrezgeneTypeFromCode | src/asn/entrezgene.rs:61-76 | `EntrezgeneType`: a code decodes exactly when it is a declared discriminant, to the variant with that discriminant |
| EntrezGene.EntrezgeneTypeRoundTrip | src/asn/entrezgene.rs:61-76 | `EntrezgeneType`: decoding a variant's discriminant gives the variant back |
| EntrezGene.EntrezgeneTypeCodeInjective | src/asn/entrezgene.rs:61-76 | `EntrezgeneType`: no two variants share a discriminant |
| EntrezGene.GeneCommentaryTypeCode | src/asn/entrezgene.rs:164-224 | `GeneCommentaryType`: each variant's discriminant is the value declared for it, among the declared values |
| EntrezGene.GeneCommentaryTypeFromCode | src/asn/entrezgene.rs:164-224 | `GeneCommentaryType`: a code decodes exactly when it is a declared discriminant, to the variant with that discriminant |
| EntrezGene.GeneCommentaryTypeRoundTrip | src/asn/entrezgene.rs:164-224 | `GeneCommentaryType`: decoding a variant's discriminant gives the variant back |
| EntrezGene.GeneCommentaryTypeCodeInjective | src/asn/entrezgene.rs:164-224 | `GeneCommentaryType`: no two variants share a discriminant |
| EntrezGene.GeneTrackStatusCode | src/asn/entrezgene.rs:116-120 | `GeneTrackStatus`: each variant's discriminant is the value declared for it, among the declared values |
| EntrezGene.GeneTrackStatusFromCode | src/asn/entrezgene.rs:116-120 | `GeneTrackStatus`: a code decodes exactly when it is a declared discriminant, to the variant with that discriminant |
| EntrezGene.GeneTrackStatusRoundTrip | src/asn/entrezgene.rs:116-120 | `GeneTrackStatus`: decoding a variant's discriminant gives the variant back |
| EntrezGene.GeneTrackStatusCodeInjective | src/asn/entrezgene.rs:116-120 | `GeneTrackStatus`: no two variants share a discriminant |
| EntrezGene.MapTypeCode | src/asn/entrezgene.rs:268-274 | `MapType`: each variant's discriminant is the value declared for it, among the declared values |
| EntrezGene.MapTypeFromCode | src/asn/entrezgene.rs:268-274 | `MapType`: a code decodes exactly when it is a declared discriminant, to the variant with that discriminant |
| EntrezGene.MapTypeRoundTrip | src/asn/entrezgene.rs:268-274 | `MapType`: decoding a variant's discriminant gives the variant back |
| EntrezGene.MapTypeCodeInjective | src/asn/entrezgene.rs:268-274 | `MapType`: no two variants share a discriminant |
| General.FuzzLimitCode | src/asn/general.rs:93-114 | `FuzzLimit`: each variant's discriminant is the value declared for it, among the declared values |
| General.FuzzLimitFromCode | src/asn/general.rs:93-114 | `FuzzLimit`: a code decodes exactly when it is a declared discriminant, to the variant with that discriminant |
| General.FuzzLimitRoundTrip | src/asn/general.rs:93-114 | `FuzzLimit`: decoding a variant's discriminant gives the variant back |
| General.FuzzLimitCodeInjective | src/asn/general.rs:93-114 | `FuzzLimit`: no two variants share a discriminant |
| Medline.MedlineEntryStatusCode | src/asn/medline.rs:9-19 | `MedlineEntryStatus`: each variant's discriminant is the value declared for it, among the declared values |
| Medline.MedlineEntryStatusFromCode | src/asn/medline.rs:9-19 | `MedlineEntryStatus`: a code decodes exactly when it is a declared discriminant, to the variant with that discriminant |
| Medline.MedlineEntryStatusRoundTrip | src/asn/medline.rs:9-19 | `MedlineEntryStatus`: decoding a variant's discriminant gives the variant back |
| Medline.MedlineEntryStatusCodeInjective | src/asn/medline.rs:9-19 | `MedlineEntryStatus`: no two variants share a discriminant |
| Medline.MedlineSiTypeCode | src/asn/medline.rs:79-107 | `MedlineSiType`: each variant's discriminant is the value declared for it, among the declared values |
| Medline.MedlineSiTypeFromCode | src/asn/medline.rs:79-107 | `MedlineSiType`: a code decodes exactly when it is a declared discriminant, to the variant with that discriminant |
| Medline.MedlineSiTypeRoundTrip | src/asn/medline.rs:79-107 | `MedlineSiType`: decoding a variant's discriminant gives the variant back |
| Medline.MedlineSiTypeCodeInjective | src/asn/medline.rs:79-107 | `MedlineSiType`: no two variants share a discriminant |
| Medline.MedlineRnTypeCode | src/asn/medline.rs:110-118 | `MedlineRnType`: each variant's discriminant is the value declared for it, among the declared values |
| Medline.MedlineRnTypeFromCode | src/asn/medline.rs:110-118 | `MedlineRnType`: a code decodes exactly when it is a declared discriminant, to the variant with that discriminant |
| Medline.MedlineRnTypeRoundTrip | src/asn/medline.rs:110-118 | `MedlineRnType`: decoding a variant's discriminant gives the variant back |
| Medline.MedlineRnTypeCodeInjective | src/asn/medline.rs:110-118 | `MedlineRnType`: no two variants share a discriminant |
| Medline.MedlineFieldTypeCode | src/asn/medline.rs:142-151 | `MedlineFieldType`: each variant's discriminant is the value declared for it, among the declared values |
| Medline.MedlineFieldTypeFromCode | src/asn/medline.rs:142-151 | `MedlineFieldType`: a code decodes exactly when it is a declared discriminant, to the variant with that discriminant |
| Medline.MedlineFieldTypeRoundTrip | src/asn/medline.rs:142-151 | `MedlineFieldType`: decoding a variant's discriminant gives the variant back |
| Medline.MedlineFieldTypeCodeInjective | src/asn/medline.rs:142-151 | `MedlineFieldType`: no two variants share a discriminant |
| Medline.DocRefTypeCode | src/asn/medline.rs:166-170 | `DocRefType`: each variant's discriminant is the value declared for it, among the declared values |
| Medline.DocRefTypeFromCode | src/asn/medline.rs:166-170 | `DocRefType`: a code decodes exactly when it is a declared discriminant, to the variant with that discriminant |
| Medline.DocRefTypeRoundTrip | src/asn/medline.rs:166-170 | `DocRefType`: decoding a variant's discriminant gives the variant back |
| Medline.DocRefTypeCodeInjective | src/asn/medline.rs:166-170 | `DocRefType`: no two variants share a discriminant |
| Scoremat.BlockPropertyTypeCode | src/asn/scoremat.rs:57-68 | `BlockPropertyType`: each variant's discriminant is the value declared for it, among the declared values |
| Scoremat.BlockPropertyTypeFromCode | src/asn/scoremat.rs:57-68 | `BlockPropertyType`: a code decodes exactly when it is a declared discriminant, to the variant with that discriminant |
| Scoremat.BlockPropertyTypeRoundTrip | src/asn/scoremat.rs:57-68 | `BlockPropertyType`: decoding a variant's discriminant gives the variant back |
| Scoremat.BlockPropertyTypeCodeInjective | src/asn/scoremat.rs:57-68 | `BlockPropertyType`: no two variants share a discriminant |
| Seq.BioMolCode | src/asn/seq.rs:102-127 | `BioMol`: each variant's discriminant is the value declared for it, among the declared values |
| Seq.BioMolFromCode | src/asn/seq.rs:102-127 | `BioMol`: a code decodes exactly when it is a declared discriminant, to the variant with that discriminant |
| Seq.BioMolRoundTrip | src/asn/seq.rs:102-127 | `BioMol`: decoding a variant's discriminant gives the variant back |
| Seq.BioMolCodeInjective | src/asn/seq.rs:102-127 | `BioMol`: no two variants share a discriminant |
| Seq.MolTechCode | src/asn/seq.rs:131-184 | `MolTech`: each variant's discriminant is the value declared for it, among the declared values |
| Seq.MolTechFromCode | src/asn/seq.rs:131-184 | `MolTech`: a code decodes exactly when it is a declared discriminant, to the variant with that discriminant |
| Seq.MolTechRoundTrip | src/asn/seq.rs:131-184 | `MolTech`: decoding a variant's discriminant gives the variant back |
| Seq.MolTechCodeInjective | src/asn/seq.rs:131-184 | `MolTech`: no two variants share a discriminant |
| Seq.MolCompletenessCode | src/asn/seq.rs:193-204 | `MolCompleteness`: each variant's discriminant is the value declared for it, among the declared values |
| Seq.MolCompletenessFromCode | src/asn/seq.rs:193-204 | `MolCompleteness`: a code decodes exactly when it is a declared discriminant, to the variant with that discriminant |
| Seq.MolCompletenessRoundTrip | src/asn/seq.rs:193-204 | `MolCompleteness`: decoding a variant's discriminant gives the variant back |
| Seq.MolCompletenessCodeInjective | src/asn/seq.rs:193-204 | `MolCompleteness`: no two variants share a discriminant |
| Seq.ReprCode | src/asn/seq.rs:434-454 | `Repr`: each variant's discriminant is the value declared for it, among the declared values |
| Seq.ReprFromCode | src/asn/seq.rs:434-454 | `Repr`: a code decodes exactly when it is a declared discriminant, to the variant with that discriminant |
| Seq.ReprRoundTrip | src/asn/seq.rs:434-454 | `Repr`: decoding a variant's discriminant gives the variant back |
| Seq.ReprCodeInjective | src/asn/seq.rs:434-454 | `Repr`: no two variants share a discriminant |
| Seq.MolCode | src/asn/seq.rs:458-466 | `Mol`: each variant's discriminant is the value declared for it, among the declared values |
| Seq.MolFromCode | src/asn/seq.rs:458-466 | `Mol`: a code decodes exactly when it is a declared discriminant, to the variant with that discriminant |
| Seq.MolRoundTrip | src/asn/seq.rs:458-466 | `Mol`: decoding a variant's discriminant gives the variant back |
| Seq.MolCodeInjective | src/asn/seq.rs:458-466 | `Mol`: no two variants share a discriminant |
| Seq.TopologyCode | src/asn/seq.rs:470-477 | `Topology`: each variant's discriminant is the value declared for it, among the declared values |
| Seq.TopologyFromCode | src/asn/seq.rs:470-477 | `Topology`: a code decodes exactly when it is a declared discriminant, to the variant with that discriminant |
| Seq.TopologyRoundTrip | src/asn/seq.rs:470-477 | `Topology`: decoding a variant's discriminant gives the variant back |
| Seq.TopologyCodeInjective | src/asn/seq.rs:470-477 | `Topology`: no two variants share a discriminant |
| Seq.StrandCode | src/asn/seq.rs:480-488 | `Strand`: each variant's discriminant is the value declared for it, among the declared values |
| Seq.StrandFromCode | src/asn/seq.rs:480-488 | `Strand`: a code decodes exactly when it is a declared discriminant, to the variant with that discriminant |
| Seq.StrandRoundTrip | src/asn/seq.rs:480-488 | `Strand`: decoding a variant's discriminant gives the variant back |
| Seq.StrandCodeInjective | src/asn/seq.rs:480-488 | `Strand`: no two variants share a discriminant |
| Seq.GIBBMolCode | src/asn/seq.rs:219-235 | `GIBBMol`: each variant's discriminant is the value declared for it, among the declared values |
| Seq.GIBBMolFromCode | src/asn/seq.rs:219-235 | `GIBBMol`: a code decodes exactly when it is a declared discriminant, to the variant with that discriminant |
| Seq.GIBBMolRoundTrip | src/asn/seq.rs:219-235 | `GIBBMol`: decoding a variant's discriminant gives the variant back |
| Seq.GIBBMolCodeInjective | src/asn/seq.rs:219-235 | `GIBBMol`: no two variants share a discriminant |
| Seq.GIBBModCode | src/asn/seq.rs:238-277 | `GIBBMod`: each variant's discriminant is the value declared for it, among the declared values |
| Seq.GIBBModFromCode | src/asn/seq.rs:238-277 | `GIBBMod`: a code decodes exactly when it is a declared discriminant, to the variant with that discriminant |
| Seq.GIBBModRoundTrip | src/asn/seq.rs:238-277 | `GIBBMod`: decoding a variant's discriminant gives the variant back |
| Seq.GIBBModCodeInjective | src/asn/seq.rs:238-277 | `GIBBMod`: no two variants share a discriminant |
| Seq.GIBBMethodCode | src/asn/seq.rs:280-294 | `GIBBMethod`: each variant's discriminant is the value declared for it, among the declared values |
| Seq.GIBBMethodFromCode | src/asn/seq.rs:280-294 | `GIBBMethod`: a code decodes exactly when it is a declared discriminant, to the variant with that discriminant |
| Seq.GIBBMethodRoundTrip | src/asn/seq.rs:280-294 | `GIBBMethod`: decoding a variant's discriminant gives the variant back |
| Seq.GIBBMethodCodeInjective | src/asn/seq.rs:280-294 | `GIBBMethod`: no two variants share a discriminant |
| Seq.SeqGapTypeCode | src/asn/seq.rs:619-636 | `SeqGapType`: each variant's discriminant is the value declared for it, among the declared values |
| Seq.SeqGapTypeFromCode | src/asn/seq.rs:619-636 | `SeqGapType`: a code decodes exactly when it is a declared discriminant, to the variant with that discriminant |
| Seq.SeqGapTypeRoundTrip | src/asn/seq.rs:619-636 | `SeqGapType`: decoding a variant's discriminant gives the variant back |
| Seq.SeqGapTypeCodeInjective | src/asn/seq.rs:619-636 | `SeqGapType`: no two variants share a discriminant |
| Seq.SeqGapLinkageCode | src/asn/seq.rs:638-642 | `SeqGapLinkage`: each variant's discriminant is the value declared for it, among the declared values |
| Seq.SeqGapLinkageFromCode | src/asn/seq.rs:638-642 | `SeqGapLinkage`: a code decodes exactly when it is a declared discriminant, to the variant with that discriminant |
| Seq.SeqGapLinkageRoundTrip | src/asn/seq.rs:638-642 | `SeqGapLinkage`: decoding a variant's discriminant gives the variant back |
| Seq.SeqGapLinkageCodeInjective | src/asn/seq.rs:638-642 | `SeqGapLinkage`: no two variants share a discriminant |
| Seq.LinkageEvidenceTypeCode | src/asn/seq.rs:651-664 | `LinkageEvidenceType`: each variant's discriminant is the value declared for it, among the declared values |
| Seq.LinkageEvidenceTypeFromCode | src/asn/seq.rs:651-664 | `LinkageEvidenceType`: a code decodes exactly when it is a declared discriminant, to the variant with that discriminant |
| Seq.LinkageEvidenceTypeRoundTrip | src/asn/seq.rs:651-664 | `LinkageEvidenceType`: decoding a variant's discriminant gives the variant back |
| Seq.LinkageEvidenceTypeCodeInjective | src/asn/seq.rs:651-664 | `LinkageEvidenceType`: no two variants share a discriminant |
| Seq.NumRefTypeCode | src/asn/seq.rs:333-339 | `NumRefType`: each variant's discriminant is the value declared for it, among the declared values |
| Seq.NumRefTypeFromCode | src/asn/seq.rs:333-339 | `NumRefType`: a code decodes exactly when it is a declared discriminant, to the variant with that discriminant |
| Seq.NumRefTypeRoundTrip | src/asn/seq.rs:333-339 | `NumRefType`: decoding a variant's discriminant gives the variant back |
| Seq.NumRefTypeCodeInjective | src/asn/seq.rs:333-339 | `NumRefType`: no two variants share a discriminant |
| Seq.PubDescRefTypeCode | src/asn/seq.rs:360-370 | `PubDescRefType`: each variant's discriminant is the value declared for it, among the declared values |
| Seq.PubDescRefTypeFromCode | src/asn/seq.rs:360-370 | `PubDescRefType`: a code decodes exactly when it is a declared discriminant, to the variant with that discriminant |
| Seq.PubDescRefTypeRoundTrip | src/asn/seq.rs:360-370 | `PubDescRefType`: decoding a variant's discriminant gives the variant back |
| Seq.PubDescRefTypeCodeInjective | src/asn/seq.rs:360-370 | `PubDescRefType`: no two variants share a discriminant |
| Seq.AlignTypeCode | src/asn/seq.rs:750-758 | `AlignType`: each variant's discriminant is the value declared for it, among the declared values |
| Seq.AlignTypeFromCode | src/asn/seq.rs:750-758 | `AlignType`: a code decodes exactly when it is a declared discriminant, to the variant with that discriminant |
| Seq.AlignTypeRoundTrip | src/asn/seq.rs:750-758 | `AlignType`: decoding a variant's discriminant gives the variant back |
| Seq.AlignTypeCodeInjective | src/asn/seq.rs:750-758 | `AlignType`: no two variants share a discriminant |
| Seq.SeqAnnotDBCode | src/asn/seq.rs:766-775 | `SeqAnnotDB`: each variant's discriminant is the value declared for it, among the declared values |
| Seq.SeqAnnotDBFromCode | src/asn/seq.rs:766-775 | `SeqAnnotDB`: a code decodes exactly when it is a declared discriminant, to the variant with that discriminant |
| Seq.SeqAnnotDBRoundTrip | src/asn/seq.rs:766-775 | `SeqAnnotDB`: decoding a variant's discriminant gives the variant back |
| Seq.SeqAnnotDBCodeInjective | src/asn/seq.rs:766-775 | `SeqAnnotDB`: no two variants share a discriminant |
| SeqAlign.SeqAlignTypeCode | src/asn/seqalign.rs:11-21 | `SeqAlignType`: each variant's discriminant is the value declared for it, among the declared values |
| SeqAlign.SeqAlignTypeFromCode | src/asn/seqalign.rs:11-21 | `SeqAlignType`: a code decodes exactly when it is a declared discriminant, to the variant with that discriminant |
| SeqAlign.SeqAlignTypeRoundTrip | src/asn/seqalign.rs:11-21 | `SeqAlignType`: decoding a variant's discriminant gives the variant back |
| SeqAlign.SeqAlignTypeCodeInjective | src/asn/seqalign.rs:11-21 | `SeqAlignType`: no two variants share a discriminant |
| SeqAlign.SplicedSegProductCode | src/asn/seqalign.rs:145-148 | `SplicedSegProduct`: each variant's discriminant is the value declared for it, among the declared values |
| SeqAlign.SplicedSegProductFromCode | src/asn/seqalign.rs:145-148 | `SplicedSegProduct`: a code decodes exactly when it is a declared discriminant, to the variant with that discriminant |
| SeqAlign.SplicedSegProductRoundTrip | src/asn/seqalign.rs:145-148 | `SplicedSegProduct`: decoding a variant's discriminant gives the variant back |
| SeqAlign.SplicedSegProductCodeInjective | src/asn/seqalign.rs:145-148 | `SplicedSegProduct`: no two variants share a discriminant |
| SeqBlock.EMBLDbNameCodeCode | src/asn/seqblock.rs:19-38 | `EMBLDbNameCode`: each variant's discriminant is the value declared for it, among the declared values |
| SeqBlock.EMBLDbNameCodeFromCode | src/asn/seqblock.rs:19-38 | `EMBLDbNameCode`: a code decodes exactly when it is a declared discriminant, to the variant with that discriminant |
| SeqBlock.EMBLDbNameCodeRoundTrip | src/asn/seqblock.rs:19-38 | `EMBLDbNameCode`: decoding a variant's discriminant gives the variant back |
| SeqBlock.EMBLDbNameCodeCodeInjective | src/asn/seqblock.rs:19-38 | `EMBLDbNameCode`: no two variants share a discriminant |
| SeqBlock.EMBLBlockClassCode | src/asn/seqblock.rs:61-67 | `EMBLBlockClass`: each variant's discriminant is the value declared for it, among the declared values |
| SeqBlock.EMBLBlockClassFromCode | src/asn/seqblock.rs:61-67 | `EMBLBlockClass`: a code decodes exactly when it is a declared discriminant, to the variant with that discriminant |
| SeqBlock.EMBLBlockClassRoundTrip | src/asn/seqblock.rs:61-67 | `EMBLBlockClass`: decoding a variant's discriminant gives the variant back |
| SeqBlock.EMBLBlockClassCodeInjective | src/asn/seqblock.rs:61-67 | `EMBLBlockClass`: no two variants share a discriminant |
| SeqBlock.EMBLBlockDivCode | src/asn/seqblock.rs:77-94 | `EMBLBlockDiv`: each variant's discriminant is the value declared for it, among the declared values |
| SeqBlock.EMBLBlockDivFromCode | src/asn/seqblock.rs:77-94 | `EMBLBlockDiv`: a code decodes exactly when it is a declared discriminant, to the variant with that discriminant |
| SeqBlock.EMBLBlockDivRoundTrip | src/asn/seqblock.rs:77-94 | `EMBLBlockDiv`: decoding a variant's discriminant gives the variant back |
| SeqBlock.EMBLBlockDivCodeInjective | src/asn/seqblock.rs:77-94 | `EMBLBlockDiv`: no two variants share a discriminant |
| SeqBlock.SPBlockClassCode | src/asn/seqblock.rs:115-122 | `SPBlockClass`: each variant's discriminant is the value declared for it, among the declared values |
| SeqBlock.SPBlockClassFromCode | src/asn/seqblock.rs:115-122 | `SPBlockClass`: a code decodes exactly when it is a declared discriminant, to the variant with that discriminant |
| SeqBlock.SPBlockClassRoundTrip | src/asn/seqblock.rs:115-122 | `SPBlockClass`: decoding a variant's discriminant gives the variant back |
| SeqBlock.SPBlockClassCodeInjective | src/asn/seqblock.rs:115-122 | `SPBlockClass`: no two variants share a discriminant |
| SeqCode.SeqCodeTypeCode | src/asn/seqcode.rs:20-43 | `SeqCodeType`: each variant's discriminant is the value declared for it, among the declared values |
| SeqCode.SeqCodeTypeFromCode | src/asn/seqcode.rs:20-43 | `SeqCodeType`: a code decodes exactly when it is a declared discriminant, to the variant with that discriminant |
| SeqCode.SeqCodeTypeRoundTrip | src/asn/seqcode.rs:20-43 | `SeqCodeType`: decoding a variant's discriminant gives the variant back |
| SeqCode.SeqCodeTypeCodeInjective | src/asn/seqcode.rs:20-43 | `SeqCodeType`: no two variants share a discriminant |
| SeqFeat.EvidenceCategoryCode | src/asn/seqfeat.rs:130-135 | `EvidenceCategory`: each variant's discriminant is the value declared for it, among the declared values |
| SeqFeat.EvidenceCategoryFromCode | src/asn/seqfeat.rs:130-135 | `EvidenceCategory`: a code decodes exactly when it is a declared discriminant, to the variant with that discriminant |
| SeqFeat.EvidenceCategoryRoundTrip | src/asn/seqfeat.rs:130-135 | `EvidenceCategory`: decoding a variant's discriminant gives the variant back |
| SeqFeat.EvidenceCategoryCodeInjective | src/asn/seqfeat.rs:130-135 | `EvidenceCategory`: no two variants share a discriminant |
| SeqFeat.SeqFeatExpEvidenceCode | src/asn/seqfeat.rs:24-27 | `SeqFeatExpEvidence`: each variant's discriminant is the value declared for it, among the declared values |
| SeqFeat.SeqFeatExpEvidenceFromCode | src/asn/seqfeat.rs:24-27 | `SeqFeatExpEvidence`: a code decodes exactly when it is a declared discriminant, to the variant with that discriminant |
| SeqFeat.SeqFeatExpEvidenceRoundTrip | src/asn/seqfeat.rs:24-27 | `SeqFeatExpEvidence`: decoding a variant's discriminant gives the variant back |
| SeqFeat.SeqFeatExpEvidenceCodeInjective | src/asn/seqfeat.rs:24-27 | `SeqFeatExpEvidence`: no two variants share a discriminant |
| SeqFeat.SeqFeatBondCode | src/asn/seqfeat.rs:52-58 | `SeqFeatBond`: each variant's discriminant is the value declared for it, among the declared values |
| SeqFeat.SeqFeatBondFromCode | src/asn/seqfeat.rs:52-58 | `SeqFeatBond`: a code decodes exactly when it is a declared discriminant, to the variant with that discriminant |
| SeqFeat.SeqFeatBondRoundTrip | src/asn/seqfeat.rs:52-58 | `SeqFeatBond`: decoding a variant's discriminant gives the variant back |
| SeqFeat.SeqFeatBondCodeInjective | src/asn/seqfeat.rs:52-58 | `SeqFeatBond`: no two variants share a discriminant |
| SeqFeat.SeqFeatSiteCode | src/asn/seqfeat.rs:60-88 | `SeqFeatSite`: each variant's discriminant is the value declared for it, among the declared values |
| SeqFeat.SeqFeatSiteFromCode | src/asn/seqfeat.rs:60-88 | `SeqFeatSite`: a code decodes exactly when it is a declared discriminant, to the variant with that discriminant |
| SeqFeat.SeqFeatSiteRoundTrip | src/asn/seqfeat.rs:60-88 | `SeqFeatSite`: decoding a variant's discriminant gives the variant back |
| SeqFeat.SeqFeatSiteCodeInjective | src/asn/seqfeat.rs:60-88 | `SeqFeatSite`: no two variants share a discriminant |
| SeqFeat.PSecStrCode | src/asn/seqfeat.rs:91-98 | `PSecStr`: each variant's discriminant is the value declared for it, among the declared values |
| SeqFeat.PSecStrFromCode | src/asn/seqfeat.rs:91-98 | `PSecStr`: a code decodes exactly when it is a declared discriminant, to the variant with that discriminant |
| SeqFeat.PSecStrRoundTrip | src/asn/seqfeat.rs:91-98 | `PSecStr`: decoding a variant's discriminant gives the variant back |
| SeqFeat.PSecStrCodeInjective | src/asn/seqfeat.rs:91-98 | `PSecStr`: no two variants share a discriminant |
| SeqFeat.InferenceSupportTypeCode | src/asn/seqfeat.rs:155-171 | `InferenceSupportType`: each variant's discriminant is the value declared for it, among the declared values |
| SeqFeat.InferenceSupportTypeFromCode | src/asn/seqfeat.rs:155-171 | `InferenceSupportType`: a code decodes exactly when it is a declared discriminant, to the variant with that discriminant |
| SeqFeat.InferenceSupportTypeRoundTrip | src/asn/seqfeat.rs:155-171 | `InferenceSupportType`: decoding a variant's discriminant gives the variant back |
| SeqFeat.InferenceSupportTypeCodeInjective | src/asn/seqfeat.rs:155-171 | `InferenceSupportType`: no two variants share a discriminant |
| SeqFeat.CdRegionFrameCode | src/asn/seqfeat.rs:209-215 | `CdRegionFrame`: each variant's discriminant is the value declared for it, among the declared values |
| SeqFeat.CdRegionFrameFromCode | src/asn/seqfeat.rs:209-215 | `CdRegionFrame`: a code decodes exactly when it is a declared discriminant, to the variant with that discriminant |
| SeqFeat.CdRegionFrameRoundTrip | src/asn/seqfeat.rs:209-215 | `CdRegionFrame`: decoding a variant's discriminant gives the variant back |
| SeqFeat.CdRegionFrameCodeInjective | src/asn/seqfeat.rs:209-215 | `CdRegionFrame`: no two variants share a discriminant |
| SeqFeat.CloneRefPlacementMethodCode | src/asn/seqfeat.rs:265-275 | `CloneRefPlacementMethod`: each variant's discriminant is the value declared for it, among the declared values |
| SeqFeat.CloneRefPlacementMethodFromCode | src/asn/seqfeat.rs:265-275 | `CloneRefPlacementMethod`: a code decodes exactly when it is a declared discriminant, to the variant with that discriminant |
| SeqFeat.CloneRefPlacementMethodRoundTrip | src/asn/seqfeat.rs:265-275 | `CloneRefPlacementMethod`: decoding a variant's discriminant gives the variant back |
| SeqFeat.CloneRefPlacementMethodCodeInjective | src/asn/seqfeat.rs:265-275 | `CloneRefPlacementMethod`: no two variants share a discriminant |
| SeqFeat.CloneSeqTypeCode | src/asn/seqfeat.rs:290-294 | `CloneSeqType`: each variant's discriminant is the value declared for it, among the declared values |
| SeqFeat.CloneSeqTypeFromCode | src/asn/seqfeat.rs:290-294 | `CloneSeqType`: a code decodes exactly when it is a declared discriminant, to the variant with that discriminant |
| SeqFeat.CloneSeqTypeRoundTrip | src/asn/seqfeat.rs:290-294 | `CloneSeqType`: decoding a variant's discriminant gives the variant back |
| SeqFeat.CloneSeqTypeCodeInjective | src/asn/seqfeat.rs:290-294 | `CloneSeqType`: no two variants share a discriminant |
| SeqFeat.CloneSeqConfidenceCode | src/asn/seqfeat.rs:296-308 | `CloneSeqConfidence`: each variant's discriminant is the value declared for it, among the declared values |
| SeqFeat.CloneSeqConfidenceFromCode | src/asn/seqfeat.rs:296-308 | `CloneSeqConfidence`: a code decodes exactly when it is a declared discriminant, to the variant with that discriminant |
| SeqFeat.CloneSeqConfidenceRoundTrip | src/asn/seqfeat.rs:296-308 | `CloneSeqConfidence`: decoding a variant's discriminant gives the variant back |
| SeqFeat.CloneSeqConfidenceCodeInjective | src/asn/seqfeat.rs:296-308 | `CloneSeqConfidence`: no two variants share a discriminant |
| SeqFeat.CloneSeqSupportCode | src/asn/seqfeat.rs:310-315 | `CloneSeqSupport`: each variant's discriminant is the value declared for it, among the declared values |
| SeqFeat.CloneSeqSupportFromCode | src/asn/seqfeat.rs:310-315 | `CloneSeqSupport`: a code decodes exactly when it is a declared discriminant, to the variant with that discriminant |
| SeqFeat.CloneSeqSupportRoundTrip | src/asn/seqfeat.rs:310-315 | `CloneSeqSupport`: decoding a variant's discriminant gives the variant back |
| SeqFeat.CloneSeqSupportCodeInjective | src/asn/seqfeat.rs:310-315 | `CloneSeqSupport`: no two variants share a discriminant |
| SeqFeat.VariantResourceLinkCode | src/asn/seqfeat.rs:326-333 | `VariantResourceLink`: each variant's discriminant is the value declared for it, among the declared values |
| SeqFeat.VariantResourceLinkFromCode | src/asn/seqfeat.rs:326-333 | `VariantResourceLink`: a code decodes exactly when it is a declared discriminant, to the variant with that discriminant |
| SeqFeat.VariantResourceLinkRoundTrip | src/asn/seqfeat.rs:326-333 | `VariantResourceLink`: decoding a variant's discriminant gives the variant back |
| SeqFeat.VariantResourceLinkCodeInjective | src/asn/seqfeat.rs:326-333 | `VariantResourceLink`: no two variants share a discriminant |
| SeqFeat.VariantGeneLocationCode | src/asn/seqfeat.rs:335-348 | `VariantGeneLocation`: each variant's discriminant is the value declared for it, among the declared values |
| SeqFeat.VariantGeneLocationFromCode | src/asn/seqfeat.rs:335-348 | `VariantGeneLocation`: a code decodes exactly when it is a declared discriminant, to the variant with that discriminant |
| SeqFeat.VariantGeneLocationRoundTrip | src/asn/seqfeat.rs:335-348 | `VariantGeneLocation`: decoding a variant's discriminant gives the variant back |
| SeqFeat.VariantGeneLocationCodeInjective | src/asn/seqfeat.rs:335-348 | `VariantGeneLocation`: no two variants share a discriminant |
| SeqFeat.VariantEffectCode | src/asn/seqfeat.rs:350-361 | `VariantEffect`: each variant's discriminant is the value declared for it, among the declared values |
| SeqFeat.VariantEffectFromCode | src/asn/seqfeat.rs:350-361 | `VariantEffect`: a code decodes exactly when it is a declared discriminant, to the variant with that discriminant |
| SeqFeat.VariantEffectRoundTrip | src/asn/seqfeat.rs:350-361 | `VariantEffect`: decoding a variant's discriminant gives the variant back |
| SeqFeat.VariantEffectCodeInjective | src/asn/seqfeat.rs:350-361 | `VariantEffect`: no two variants share a discriminant |
| SeqFeat.VariantMappingCode | src/asn/seqfeat.rs:363-367 | `VariantMapping`: each variant's discriminant is the value declared for it, among the declared values |
| SeqFeat.VariantMappingFromCode | src/asn/seqfeat.rs:363-367 | `VariantMapping`: a code decodes exactly when it is a declared discriminant, to the variant with that discriminant |
| SeqFeat.VariantMappingRoundTrip | src/asn/seqfeat.rs:363-367 | `VariantMapping`: decoding a variant's discriminant gives the variant back |
| SeqFeat.VariantMappingCodeInjective | src/asn/seqfeat.rs:363-367 | `VariantMapping`: no two variants share a discriminant |
| SeqFeat.VariantMapWeightCode | src/asn/seqfeat.rs:369-374 | `VariantMapWeight`: each variant's discriminant is the value declared for it, among the declared values |
| SeqFeat.VariantMapWeightFromCode | src/asn/seqfeat.rs:369-374 | `VariantMapWeight`: a code decodes exactly when it is a declared discriminant, to the variant with that discriminant |
| SeqFeat.VariantMapWeightRoundTrip | src/asn/seqfeat.rs:369-374 | `VariantMapWeight`: decoding a variant's discriminant gives the variant back |
| SeqFeat.VariantMapWeightCodeInjective | src/asn/seqfeat.rs:369-374 | `VariantMapWeight`: no two variants share a discriminant |
| SeqFeat.FrequencyBasedValidationCode | src/asn/seqfeat.rs:376-382 | `FrequencyBasedValidation`: each variant's discriminant is the value declared for it, among the declared values |
| SeqFeat.FrequencyBasedValidationFromCode | src/asn/seqfeat.rs:376-382 | `FrequencyBasedValidation`: a code decodes exactly when it is a declared discriminant, to the variant with that discriminant |
| SeqFeat.FrequencyBasedValidationRoundTrip | src/asn/seqfeat.rs:376-382 | `FrequencyBasedValidation`: decoding a variant's discriminant gives the variant back |
| SeqFeat.FrequencyBasedValidationCodeInjective | src/asn/seqfeat.rs:376-382 | `FrequencyBasedValidation`: no two variants share a discriminant |
| SeqFeat.VariantGenotypeCode | src/asn/seqfeat.rs:384-387 | `VariantGenotype`: each variant's discriminant is the value declared for it, among the declared values |
| SeqFeat.VariantGenotypeFromCode | src/asn/seqfeat.rs:384-387 | `VariantGenotype`: a code decodes exactly when it is a declared discriminant, to the variant with that discriminant |
| SeqFeat.VariantGenotypeRoundTrip | src/asn/seqfeat.rs:384-387 | `VariantGenotype`: decoding a variant's discriminant gives the variant back |
| SeqFeat.VariantGenotypeCodeInjective | src/asn/seqfeat.rs:384-387 | `VariantGenotype`: no two variants share a discriminant |
| SeqFeat.VariantQualityCheckCode | src/asn/seqfeat.rs:389-395 | `VariantQualityCheck`: each variant's discriminant is the value declared for it, among the declared values |
| SeqFeat.VariantQualityCheckFromCode | src/asn/seqfeat.rs:389-395 | `VariantQualityCheck`: a code decodes exactly when it is a declared discriminant, to the variant with that discriminant |
| SeqFeat.VariantQualityCheckRoundTrip | src/asn/seqfeat.rs:389-395 | `VariantQualityCheck`: decoding a variant's discriminant gives the variant back |
| SeqFeat.VariantQualityCheckCodeInjective | src/asn/seqfeat.rs:389-395 | `VariantQualityCheck`: no two variants share a discriminant |
| SeqFeat.VariantConfidenceCode | src/asn/seqfeat.rs:397-401 | `VariantConfidence`: each variant's discriminant is the value declared for it, among the declared values |
| SeqFeat.VariantConfidenceFromCode | src/asn/seqfeat.rs:397-401 | `VariantConfidence`: a code decodes exactly when it is a declared discriminant, to the variant with that discriminant |
| SeqFeat.VariantConfidenceRoundTrip | src/asn/seqfeat.rs:397-401 | `VariantConfidence`: decoding a variant's discriminant gives the variant back |
| SeqFeat.VariantConfidenceCodeInjective | src/asn/seqfeat.rs:397-401 | `VariantConfidence`: no two variants share a discriminant |
| SeqFeat.VariantAlleleOriginCode | src/asn/seqfeat.rs:403-417 | `VariantAlleleOrigin`: each variant's discriminant is the value declared for it, among the declared values |
| SeqFeat.VariantAlleleOriginFromCode | src/asn/seqfeat.rs:403-417 | `VariantAlleleOrigin`: a code decodes exactly when it is a declared discriminant, to the variant with that discriminant |
| SeqFeat.VariantAlleleOriginRoundTrip | src/asn/seqfeat.rs:403-417 | `VariantAlleleOrigin`: decoding a variant's discriminant gives the variant back |
| SeqFeat.VariantAlleleOriginCodeInjective | src/asn/seqfeat.rs:403-417 | `VariantAlleleOrigin`: no two variants share a discriminant |
| SeqFeat.VariantAlleleStateCode | src/asn/seqfeat.rs:419-426 | `VariantAlleleState`: each variant's discriminant is the value declared for it, among the declared values |
| SeqFeat.VariantAlleleStateFromCode | src/asn/seqfeat.rs:419-426 | `VariantAlleleState`: a code decodes exactly when it is a declared discriminant, to the variant with that discriminant |
| SeqFeat.VariantAlleleStateRoundTrip | src/asn/seqfeat.rs:419-426 | `VariantAlleleState`: decoding a variant's discriminant gives the variant back |
| SeqFeat.VariantAlleleStateCodeInjective | src/asn/seqfeat.rs:419-426 | `VariantAlleleState`: no two variants share a discriminant |
| SeqFeat.PhenotypeClinicalSignificanceCode | src/asn/seqfeat.rs:447-457 | `PhenotypeClinicalSignificance`: each variant's discriminant is the value declared for it, among the declared values |
| SeqFeat.PhenotypeClinicalSignificanceFromCode | src/asn/seqfeat.rs:447-457 | `PhenotypeClinicalSignificance`: a code decodes exactly when it is a declared discriminant, to the variant with that discriminant |
| SeqFeat.PhenotypeClinicalSignificanceRoundTrip | src/asn/seqfeat.rs:447-457 | `PhenotypeClinicalSignificance`: decoding a variant's discriminant gives the variant back |
| SeqFeat.PhenotypeClinicalSignificanceCodeInjective | src/asn/seqfeat.rs:447-457 | `PhenotypeClinicalSignificance`: no two variants share a discriminant |
| SeqFeat.PopulationDataFlagsCode | src/asn/seqfeat.rs:466-470 | `PopulationDataFlags`: each variant's discriminant is the value declared for it, among the declared values |
| SeqFeat.PopulationDataFlagsFromCode | src/asn/seqfeat.rs:466-470 | `PopulationDataFlags`: a code decodes exactly when it is a declared discriminant, to the variant with that discriminant |
| SeqFeat.PopulationDataFlagsRoundTrip | src/asn/seqfeat.rs:466-470 | `PopulationDataFlags`: decoding a variant's discriminant gives the variant back |
| SeqFeat.PopulationDataFlagsCodeInjective | src/asn/seqfeat.rs:466-470 | `PopulationDataFlags`: no two variants share a discriminant |
| SeqFeat.VariantRefMethodCode | src/asn/seqfeat.rs:486-514 | `VariantRefMethod`: each variant's discriminant is the value declared for it, among the declared values |
| SeqFeat.VariantRefMethodFromCode | src/asn/seqfeat.rs:486-514 | `VariantRefMethod`: a code decodes exactly when it is a declared discriminant, to the variant with that discriminant |
| SeqFeat.VariantRefMethodRoundTrip | src/asn/seqfeat.rs:486-514 | `VariantRefMethod`: decoding a variant's discriminant gives the variant back |
| SeqFeat.VariantRefMethodCodeInjective | src/asn/seqfeat.rs:486-514 | `VariantRefMethod`: no two variants share a discriminant |
| SeqFeat.VariationRefDataSetTypeCode | src/asn/seqfeat.rs:516-528 | `VariationRefDataSetType`: each variant's discriminant is the value declared for it, among the declared values |
| SeqFeat.VariationRefDataSetTypeFromCode | src/asn/seqfeat.rs:516-528 | `VariationRefDataSetType`: a code decodes exactly when it is a declared discriminant, to the variant with that discriminant |
| SeqFeat.VariationRefDataSetTypeRoundTrip | src/asn/seqfeat.rs:516-528 | `VariationRefDataSetType`: decoding a variant's discriminant gives the variant back |
| SeqFeat.VariationRefDataSetTypeCodeInjective | src/asn/seqfeat.rs:516-528 | `VariationRefDataSetType`: no two variants share a discriminant |
| SeqFeat.DeltaActionCode | src/asn/seqfeat.rs:598-604 | `DeltaAction`: each variant's discriminant is the value declared for it, among the declared values |
| SeqFeat.DeltaActionFromCode | src/asn/seqfeat.rs:598-604 | `DeltaAction`: a code decodes exactly when it is a declared discriminant, to the variant with that discriminant |
| SeqFeat.DeltaActionRoundTrip | src/asn/seqfeat.rs:598-604 | `DeltaAction`: decoding a variant's discriminant gives the variant back |
| SeqFeat.DeltaActionCodeInjective | src/asn/seqfeat.rs:598-604 | `DeltaAction`: no two variants share a discriminant |
| SeqFeat.VariationInstTypeCode | src/asn/seqfeat.rs:613-634 | `VariationInstType`: each variant's discriminant is the value declared for it, among the declared values |
| SeqFeat.VariationInstTypeFromCode | src/asn/seqfeat.rs:613-634 | `VariationInstType`: a code decodes exactly when it is a declared discriminant, to the variant with that discriminant |
| SeqFeat.VariationInstTypeRoundTrip | src/asn/seqfeat.rs:613-634 | `VariationInstType`: decoding a variant's discriminant gives the variant back |
| SeqFeat.VariationInstTypeCodeInjective | src/asn/seqfeat.rs:613-634 | `VariationInstType`: no two variants share a discriminant |
| SeqFeat.VariationInstObservationCode | src/asn/seqfeat.rs:636-640 | `VariationInstObservation`: each variant's discriminant is the value declared for it, among the declared values |
| SeqFeat.VariationInstObservationFromCode | src/asn/seqfeat.rs:636-640 | `VariationInstObservation`: a code decodes exactly when it is a declared discriminant, to the variant with that discriminant |
| SeqFeat.VariationInstObservationRoundTrip | src/asn/seqfeat.rs:636-640 | `VariationInstObservation`: decoding a variant's discriminant gives the variant back |
| SeqFeat.VariationInstObservationCodeInjective | src/asn/seqfeat.rs:636-640 | `VariationInstObservation`: no two variants share a discriminant |
| SeqFeat.RnaRefTypeCode | src/asn/seqfeat.rs:654-667 | `RnaRefType`: each variant's discriminant is the value declared for it, among the declared values |
| SeqFeat.RnaRefTypeFromCode | src/asn/seqfeat.rs:654-667 | `RnaRefType`: a code decodes exactly when it is a declared discriminant, to the variant with that discriminant |
| SeqFeat.RnaRefTypeRoundTrip | src/asn/seqfeat.rs:654-667 | `RnaRefType`: decoding a variant's discriminant gives the variant back |
| SeqFeat.RnaRefTypeCodeInjective | src/asn/seqfeat.rs:654-667 | `RnaRefType`: no two variants share a discriminant |
| SeqFeat.GeneNomenclatureStatusCode | src/asn/seqfeat.rs:720-724 | `GeneNomenclatureStatus`: each variant's discriminant is the value declared for it, among the declared values |
| SeqFeat.GeneNomenclatureStatusFromCode | src/asn/seqfeat.rs:720-724 | `GeneNomenclatureStatus`: a code decodes exactly when it is a declared discriminant, to the variant with that discriminant |
| SeqFeat.GeneNomenclatureStatusRoundTrip | src/asn/seqfeat.rs:720-724 | `GeneNomenclatureStatus`: decoding a variant's discriminant gives the variant back |
| SeqFeat.GeneNomenclatureStatusCodeInjective | src/asn/seqfeat.rs:720-724 | `GeneNomenclatureStatus`: no two variants share a discriminant |
| SeqFeat.OrgModSubTypeCode | src/asn/seqfeat.rs:761-802 | `OrgModSubType`: each variant's discriminant is the value declared for it, among the declared values |
| SeqFeat.OrgModSubTypeFromCode | src/asn/seqfeat.rs:761-802 | `OrgModSubType`: a code decodes exactly when it is a declared discriminant, to the variant with that discriminant |
| SeqFeat.OrgModSubTypeRoundTrip | src/asn/seqfeat.rs:761-802 | `OrgModSubType`: decoding a variant's discriminant gives the variant back |
| SeqFeat.OrgModSubTypeCodeInjective | src/asn/seqfeat.rs:761-802 | `OrgModSubType`: no two variants share a discriminant |
| SeqFeat.TaxElementFixedLevelCode | src/asn/seqfeat.rs:820-825 | `TaxElementFixedLevel`: each variant's discriminant is the value declared for it, among the declared values |
| SeqFeat.TaxElementFixedLevelFromCode | src/asn/seqfeat.rs:820-825 | `TaxElementFixedLevel`: a code decodes exactly when it is a declared discriminant, to the variant with that discriminant |
| SeqFeat.TaxElementFixedLevelRoundTrip | src/asn/seqfeat.rs:820-825 | `TaxElementFixedLevel`: decoding a variant's discriminant gives the variant back |
| SeqFeat.TaxElementFixedLevelCodeInjective | src/asn/seqfeat.rs:820-825 | `TaxElementFixedLevel`: no two variants share a discriminant |
| SeqFeat.BioSourceGenomeCode | src/asn/seqfeat.rs:834-860 | `BioSourceGenome`: each variant's discriminant is the value declared for it, among the declared values |
| SeqFeat.BioSourceGenomeFromCode | src/asn/seqfeat.rs:834-860 | `BioSourceGenome`: a code decodes exactly when it is a declared discriminant, to the variant with that discriminant |
| SeqFeat.BioSourceGenomeRoundTrip | src/asn/seqfeat.rs:834-860 | `BioSourceGenome`: decoding a variant's discriminant gives the variant back |
| SeqFeat.BioSourceGenomeCodeInjective | src/asn/seqfeat.rs:834-860 | `BioSourceGenome`: no two variants share a discriminant |
| SeqFeat.BioSourceOriginCode | src/asn/seqfeat.rs:863-872 | `BioSourceOrigin`: each variant's discriminant is the value declared for it, among the declared values |
| SeqFeat.BioSourceOriginFromCode | src/asn/seqfeat.rs:863-872 | `BioSourceOrigin`: a code decodes exactly when it is a declared discriminant, to the variant with that discriminant |
| SeqFeat.BioSourceOriginRoundTrip | src/asn/seqfeat.rs:863-872 | `BioSourceOrigin`: decoding a variant's discriminant gives the variant back |
| SeqFeat.BioSourceOriginCodeInjective | src/asn/seqfeat.rs:863-872 | `BioSourceOrigin`: no two variants share a discriminant |
| SeqFeat.SubSourceSubTypeCode | src/asn/seqfeat.rs:897-942 | `SubSourceSubType`: each variant's discriminant is the value declared for it, among the declared values |
| SeqFeat.SubSourceSubTypeFromCode | src/asn/seqfeat.rs:897-942 | `SubSourceSubType`: a code decodes exactly when it is a declared discriminant, to the variant with that discriminant |
| SeqFeat.SubSourceSubTypeRoundTrip | src/asn/seqfeat.rs:897-942 | `SubSourceSubType`: decoding a variant's discriminant gives the variant back |
| SeqFeat.SubSourceSubTypeCodeInjective | src/asn/seqfeat.rs:897-942 | `SubSourceSubType`: no two variants share a discriminant |
| SeqFeat.ProtRefProcessingStatusCode | src/asn/seqfeat.rs:951-959 | `ProtRefProcessingStatus`: each variant's discriminant is the value declared for it, among the declared values |
| SeqFeat.ProtRefProcessingStatusFromCode | src/asn/seqfeat.rs:951-959 | `ProtRefProcessingStatus`: a code decodes exactly when it is a declared discriminant, to the variant with that discriminant |
| SeqFeat.ProtRefProcessingStatusRoundTrip | src/asn/seqfeat.rs:951-959 | `ProtRefProcessingStatus`: decoding a variant's discriminant gives the variant back |
| SeqFeat.ProtRefProcessingStatusCodeInjective | src/asn/seqfeat.rs:951-959 | `ProtRefProcessingStatus`: no two variants share a discriminant |
| SeqFeat.TxsystemCode | src/asn/seqfeat.rs:970-980 | `Txsystem`: each variant's discriminant is the value declared for it, among the declared values |
| SeqFeat.TxsystemFromCode | src/asn/seqfeat.rs:970-980 | `Txsystem`: a code decodes exactly when it is a declared discriminant, to the variant with that discriminant |
| SeqFeat.TxsystemRoundTrip | src/asn/seqfeat.rs:970-980 | `Txsystem`: decoding a variant's discriminant gives the variant back |
| SeqFeat.TxsystemCodeInjective | src/asn/seqfeat.rs:970-980 | `Txsystem`: no two variants share a discriminant |
| SeqFeat.InitTypeCode | src/asn/seqfeat.rs:982-987 | `InitType`: each variant's discriminant is the value declared for it, among the declared values |
| SeqFeat.InitTypeFromCode | src/asn/seqfeat.rs:982-987 | `InitType`: a code decodes exactly when it is a declared discriminant, to the variant with that discriminant |
| SeqFeat.InitTypeRoundTrip | src/asn/seqfeat.rs:982-987 | `InitType`: decoding a variant's discriminant gives the variant back |
| SeqFeat.InitTypeCodeInjective | src/asn/seqfeat.rs:982-987 | `InitType`: no two variants share a discriminant |
| SeqFeat.TxEvidenceExpCodeCode | src/asn/seqfeat.rs:1004-1017 | `TxEvidenceExpCode`: each variant's discriminant is the value declared for it, among the declared values |
| SeqFeat.TxEvidenceExpCodeFromCode | src/asn/seqfeat.rs:1004-1017 | `TxEvidenceExpCode`: a code decodes exactly when it is a declared discriminant, to the variant with that discriminant |
| SeqFeat.TxEvidenceExpCodeRoundTrip | src/asn/seqfeat.rs:1004-1017 | `TxEvidenceExpCode`: decoding a variant's discriminant gives the variant back |
| SeqFeat.TxEvidenceExpCodeCodeInjective | src/asn/seqfeat.rs:1004-1017 | `TxEvidenceExpCode`: no two variants share a discriminant |
| SeqFeat.TxEvidenceExpressionSystemCode | src/asn/seqfeat.rs:1020-1029 | `TxEvidenceExpressionSystem`: each variant's discriminant is the value declared for it, among the declared values |
| SeqFeat.TxEvidenceExpressionSystemFromCode | src/asn/seqfeat.rs:1020-1029 | `TxEvidenceExpressionSystem`: a code decodes exactly when it is a declared discriminant, to the variant with that discriminant |
| SeqFeat.TxEvidenceExpressionSystemRoundTrip | src/asn/seqfeat.rs:1020-1029 | `TxEvidenceExpressionSystem`: decoding a variant's discriminant gives the variant back |
| SeqFeat.TxEvidenceExpressionSystemCodeInjective | src/asn/seqfeat.rs:1020-1029 | `TxEvidenceExpressionSystem`: no two variants share a discriminant |
| SeqLoc.NaStrandCode | src/asn/seqloc.rs:269-278 | `NaStrand`: each variant's discriminant is the value declared for it, among the declared values |
| SeqLoc.NaStrandFromCode | src/asn/seqloc.rs:269-278 | `NaStrand`: a code decodes exactly when it is a declared discriminant, to the variant with that discriminant |
| SeqLoc.NaStrandRoundTrip | src/asn/seqloc.rs:269-278 | `NaStrand`: decoding a variant's discriminant gives the variant back |
| SeqLoc.NaStrandCodeInjective | src/asn/seqloc.rs:269-278 | `NaStrand`: no two variants share a discriminant |
| SeqSet.BioSeqSetClassCode | src/asn/seqset.rs:18-92 | `BioSeqSetClass`: each variant's discriminant is the value declared for it, among the declared values |
| SeqSet.BioSeqSetClassFromCode | src/asn/seqset.rs:18-92 | `BioSeqSetClass`: a code decodes exactly when it is a declared discriminant, to the variant with that discriminant |
| SeqSet.BioSeqSetClassRoundTrip | src/asn/seqset.rs:18-92 | `BioSeqSetClass`: decoding a variant's discriminant gives the variant back |
| SeqSet.BioSeqSetClassCodeInjective | src/asn/seqset.rs:18-92 | `BioSeqSetClass`: no two variants share a discriminant |
| SeqTable.ColumnInfoFieldIdCode | src/asn/seqtable.rs:12-53 | `ColumnInfoFieldId`: each variant's discriminant is the value declared for it, among the declared values |
| SeqTable.ColumnInfoFieldIdFromCode | src/asn/seqtable.rs:12-53 | `ColumnInfoFieldId`: a code decodes exactly when it is a declared discriminant, to the variant with that discriminant |
| SeqTable.ColumnInfoFieldIdRoundTrip | src/asn/seqtable.rs:12-53 | `ColumnInfoFieldId`: decoding a variant's discriminant gives the variant back |
| SeqTable.ColumnInfoFieldIdCodeInjective | src/asn/seqtable.rs:12-53 | `ColumnInfoFieldId`: no two variants share a discriminant |

## Left out

- **Network.** `EUtil::get`, `fetch`/`fetch_data` and the HTTP half of `EFetch::fetch` and `ESearch::search` are left out. Only the URL and query pairs they send are modelled.
- **File I/O.** `get_local_xml` reads a file and is left out; the reader starts from the event list it would produce.
- **URL escaping.** Percent- and plus-encoding by the URL library's query serializer is not modelled. `build_url` is modelled as the ordered list of (key, value) pairs it appends.
- **XML tokenising.** quick_xml tokenising is not modelled: the events are given. A reader error is an `Error` event, and unwrapping it is a panic.
- **`SEQUENCE_DB`.** The list of sequence databases used by `EFetch::build_url` is not defined in any file of this model, so it is a parameter of `Fetch.BuildUrl`.
- **Logging.** The `println!`/`eprintln!` output is left out. Only which calls panic is modelled, and, for the tag watchdogs, how many warnings would be printed.
- **Readers whose code is not part of this model.** The `XmlNode` impls of `DbTag`, `Date`, `GeneRef`, `BioSource`, `ProtRef`, `SeqLoc`, `BioSeq` and `Pub` are stand-ins. Each keeps the events of its element up to the closing tag, unparsed, and gives None at end of file.
- **Collectors whose code is not part of this model.** `parse_vec_node_to` is a stand-in that stores the collected list when the tag matches. `XmlVecNode::vec_from_reader` is modelled by the `src/element.rs` collector.
- **`read_node`/`read_vec_node`.** These one-line delegations to the trait readers are left out. The model calls the readers directly.
- **Loops without an end-of-file check.** These loops would spin forever on truncated input. They give the outcome `Hang` when the events run out.
- **Floating point.** PSSM lambda, kappa and h, frequency ratios, `NumReal`, scaled real data, real scores, allele frequencies, `Graph<f64>`, the seq-graph `a`/`b` and `UserData::Real` are an opaque type. Nothing is proved about their values.
- **Seq-graph value type.** `IntGraph` values are `u64` in the source and `nat` in the model, without an upper bound.
- **Rest of the schema.** The seq-feature, seq-annotation, seq-history and seq-descriptor records and `src/asn/pub.rs` are declared only as far as the modelled types use them. Every fieldless enum they declare has its code table, with implicit discriminants counted from 0.
- **Crate wiring.** `src/lib.rs` and `src/asn/mod.rs` only wire the modules together and are not part of this model.
- **`tests/entrezgene.rs`.** It targets a different API and a data file that is not part of this model.
- **Live-service code.** `tests/bioseq.rs` and the crate's search example program call the live service and are not part of this model.
- **`SeqAlign` `dim`.** The default of 2 that the source mentions only as a TODO is not applied.
- ParsingUtils.InnerValue: takes the attribute value after XML entity unescaping. The panic of `unescape_value().unwrap()` on a malformed or unknown entity reference (src/parsing/utils.rs:52) is not modelled, because entity decoding belongs to quick_xml, which is not part of this model.
- **`src/biblio.rs`.** It is not part of this model. `src/medline.rs` takes its `CitArt` from there; the model uses the `CitArt` of `src/asn/biblio.rs` in its place.
- **`PackedSeg` presence bits.** `present` is kept as a byte string. How its bits map to (segment, sequence) pairs is not documented in the source and is not modelled.
- Fetch.IdsFromResult: takes each identifier of the search result as its decimal numeral. `EFetch::ids_from_result` calls `iter_id_list()` and `as_str()` on the result, and neither is defined in `src/eutils/esearchresult.rs`, where `id_list` is a `Vec<u64>`; what that accessor yields is not part of this model.
- ParseXml.RootLoopAgrees: relates the two `parse_xml` versions over one shared event list, not over one document. The two-root version calls `reader.trim_text(true)` (src/eutils.rs:114) and the one-root version does not (src/eutils/mod.rs:124-125), so from the same text only the first gets trimmed text events with the empty ones dropped. Whitespace-only text between tags therefore reaches the one-root version's integer-list readers, where it panics (see `ParsingUtils.NewlineInIntListPanics`). Trimming belongs to quick_xml's tokenising, which is not modelled.
- **`Eof` position.** The event lists are assumed to end at their first `Eof`, as quick_xml's reader produces them. A list with `Eof` before its last position is not ruled out, and the loops without an `Eof` arm would step past it; the real reader never yields an event after `Eof`.
- **`SeqTable.Rows`:** does not decode the real-valued and bit-vector arms. It gives None for them, because their values are floating point or whole bit vectors rather than integer rows.

## Findings

| source | as written | input that shows it | evidently intended | confidence | as-written member | corrected member |
|---|---|---|---|---|---|---|
| src/asn/seqfeat.rs:416 | `VariantAlleleOrigin::Other = 10732741824` | the value itself: it is not a power of two and exceeds 2^32, while every other flag is a single bit | `1073741824` (2^30): NCBI's seqfeat.asn gives `other` this value, and deleting the stray `2` from 10732741824 yields it | not executed | `SeqFeat.AlleleOriginOtherAsWritten` | `SeqFeat.AlleleOriginIntendedBits` |
| src/asn/seqalign.rs:74-93 | `DenseSeg.starts` is declared `Vec<u64>` | the documented example alignment (dim 3, numseg 6), whose starts include -1 for gaps | signed starts, so that -1 can mark a gap | not executed | `SeqAlign.DocumentedStartsOutOfRange` | `SeqAlign.DocumentedDenseSegValid` |
| src/asn/scoremat.rs:102-110 | `CoreDef` derives `Default` | the default core: `nblocks` 0 and no loop constraints | `nblocks + 1` loop constraints, as documented, so one loop for an empty core | not executed | `Scoremat.DerivedDefaultCoreDefInvalid` | `Scoremat.EmptyCoreDef` |
