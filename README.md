# word-downloader in Dafny

word-downloader reads a list of English words. It looks each one up in one or
more online dictionaries: Merriam-Webster, dict.cn, Bing and Collins. It keeps
every answer in a per-dictionary word log (`words.txt`) so that it never asks
twice, and it mirrors the pronunciation recordings into an `audio` directory.
Optionally it writes one Anki flash-card line per word.

This project models that program and proves what it promises:

- **The lookup cache** (`WordCache.Downloader`).
  - Start-up replays the log into an index.
  - `download` consults the index, asks the dictionary only when it must, and
    appends what it learns to the log.
  - A class invariant ties the index to what a restart would read back, and
    every download keeps it.
- **The asset store** (`AssetStore`).
  - `downloadFile` works on a filesystem modelled as a map from path to
    content.
  - The network is a `Transfer` value saying how far each download got.
  - Names follow `path.Base`.
- **`main`** (`WordLoop`).
  - Start-up sorts the dictionaries by card priority in place and builds one
    downloader for each, in that order.
  - For each word it asks each downloader in turn and collects the entries
    that came back.
  - The `noWait` fold decides whether to sleep.
  - A card line is written when asked for.
  - `RunAll` states what the whole word list does to the downloaders' caches
    and the stored files, line by line. `Run` and `Session` are proved
    against it.
- **The flash-card line** (`AnkiCsv`): `writeToAnkiCsv` and
  `escapeVerticalBar`.
- **The four dictionaries' entry types** (`Webster`, `Dictcn`, `Bing`,
  `Collins`, and the shared `Markup` tree): their accessors and HTML builders,
  and the rules their scraping callbacks apply to the text they extract. A page
  visit is the sequence of callback events it fires.

`Entries` is the `dict.Word` interface as `main.go` uses it. `EntryLog` is the
word log's line format and its replay. `Strings` holds the Go string
functions the program relies on (`strings.TrimSpace`, `Index`, `Split`,
`bufio.Reader.ReadBytes` chunks, decimal formatting).

Code that updates state in place is modelled as classes whose methods are
proved against the specification functions, as in the source:

- the downloader's index and log;
- the file store;
- the scraping collectors;
- the in-place sort.

Pure code is modelled as functions.

## Model

| member | source | states |
|---|---|---|
| Dict.Conclude | dict/webster/webster.go:283-292 | A failed visit is returned as that error. Otherwise the result is `ErrNotFound` exactly when no headword was captured, and any success carries the collected entry. |
| Strings.TrimSpaceTrims | main.go:109 | `TrimSpace` leaves no leading or trailing white space, never lengthens its input, and leaves an already trimmed string unchanged. |
| Strings.TrimSpaceIdempotent | main.go:205 | Trimming twice is trimming once. |
| Strings.TrimSpaceDropsFinalNewline | main.go:100-109 | A chunk whose only line feed is its last character has no line feed left once trimmed. |
| Strings.TrimSpaceOfLine | main.go:204-205 | A trimmed keyword followed by a line feed trims back to the keyword. |
| Strings.TrimPrefix | main.go:204 | With the prefix present, prefix + result is the input; otherwise the input is returned unchanged. |
| Strings.Index | dict/bingdict/bingdict.go:134-136 | `strings.Index` is -1 exactly when there is no occurrence, and otherwise it is the first occurrence. |
| Strings.FirstNonEmptySnoc | dict/webster/webster.go:232-234 | The first non-empty element of a list grown by one is the old one if there was one, else the new element. |
| Strings.Split | dict/dictcn/dictcn.go:225 | `strings.Split` gives at least one piece, no piece holds the separator, and joining the pieces gives the input back. |
| Strings.SplitJoin | main.go:330-340 | Splitting a join of separator-free pieces gives exactly those pieces back. |
| Strings.Lines | main.go:100 | The `ReadBytes('\n')` chunks of a text are non-empty and concatenate to the text. |
| Strings.LinesShape | main.go:100 | A chunk holds a line feed only as its last character, and every chunk but the last ends with one. |
| Strings.LinesAppend | main.go:225 | Appending a complete line to text that ends with a line feed adds exactly that one chunk. |
| Strings.TornLineIsGlued | main.go:196 | Text without a line feed followed by a complete line is read as one single chunk. |
| Strings.DecimalRoundTrip | dict/webster/webster.go:88 | The decimal text written for an entry number reads back as that number. |
| Markup.RenderSubDefinition | dict/webster/webster.go:138-152 | The builder loop produces the definition text block and then every example block, in order. |
| Markup.PosDiv | dict/webster/webster.go:115-119 | The part-of-speech block is empty exactly when the entry's part of speech is empty. |
| Markup.RenderDefinitionEntry | dict/webster/webster.go:111-131 | The builder loop produces the optional part-of-speech block and then one table row per sub-definition, in order. |
| Markup.NumberedConcatIsBlocks | dict/webster/webster.go:80-100 | A definition's entries are written as blocks numbered 1..n, the k-th holding the k-th entry. |
| Markup.RenderDefinition | dict/webster/webster.go:72-104 | The builder loop produces the abbreviated part of speech and then the numbered entry blocks. |
| Markup.RenderDefinitions | dict/webster/webster.go:57-59 | The loop over `Defs` concatenates every definition's HTML in order. |
| Markup.ShowWordInsertsHeadword | dict/webster/webster.go:45-63 | Asking for the headword inserts exactly its this-word block after the dictionary-name block and changes nothing else. |
| Markup.PronunciationLine | dict/webster/webster.go:41-43 | The line is the syllables, then " \| /", then the phonetic spelling, then "/". |
| Webster.PartOfSpeech | dict/webster/webster.go:295-303 | "transitive verb" becomes "vt.", "intransitive verb" becomes "vi.", and every other string is kept. |
| Webster.Word.Mp3 | dict/webster/webster.go:35-39 | Always the one-element list holding the scraped URL, even when that URL is empty. |
| Webster.DefinitionHtml | dict/webster/webster.go:45-63 | The builder produces the frame: the opening, the name, the headword block when asked for, every definition, then the close. |
| Webster.Mp3Url | dict/webster/webster.go:218-221 | The URL is the media prefix, the data-dir, "/", the data-file and ".mp3". |
| Webster.Senses | dict/webster/webster.go:248-267 | The sense scan reads spans from 0 until the first empty one, the last existing one or span 99, and takes letter + " " + dtText for each. |
| Webster.ScanSenses | dict/webster/webster.go:248-267 | The bounded `for` loop computes exactly those sub-definitions. |
| Webster.GroupEntries | dict/webster/webster.go:242-269 | One definition entry per sense block of a verb group, each labelled with the group's `.vd` text. |
| Webster.BuildEntries | dict/webster/webster.go:242-270 | The nested verb-group and sense-block loops compute the section's entries, group after group. |
| Webster.Collector.OnPronunciation | dict/webster/webster.go:209-223 | Only the first non-empty pronunciation is taken, together with its audio URL. |
| Webster.Collector.OnSyllables | dict/webster/webster.go:224-228 | Syllables are set only while still empty. |
| Webster.Collector.OnEntryHeader | dict/webster/webster.go:231-272 | The first headword wins. Every header bumps the counter and appends a definition built from the next numbered section. |
| Webster.CollectFirstWins | dict/webster/webster.go:224-234 | After a visit, the headword and the syllables are the first non-empty texts seen. |
| Webster.CollectAudio | dict/webster/webster.go:209-223 | The pronunciation and the URL both come from the first `.col` with a pronunciation; without one both stay empty. |
| Webster.CollectDefinitions | dict/webster/webster.go:230-272 | There is one definition per header, in order, the k-th built from section k+1, and the counter ends at the number of headers. |
| Webster.Lookup | dict/webster/webster.go:283-292 | A visit error is returned as is. Otherwise the result is `ErrNotFound` exactly when every headword text was empty, and success is the collected entry. |
| Dictcn.PartOfSpeech | dict/dictcn/dictcn.go:291-299 | "transitive verb" becomes "vt.", "intransitive verb" becomes "v.", and every other string is kept. |
| Dictcn.Word.Mp3 | dict/dictcn/dictcn.go:36-40 | Exactly the American female recording. |
| Dictcn.Word.Pronunciation | dict/dictcn/dictcn.go:42-44 | The American phonetic spelling between two slashes. |
| Dictcn.DefinitionHtml | dict/dictcn/dictcn.go:46-65 | The builder produces the frame with the basic definitions, in order, inside the basic-def-list block. |
| Dictcn.GlossariesNotRendered | dict/dictcn/dictcn.go:46-65 | The detailed glossaries (`Defs`) never affect the rendering. |
| Dictcn.WithAudioHost | dict/dictcn/dictcn.go:198-209 | A recording path gets the "http://audio.dict.cn/" prefix exactly when it is non-empty; an empty one stays empty. |
| Dictcn.AssignSpansClosedForm | dict/dictcn/dictcn.go:187-197 | Span 0 fills the British voice, and the last later span fills the American one; with fewer spans, the untouched voice keeps its value. |
| Dictcn.Collector.OnPhonetic | dict/dictcn/dictcn.go:186-210 | The span loop followed by the four conditional prefixes computes the phonetic rule. |
| Dictcn.KeepExamplesShape | dict/dictcn/dictcn.go:225-231 | Every example kept is non-empty and trimmed, and there are no more examples than lines. |
| Dictcn.KeepExamplesAppend | dict/dictcn/dictcn.go:225-231 | Examples keep the order of their lines. |
| Dictcn.SingleLineExample | dict/dictcn/dictcn.go:225-231 | One line of text gives its trimmed self as the only example, or none when it is blank. |
| Dictcn.SplitExamples | dict/dictcn/dictcn.go:225-231 | The split, trim and drop loop computes the examples of a list item. |
| Dictcn.Attached | dict/dictcn/dictcn.go:214-241 | There is one entry per span, with its trimmed text as part of speech; entry i holds list i's items only when list i has been attached. |
| Dictcn.AttachedStep | dict/dictcn/dictcn.go:221-241 | Attaching list l changes only entry l, and nothing at all when there is no such entry. |
| Dictcn.ExtraListsIgnored | dict/dictcn/dictcn.go:221-222 | Lists beyond the number of spans make no difference. |
| Dictcn.AppendItems | dict/dictcn/dictcn.go:223-239 | The item loop appends each item's sub-definition to the entry in place. |
| Dictcn.ExtractEntries | dict/dictcn/dictcn.go:212-246 | `extractDict`'s two loops pair the i-th list with the i-th span. |
| Dictcn.KeepBasicFilters | dict/dictcn/dictcn.go:258-268 | Exactly the basic definitions with a non-empty definition are kept: each kept one comes from an item with a non-empty definition, and every such item is kept. |
| Dictcn.KeepBasicAppend | dict/dictcn/dictcn.go:258-268 | Basic definitions keep their document order. |
| Dictcn.Collect | dict/dictcn/dictcn.go:181-268 | The entry after a visit follows the callbacks' rules in event order. |
| Dictcn.CollectBasicDefs | dict/dictcn/dictcn.go:258-268 | The entry's basic definitions are the kept items of all the visit's basic lists, in document order, whatever other callbacks fire in between. |
| Dictcn.CollectGlossaries | dict/dictcn/dictcn.go:248-256 | There is one glossary per glossary section, in event order, each under its section's fixed name and holding that section's paired entries. |
| Dictcn.CollectAudio | dict/dictcn/dictcn.go:186-210 | The recordings depend on the `.phonetic` matches alone: each match's spans are applied in document order, starting from empty recordings. |
| Dictcn.Collector.OnKeyword | dict/dictcn/dictcn.go:183-185 | Every keyword match overwrites the headword. |
| Dictcn.Collector.OnLayout | dict/dictcn/dictcn.go:248-256 | Each glossary section appends one glossary under its fixed name. |
| Dictcn.Collector.OnBasicList | dict/dictcn/dictcn.go:258-268 | The item loop appends the kept basic definitions in place. |
| Dictcn.CollectHeadword | dict/dictcn/dictcn.go:183-185 | The headword is the last keyword text of the visit. |
| Dictcn.Lookup | dict/dictcn/dictcn.go:279-288 | A visit error is returned as is. Otherwise the result is `ErrNotFound` exactly when the last keyword text is empty, and success is the collected entry. |
| Bing.Word.Mp3 | dict/bingdict/bingdict.go:42-47 | The British recording, then the American one. |
| Bing.Word.Pronunciation | dict/bingdict/bingdict.go:98-100 | Always empty. |
| Bing.Word.DefinitionHtml | dict/bingdict/bingdict.go:102-104 | Always empty, whatever the flag. |
| Bing.Mp3Link | dict/bingdict/bingdict.go:132-141 | A link is taken exactly when "https" is found past position 0 and ".mp3" after it. It is the slice between them, so it starts with "https" and ends with ".mp3". |
| Bing.LeadingLinkIgnored | dict/bingdict/bingdict.go:135 | An attribute starting with "https" yields no link. |
| Bing.EmbeddedLinkFound | dict/bingdict/bingdict.go:146-155 | A link standing after a non-empty prefix, with no earlier "https" or ".mp3", is extracted exactly. |
| Bing.Collector.OnUSAudio | dict/bingdict/bingdict.go:132-141 | The American link is set by the slice rule and left unchanged otherwise. |
| Bing.Collector.OnUKAudio | dict/bingdict/bingdict.go:146-155 | The British link is set by the same rule. |
| Bing.Collector.OnSimpleDef | dict/bingdict/bingdict.go:160-165 | The simple definition is captured under "simple-def". |
| Bing.Collector.OnSection | dict/bingdict/bingdict.go:173-209 | Each definition section appends one definition. |
| Bing.Prepend | dict/bingdict/bingdict.go:247-251 | A captured simple definition becomes the first definition, its raw form wrapped with the plural, and the others keep their order. Without one, nothing changes. |
| Bing.Outcome | dict/bingdict/bingdict.go:242-257 | The visit error comes first, then the prepend, then the not-found check on the headword. |
| Bing.Collector.Finish | dict/bingdict/bingdict.go:242-257 | The code after the visit rebuilds the definitions in place and gives that outcome. |
| Bing.CollectSections | dict/bingdict/bingdict.go:123-209 | The headword is the last one captured, and the collected definitions are exactly the sections' ones in event order. |
| Bing.SectionNames | dict/bingdict/bingdict.go:182-207 | Every section definition is filed under "auth", "homo" or "cross". |
| Bing.CollectSimpleDef | dict/bingdict/bingdict.go:160-165 | A captured simple definition is filed under "simple-def". |
| Bing.Lookup | dict/bingdict/bingdict.go:242-257 | The result is `ErrNotFound` exactly when no headword was captured. A success holds the sections' definitions, preceded by the simple definition when one was captured. |
| Collins.PartOfSpeech | dict/collins/collins.go:225-233 | "transitive verb" becomes "vt.", "intransitive verb" becomes "v.", and every other string is kept. |
| Collins.Word.Mp3 | dict/collins/collins.go:34-38 | Always the one-element list of the recording URL. |
| Collins.DefinitionHtml | dict/collins/collins.go:44-58 | The builder produces the content wrapper, the headword block, every definition and the close. |
| Collins.HeadwordAlwaysShown | dict/collins/collins.go:44-58 | The rendering always starts with the wrapper and the headword block and ends by closing the wrapper. |
| Collins.CollectLeavesEmpty | dict/collins/collins.go:199-202 | The title callback never changes the entry, so it stays the zero value. |
| Collins.Lookup | dict/collins/collins.go:213-222 | A visit error is returned as is, and otherwise the result is `ErrNotFound`: Collins never yields an entry. |
| Entries.Word.Mp3 | main.go:253 | An entry lists one recording, or two for Bing. |
| Entries.DefinitionHtml | main.go:320 | Each entry renders by its own dictionary's rule. |
| Entries.ShowWordEffect | main.go:320 | The flag changes Bing and Collins renderings not at all. For Webster and dict.cn it inserts exactly the headword block after the dictionary name. |
| EntryLog.NotFoundLineReadsBack | main.go:203-207 | The not-found line written for a trimmed keyword reads back as that keyword, missing. |
| EntryLog.EntryLineReadsBack | main.go:209-213 | An entry line reads back as the entry written, under the serialisation laws. |
| EntryLog.ReplayFailsOnUnreadable | main.go:209-212 | Start-up fails exactly when some line is unreadable. |
| EntryLog.ReplayLastWins | main.go:200-213 | A word is indexed exactly when some line is about it, and then with what the last such line says. |
| EntryLog.ReplayKeepsKeys | main.go:191-215 | A word once read stays indexed however much is appended to the log. |
| EntryLog.ReplayAfterNotFound | main.go:225 | Appending a not-found line marks the keyword missing on the next start-up and changes nothing else. |
| EntryLog.ReplayAfterEntry | main.go:244 | Appending an entry line indexes the entry under its headword on the next start-up and changes nothing else. |
| EntryLog.TornLineSwallowsNext | main.go:196-207 | A log whose last line has no line feed glues it to the next line appended. |
| EntryLog.ReplayKeysHeadwords | main.go:213 | Start-up indexes every entry under its own headword, not under the keyword it was looked up by. |
| AssetStore.CachedIffPresent | main.go:275-282 | The result is cached exactly when there is a URL and its file exists, and then nothing changes. An empty URL gives (false, no error) and changes nothing. |
| AssetStore.TargetOnlyFromCompleteCopy | main.go:283-300 | The target appears only by renaming a completely copied body. On every error path the target is as it was, and an existing target is never touched. |
| AssetStore.OtherFilesUntouched | main.go:275-301 | Only the target and its ".tmp" file can change. |
| AssetStore.RefetchIsCached | main.go:279-282 | After a successful download, asking again is answered from the store. |
| AssetStore.FileStore.DownloadFile | main.go:275-301 | Step by step, the stat, create, get, copy and rename leave the result and the files that `Fetch` describes. |
| AssetStore.FileStore.DownloadMp3 | main.go:265-268 | The recording is stored at the audio path of its URL's base name. |
| AssetStore.Base | main.go:266 | `path.Base` is never empty, is "/" or holds no slash, and is "." for the empty path. |
| AssetStore.BaseOfName | main.go:266 | A URL ending in "/name" has base "name". |
| AssetStore.Mp3PathOfName | main.go:265-268 | A recording named by a plain file name lands in `<dict>/audio/<name>`. |
| WordCache.ShortCuts | main.go:218-222 | An indexed entry is served as cached, a word known missing is refused as not cached, and with online queries off an unknown word is refused as cached. None of them asks the dictionary or writes the log. |
| WordCache.FreshLookup | main.go:223-250 | Success appends exactly the entry line and indexes it under keyword and headword. `ErrNotFound` appends exactly the not-found line and leaves the index. Any other error records nothing. |
| WordCache.ExistMeansIndexed | main.go:241-250 | A served entry is reported indexed exactly when the keyword was indexed, and then nothing is written; the log only grows. |
| WordCache.LoadedAgrees | main.go:191-215 | Right after start-up, the index agrees with the log. |
| WordCache.AgreesAfterNotFound | main.go:224-229 | A not-found line for an unindexed keyword keeps the agreement. |
| WordCache.AgreesAfterEntry | main.go:243-250 | An entry line with the two index updates keeps the agreement. |
| WordCache.ConsultKeepsAgreement | main.go:217-250 | Every download of a keyword keeps the index in agreement with the log. |
| WordCache.LoggedWordsServedFromMemory | main.go:218-241 | A word the log records as found is served from memory with that entry, whatever the dictionary says. |
| WordCache.MirrorAllCached | main.go:252-260 | All recordings count as cached exactly when every URL is non-empty and its file exists, and then nothing is written. |
| WordCache.EmptyUrlNotCached | main.go:276-278 | An empty recording URL makes the entry not cached. |
| WordCache.AnswerCachedMeans | main.go:217-263 | `download` reports `cached` exactly in two cases. Either the keyword had an indexed entry and, when recordings are wanted, every one of them was already stored. Or the keyword was unknown and online queries were off. |
| WordCache.AnswerErrMeans | main.go:217-262 | An entry comes with no error, and an error with no entry. The error is `ErrNotFound` exactly when the keyword is known missing, or unknown with online queries off, or unknown and not found by the dictionary. |
| WordCache.AnswerKeepsFiles | main.go:251-260 | The file store changes only when an entry is served with recordings wanted. |
| WordCache.AnswerKeepsEntries | main.go:217-250 | The index only grows and never loses an entry. A served keyword is afterwards indexed with the entry served. |
| WordCache.KnownIsServed | main.go:218-241 | A keyword with an entry gets that entry with no error, whatever the dictionary would say. The cache is left unchanged. |
| WordCache.NeverAskedTwice | main.go:217-250 | Once a keyword has been served, asking again serves the same entry and leaves the cache unchanged, whatever the flags, the dictionary or the network do then. |
| WordCache.AnswerKeepsValid | main.go:217-250 | Every `download` of a trimmed keyword without a line feed keeps the downloader invariant. |
| WordCache.Downloader.LoadAllFinished | main.go:191-215 | The read loop builds exactly the replayed index, fails exactly when a line is unreadable, and establishes the invariant. |
| WordCache.Downloader.constructor | main.go:149-160 | A downloader for the dictionary, with its codec, directory and log contents, and an empty index. |
| WordCache.Downloader.NewDownloader | main.go:149-189 | A fresh downloader for the dictionary over its log's contents, loaded as above. |
| WordCache.Downloader.Download | main.go:217-263 | It returns the cache decision with the index and log it leaves. Served entries have error nil, and `cached` is indexed AND every recording cached. The store is updated by the recording fetches, and the invariant is kept. |
| WordCache.Downloader.ConsultIndex | main.go:218-250 | The branches before the recordings compute the cache decision in place. |
| WordCache.Downloader.MirrorRecordings | main.go:252-260 | The recordings loop fetches every URL in turn and ANDs their cached flags. |
| AnkiCsv.EscapedHasNoBar | main.go:345-347 | The escaped string holds no '\|'. |
| AnkiCsv.EscapeKeepsBarFree | main.go:345-347 | A string without '\|' is left as it is. |
| AnkiCsv.EscapeAppend | main.go:345-347 | Escaping works piece by piece. |
| AnkiCsv.EscapedLength | main.go:345-347 | Each '\|' grows the string by two characters. |
| AnkiCsv.WriteToAnkiCsv | main.go:303-343 | The builder loop produces the card line for the entries. |
| AnkiCsv.CardWordIsFirstHeadword | main.go:313-319 | The card's word is the first non-empty headword of the entries. |
| AnkiCsv.NoWebsterNoSound | main.go:321-326 | Without a Webster entry, the sound stays empty. |
| AnkiCsv.SoundIsLastWebster | main.go:321-326 | The sound is the base name of the last Webster entry's recording. |
| AnkiCsv.FiveFields | main.go:330-340 | When the word and the sound name hold no '\|', the line is exactly the five fields (the third empty) separated by '\|', then a line feed. |
| WordLoop.Score | main.go:30-35 | Every dictionary has a score below 4. |
| WordLoop.ScoreInjective | main.go:30-35 | Different dictionaries have different scores. |
| WordLoop.CardOrder | main.go:30-35 | Collins comes before Webster, Webster before dict.cn, and dict.cn before Bing. |
| WordLoop.SortByScore | main.go:89-91 | The dictionaries are sorted in place by non-decreasing score, as a permutation of the configured ones. |
| WordLoop.SortedArrangementUnique | main.go:89-91 | Any two sorted arrangements of the same dictionaries are equal, so the unstable sort's order is fully determined. |
| WordLoop.NoWaitMeans | main.go:106-110 | `noWait` holds exactly when every source not followed, at or after it, by an `ErrNotFound` was cached. |
| WordLoop.NoWaitCases | main.go:110 | A word every source had cached is never waited for. A last source that fetched and was not `ErrNotFound` forces the wait. |
| WordLoop.Start | main.go:89-95 | The dictionaries are sorted in place into card order, as a permutation. Start-up succeeds exactly when every dictionary's log replays. There is then one fresh, distinct downloader per sorted dictionary, in that order, each with its codec, type-name directory, log and replayed index. All of them are valid when the codecs are lawful and the logs end with a line feed. |
| WordLoop.BuildAll | main.go:92-95 | The `newDownloader` loop builds exactly those downloaders, in the dictionaries' order, or stops at the first unreadable log. |
| WordLoop.BuiltValid | main.go:92-95 | Downloaders freshly loaded from lawful codecs and complete logs are all valid. |
| WordLoop.SuccessesAreTheSuccessful | main.go:108-113 | The k-th collected entry is the entry of the k-th error-free answer. The error-free positions increase strictly and include every error-free answer, so each one is collected exactly once, in the downloaders' order. |
| WordLoop.Tally | main.go:110-113 | One more answer extends the `noWait` fold and the collected entries as the loop does. |
| WordLoop.AskAllAnswers | main.go:108-109 | The i-th downloader's outcome and cache are its `download` of the word. It works on its own cache from before the word and on the files the earlier downloaders left. |
| WordLoop.AskAllUntouched | main.go:108-109 | Downloaders not yet asked keep their caches. |
| WordLoop.AskAllKeepsValid | main.go:108-109 | Every downloader stays valid while a keyword goes round. |
| WordLoop.AskAllKeepsEntries | main.go:108-109 | No downloader forgets an entry while a word goes round. |
| WordLoop.Ask | main.go:109 | One downloader's outcome, its cache and the file store afterwards are exactly `Answer` of its configuration, its cache and the files before. |
| WordLoop.AskNext | main.go:108-109 | One pass of the inner loop asks the next downloader and leaves the others' caches as they were. |
| WordLoop.ProcessWord | main.go:105-114 | The keyword is the trimmed line. Afterwards the outcomes, every downloader's cache and the file store are those of all downloaders answering in turn from the state before. The collected entries and `noWait` are the successes and the fold of those outcomes. |
| WordLoop.KeywordOfLine | main.go:100-109 | A line read from the word list gives a trimmed keyword without a line feed. |
| WordLoop.WriteCard | main.go:117-119 | A card line is written only when cards are asked for and some dictionary answered. |
| WordLoop.RunAllPrefix | main.go:97-129 | The reports of the first lines do not depend on the lines after them. |
| WordLoop.RunAllReport | main.go:105-123 | The n-th report holds the n-th line's trimmed word, one outcome per downloader, the entries collected from them and the sleep decision. |
| WordLoop.RunAllStep | main.go:99-125 | One more line sends its word round the downloaders, starting from the caches and files the earlier lines left. |
| WordLoop.RunAllOutcome | main.go:105-109 | The i-th outcome for the n-th line is the i-th downloader's `download` of that line's word, on its cache as the earlier lines left it. |
| WordLoop.RunAllKeepsValid | main.go:99-125 | Every downloader stays valid through lines whose words are keywords. |
| WordLoop.WordListKeepsValid | main.go:97-129 | Every downloader stays valid through a whole word list. |
| WordLoop.KnownLater | main.go:99-125 | An entry a downloader holds is still held after any further lines. |
| WordLoop.ServedStaysServed | main.go:105-113 | A word a dictionary has served is served by it without error every later time it comes up, whatever the network does then. |
| WordLoop.Run | main.go:97-129 | One report per line of the word list. The reports, every downloader's cache and the file store are those of all the lines, in order, going round the downloaders from the state before. The card text is the card lines of the reports, in order, and every valid downloader stays valid. |
| WordLoop.RunNext | main.go:105-124 | One pass of the outer loop extends the reports, the card text and the state by one line. |
| WordLoop.HandleLine | main.go:105-124 | One pass of the loop: the line's report and card line, with the caches and files after its word went round. |
| WordLoop.Session | main.go:89-129 | Start-up, then the word list. When start-up succeeds, the reports, the card text, the caches and the stored files are determined by the sorted dictionaries, their logs, the flags and what the network does. When it fails, nothing is looked up. |

## Left out

- Scraping is not modelled: colly collectors, goquery selection and DOM rewriting, the HTTP clients and `NewDict`/`NewBingDict`. A visit is the sequence of callback events, carrying the texts their selectors extract. A visit error is an optional string.
- `encoding/json` behind `Json()` and `Parse` is not modelled. It is the `Entries.Codec` pair, and the downloader invariant requires its laws (`Entries.Lawful`): one line, starting with '{', parsing back to the entry. A codec is a parameter, not an axiom.
- The string values of `dict.Dictionary` and `Dictionary.Name()` are not part of this model. Both are function parameters (`name`, `typeName`). `Start` uses `typeName` as each dictionary's directory, as `newDownloader` does (main.go:150).
- Flag parsing, the dictionary names in `-dicts`, opening the word list and the card file, directory creation and `audio-error.txt` are left out (main.go:23-28, 37-87, 149-189). They are configuration and I/O. `NewDownloader` starts from the log's contents.
- `log.Fatalf` on a write error or an unreadable log line is not modelled as a crash. An unreadable line is `ok == false` from `LoadAllFinished`, and writes always succeed. A read error of the word list is left out.
- `time.Sleep` is not modelled. Only the decision is kept: the report's `slept`.
- The network is not modelled. A dictionary's answer to the n-th word is the `lookups` parameter, and how each recording's download ends is the `transfers` parameter.
- `os.Stat` errors other than "does not exist" are not modelled. Any existing path counts as cached.
- AssetStore.StorePath: `filepath.Join` is modelled only for what `path.Base` can return ("." and "/" resolve to the audio directory, ".." to the dictionary directory), with a clean dictionary directory.
- `downloadPic` is left out (main.go:270-273). It is never called.
- dict/dict.go is used for `ErrNotFound` only. Its struct types are not the ones `main.go` calls.
- Go's nil and empty slices are not distinguished: both are the empty sequence. A tombstone (`nil` entry) is `None`.
- Bing's `Pictures` is never filled and stays empty. The `Raw` HTML of Bing's sections and sentences is an extracted string.
- The dict.cn detailed glossaries, `Dict.DefinitionEntry.Html` and `SubDefinition.Html` are modelled as data, since `Word.DefinitionHtml` never renders them.
- `fmt` formatting beyond concatenation and all logging are left out.
- The word-list loop treats `noWait` as the code computes it, `(acc && cached) || err == ErrNotFound`. An `ErrNotFound` from a later source therefore cancels the sleep even after an earlier source fetched something.
- WordLoop.ProcessWord: the answers are stated for distinct downloaders, which is what `Start` builds. Validity is proved of the whole word list (`WordListKeepsValid`), because every line read gives a trimmed keyword without a line feed (`KeywordOfLine`).
- Callback order within a visit: colly runs each registered `OnHTML` callback over all of its selector's matches (those in document order) before it runs the next registered callback, so a real visit's events come grouped by callback. For example dict.cn glossaries come out as every `.layout.detail`, then every `.layout.dual`, then every `.layout.en` (dict/dictcn/dictcn.go:248-256), and Bing's sections as `#authid`, `#homoid`, `#crossid` (dict/bingdict/bingdict.go:173-209). The `Event` sequences of `Webster`, `Dictcn` and `Bing` are arbitrary, which includes that grouped order, so their collect lemmas state "in event order" and hold for every real visit; the grouping itself is not modelled.
- Naming the same dictionary twice in `-dicts` (main.go:41-58) gives two downloaders on the same directory, so they share `words.txt` and the `audio` directory (main.go:150, 174). Each of them opens `words.txt` on its own handle without `O_APPEND` (main.go:174; `audio-error.txt` at main.go:182 does have it) and reads it to the end at start-up (main.go:180). Each then writes at its own offset, starting from the end of the log as it was at start-up (main.go:225, 244), so the two overwrite each other's lines: lines are lost, and a torn line makes the next start-up's `loadAllFinished` stop. The model gives each downloader its own copy of the log, so a line one appends is not in the other's `log`. The files written do go to one shared store.
- WordCache.Downloader.Download: the invariant is kept for keywords that are trimmed and free of line feeds. A keyword with surrounding spaces would write a not-found line that replays under a different key.
- A log whose last line lacks its line feed (a torn write) is outside the invariant. `EntryLog.TornLineSwallowsNext` shows why: the next line appended is glued to it.
- The Collins `DefinitionHtml` takes no flag, as written, so `Entries.WordHtml` ignores the flag for Collins entries.
