// dict/webster/webster.go: the Merriam-Webster entry, its accessors and
// HTML rendering, and the rules by which `Lookup`'s scraping callbacks fill
// the entry in. The page itself (colly, goquery, HTTP) is not modelled: a
// visit is the sequence of callback events it fires, each carrying the text
// the selectors extracted.

module Webster {
  import opened Dict
  import opened Strings
  import Markup

  /** `partOfSpeech`: the two verb forms are abbreviated, anything else is
      kept as it is. */
  function PartOfSpeech(pos: string): (r: string)
    ensures pos == "transitive verb" ==> r == "vt."
    ensures pos == "intransitive verb" ==> r == "vi."
    ensures pos != "transitive verb" && pos != "intransitive verb" ==> r == pos
  {
    if pos == "transitive verb" then "vt."
    else if pos == "intransitive verb" then "vi."
    else pos
  }

  datatype Audio = Audio(syllables: string, pronunciation: string, mp3: string)

  datatype Word = Word(w: string, audio: Audio, defs: seq<Markup.Definition>)
  {
    /** `Word.Mp3`: always exactly one URL, the scraped one, even when it is
        empty. */
    function Mp3(): (r: seq<string>)
      ensures |r| == 1 && r[0] == audio.mp3
    {
      [audio.mp3]
    }

    /** `Word.Pronunciation`. */
    function Pronunciation(): string {
      Markup.PronunciationLine(audio.syllables, audio.pronunciation)
    }
  }

  /** The body of the rendering: every definition, then the wrapper's end. */
  function WordBody(word: Word): string {
    Markup.DefinitionsHtml(word.defs, PartOfSpeech) + "</div>"
  }

  /** What `Word.DefinitionHtml(showWord)` builds, `dictName` standing for
      `Type().Name()`: the word-content wrapper holding the dictionary name,
      the headword when asked for, and every definition in order. */
  function WordHtml(word: Word, showWord: bool, dictName: string): string {
    Markup.Framed(dictName, showWord, word.w, WordBody(word))
  }

  /** `Word.DefinitionHtml`. */
  method DefinitionHtml(word: Word, showWord: bool, dictName: string) returns (html: string)
    ensures html == WordHtml(word, showWord, dictName)
  {
    html := Markup.WordHead(dictName);
    if showWord {
      html := html + Markup.ThisWordDiv(word.w);
    }
    var defs := Markup.RenderDefinitions(word.defs, PartOfSpeech);
    html := html + defs + "</div>";
  }

  // ---------------------------------------------------------------------
  // Scraping rules of `Lookup`.

  const MediaPrefix := "https://media.merriam-webster.com/audio/prons/en/us/mp3/"

  /** The audio URL built from the play button's `data-dir` and `data-file`
      attributes. */
  function Mp3Url(dataDir: string, dataFile: string): (r: string)
    ensures |r| == |MediaPrefix| + |dataDir| + 1 + |dataFile| + 4
    ensures HasPrefix(r, MediaPrefix)
    ensures HasSuffix(r, ".mp3")
    ensures r[|MediaPrefix|..|r| - 4] == dataDir + "/" + dataFile
  {
    var middle := dataDir + "/" + dataFile;
    var r := MediaPrefix + middle + ".mp3";
    assert r[..|MediaPrefix|] == MediaPrefix;
    assert r[|r| - 4..] == ".mp3";
    assert r[|MediaPrefix|..|r| - 4] == middle;
    r
  }

  /** The `.sb-N` element with index N of one sense block, as far as the
      selectors see it: its whole text, its `.letter`, its `.dtText` and the
      texts of its `.mw_t_sp` examples. */
  datatype Span = Span(text: string, letter: string, dtText: string, examples: seq<string>)

  /** A `.vg` verb group: its `.vd` label and, for each of its `.sb` sense
      blocks, the spans `.sb-0`, `.sb-1`, ... that exist in it. */
  datatype VerbGroup = VerbGroup(vd: string, senseBlocks: seq<seq<Span>>)

  /** The sense scan never looks past `.sb-99`. */
  const MaxSpans: nat := 100

  function ExamplesOf(texts: seq<string>): (r: seq<Markup.Example>)
    ensures |r| == |texts|
    ensures forall i :: 0 <= i < |texts| ==> r[i] == Markup.Example(texts[i])
  {
    seq(|texts|, i requires 0 <= i < |texts| => Markup.Example(texts[i]))
  }

  /** A span's sub-definition: its letter, a space and its definition text,
      with its examples in document order. */
  function SubDefinitionOf(span: Span): Markup.SubDefinition {
    Markup.SubDefinition(span.letter + " " + span.dtText, ExamplesOf(span.examples))
  }

  function ScanBound(spans: seq<Span>): nat {
    if |spans| < MaxSpans then |spans| else MaxSpans
  }

  /** How many spans the scan reads from span `k` on: it stops at the first
      span with no text, after the last existing span or after `.sb-99`. */
  function SenseCount(spans: seq<Span>, k: nat): (n: nat)
    requires k <= ScanBound(spans)
    ensures k <= n <= ScanBound(spans)
    ensures forall j :: k <= j < n ==> spans[j].text != ""
    ensures n == ScanBound(spans) || spans[n].text == ""
    decreases ScanBound(spans) - k
  {
    if k == ScanBound(spans) || spans[k].text == "" then k else SenseCount(spans, k + 1)
  }

  /** The sub-definitions of a sense block: one per span read, in order. */
  function Senses(spans: seq<Span>): (r: seq<Markup.SubDefinition>)
    ensures |r| <= MaxSpans && |r| <= |spans|
    ensures forall j :: 0 <= j < |r| ==> spans[j].text != "" && r[j] == SubDefinitionOf(spans[j])
    ensures |r| == MaxSpans || |r| == |spans| || spans[|r|].text == ""
  {
    seq(SenseCount(spans, 0), j requires 0 <= j < SenseCount(spans, 0) => SubDefinitionOf(spans[j]))
  }

  /** The `for span := 0; span < 100; span++` scan of one sense block: a
      missing `.sb-N` element has empty text and ends the scan. */
  method ScanSenses(spans: seq<Span>) returns (subs: seq<Markup.SubDefinition>)
    ensures subs == Senses(spans)
  {
    ghost var n := |Senses(spans)|;
    subs := [];
    var span := 0;
    while span < MaxSpans
      invariant span <= n
      invariant subs == Senses(spans)[..span]
      decreases MaxSpans - span
    {
      var text := if span < |spans| then spans[span].text else "";
      if text == "" {
        break;
      }
      assert span < n;
      subs := subs + [SubDefinitionOf(spans[span])];
      span := span + 1;
    }
    assert span == n;
    assert Senses(spans)[..n] == Senses(spans);
  }

  /** The definition entries of one verb group: one per sense block, each
      labelled with the group's `.vd` text. */
  function GroupEntries(vg: VerbGroup): (r: seq<Markup.DefinitionEntry>)
    ensures |r| == |vg.senseBlocks|
    ensures forall j :: 0 <= j < |r| ==> r[j] == Markup.DefinitionEntry(vg.vd, Senses(vg.senseBlocks[j]))
  {
    seq(|vg.senseBlocks|, j requires 0 <= j < |vg.senseBlocks| => Markup.DefinitionEntry(vg.vd, Senses(vg.senseBlocks[j])))
  }

  /** The definition entries of one `#dictionary-entry-N` section: its verb
      groups' entries, group after group. */
  function SectionEntries(vgs: seq<VerbGroup>): seq<Markup.DefinitionEntry> {
    if vgs == [] then [] else SectionEntries(vgs[..|vgs| - 1]) + GroupEntries(vgs[|vgs| - 1])
  }

  /** The verb groups of section `#dictionary-entry-n`, `sections[n - 1]`;
      none when the page has no such section. */
  function Section(sections: seq<seq<VerbGroup>>, n: nat): seq<VerbGroup> {
    if 1 <= n <= |sections| then sections[n - 1] else []
  }

  /** The nested `.vg` / `.sb` iteration of the entry-header callback. */
  method BuildEntries(vgs: seq<VerbGroup>) returns (entries: seq<Markup.DefinitionEntry>)
    ensures entries == SectionEntries(vgs)
  {
    entries := [];
    var i := 0;
    while i < |vgs|
      invariant i <= |vgs|
      invariant entries == SectionEntries(vgs[..i])
    {
      assert vgs[..i + 1][..i] == vgs[..i];
      var vg := vgs[i];
      ghost var before := entries;
      var j := 0;
      while j < |vg.senseBlocks|
        invariant j <= |vg.senseBlocks|
        invariant entries == before + GroupEntries(vg)[..j]
      {
        var subs := ScanSenses(vg.senseBlocks[j]);
        assert GroupEntries(vg)[..j + 1] == GroupEntries(vg)[..j] + [Markup.DefinitionEntry(vg.vd, subs)];
        entries := entries + [Markup.DefinitionEntry(vg.vd, subs)];
        j := j + 1;
      }
      assert GroupEntries(vg)[..j] == GroupEntries(vg);
      i := i + 1;
    }
    assert vgs[..i] == vgs;
  }

  /** The callbacks a visit fires, in the order they fire, with what their
      selectors extracted. colly runs each registered callback over all its
      selector's matches (in document order) before the next one; the lemmas
      below hold for any order. */
  datatype Event =
    | PronunciationFound(prs: string, dataDir: string, dataFile: string)  // `.col`
    | SyllablesFound(text: string)                                        // `.word-syllables`
    | EntryHeaderFound(hword: string, fl: string)                         // `.row.entry-header`

  /** The state the callbacks share: the entry being built and the
      `dictionaryEntry` counter. */
  datatype Scrape = Scrape(out: Word, dictionaryEntry: nat)

  const Start := Scrape(Word("", Audio("", "", ""), []), 0)

  /** The effect of one callback. */
  function Step(sections: seq<seq<VerbGroup>>, s: Scrape, e: Event): Scrape {
    match e
    case PronunciationFound(prs, dataDir, dataFile) =>
      if prs != "" && s.out.audio.pronunciation == "" then
        s.(out := s.out.(audio := s.out.audio.(pronunciation := prs, mp3 := Mp3Url(dataDir, dataFile))))
      else s
    case SyllablesFound(text) =>
      if s.out.audio.syllables == "" then s.(out := s.out.(audio := s.out.audio.(syllables := text))) else s
    case EntryHeaderFound(hword, fl) =>
      var n := s.dictionaryEntry + 1;
      var def := Markup.Definition(fl, SectionEntries(Section(sections, n)));
      Scrape(s.out.(w := if s.out.w == "" then hword else s.out.w, defs := s.out.defs + [def]), n)
  }

  /** The state after a whole visit. */
  function Collect(sections: seq<seq<VerbGroup>>, events: seq<Event>): Scrape {
    if events == [] then Start else Step(sections, Collect(sections, events[..|events| - 1]), events[|events| - 1])
  }

  /** The captured closure of `Lookup`, updated in place by its callbacks. */
  class Collector {
    const sections: seq<seq<VerbGroup>>
    var out: Word
    var dictionaryEntry: nat

    constructor(sections: seq<seq<VerbGroup>>)
      ensures this.sections == sections
      ensures out == Start.out && dictionaryEntry == 0
    {
      this.sections := sections;
      out := Start.out;
      dictionaryEntry := 0;
    }

    function State(): Scrape
      reads this
    {
      Scrape(out, dictionaryEntry)
    }

    /** The `.col` callback: the first non-empty pronunciation wins, and the
        audio URL is taken from the same element. */
    method OnPronunciation(prs: string, dataDir: string, dataFile: string)
      modifies this
      ensures State() == Step(sections, old(State()), PronunciationFound(prs, dataDir, dataFile))
    {
      if prs != "" && out.audio.pronunciation == "" {
        out := out.(audio := out.audio.(pronunciation := prs));
        out := out.(audio := out.audio.(mp3 := Mp3Url(dataDir, dataFile)));
      }
    }

    /** The `.word-syllables` callback: only while no syllables are set. */
    method OnSyllables(text: string)
      modifies this
      ensures State() == Step(sections, old(State()), SyllablesFound(text))
    {
      if out.audio.syllables == "" {
        out := out.(audio := out.audio.(syllables := text));
      }
    }

    /** The `.row.entry-header` callback: the first headword wins; every
        header adds a definition built from the next numbered section. */
    method OnEntryHeader(hword: string, fl: string)
      modifies this
      ensures State() == Step(sections, old(State()), EntryHeaderFound(hword, fl))
    {
      if out.w == "" {
        out := out.(w := hword);
      }
      dictionaryEntry := dictionaryEntry + 1;
      var entries := BuildEntries(Section(sections, dictionaryEntry));
      out := out.(defs := out.defs + [Markup.Definition(fl, entries)]);
    }
  }

  function Headwords(events: seq<Event>): seq<string> {
    if events == [] then []
    else
      var e := events[|events| - 1];
      Headwords(events[..|events| - 1]) + (if e.EntryHeaderFound? then [e.hword] else [])
  }

  function SyllableTexts(events: seq<Event>): seq<string> {
    if events == [] then []
    else
      var e := events[|events| - 1];
      SyllableTexts(events[..|events| - 1]) + (if e.SyllablesFound? then [e.text] else [])
  }

  function PartsOfSpeech(events: seq<Event>): seq<string> {
    if events == [] then []
    else
      var e := events[|events| - 1];
      PartsOfSpeech(events[..|events| - 1]) + (if e.EntryHeaderFound? then [e.fl] else [])
  }

  /** The first pronunciation event carrying a non-empty pronunciation. */
  function FirstPronunciation(events: seq<Event>): (r: Option<Event>)
    ensures r.Some? ==> r.value in events && r.value.PronunciationFound? && r.value.prs != ""
    ensures r.None? ==> forall e :: e in events && e.PronunciationFound? ==> e.prs == ""
  {
    if events == [] then None
    else
      var init := events[..|events| - 1];
      var e := events[|events| - 1];
      var f := FirstPronunciation(init);
      assert forall x :: x in events ==> x in init || x == e;
      if f.Some? then f
      else if e.PronunciationFound? && e.prs != "" then Some(e)
      else None
  }

  /** First wins: the headword is the first non-empty `.hword` text of the
      visit, and the syllables the first non-empty `.word-syllables` text. */
  lemma {:induction false} CollectFirstWins(sections: seq<seq<VerbGroup>>, events: seq<Event>)
    ensures Collect(sections, events).out.w == FirstNonEmpty(Headwords(events))
    ensures Collect(sections, events).out.audio.syllables == FirstNonEmpty(SyllableTexts(events))
  {
    if events != [] {
      var init := events[..|events| - 1];
      var e := events[|events| - 1];
      CollectFirstWins(sections, init);
      if e.EntryHeaderFound? {
        FirstNonEmptySnoc(Headwords(init), e.hword);
        assert SyllableTexts(init) + [] == SyllableTexts(init);
      } else if e.SyllablesFound? {
        FirstNonEmptySnoc(SyllableTexts(init), e.text);
        assert Headwords(init) + [] == Headwords(init);
      } else {
        assert Headwords(init) + [] == Headwords(init);
        assert SyllableTexts(init) + [] == SyllableTexts(init);
      }
    }
  }

  /** The pronunciation and the audio URL come together from the first `.col`
      element with a non-empty pronunciation; without one both stay empty. */
  lemma {:induction false} CollectAudio(sections: seq<seq<VerbGroup>>, events: seq<Event>)
    ensures var a := Collect(sections, events).out.audio;
      match FirstPronunciation(events)
      case None => a.pronunciation == "" && a.mp3 == ""
      case Some(e) => a.pronunciation == e.prs && a.mp3 == Mp3Url(e.dataDir, e.dataFile)
  {
    if events != [] {
      CollectAudio(sections, events[..|events| - 1]);
    }
  }

  /** One definition per entry header, in order: the k-th carries the k-th
      header's part of speech and the entries of section k + 1; the counter
      ends at the number of headers. */
  lemma {:induction false} CollectDefinitions(sections: seq<seq<VerbGroup>>, events: seq<Event>)
    ensures var s := Collect(sections, events);
      && |s.out.defs| == |PartsOfSpeech(events)| == s.dictionaryEntry
      && forall k :: 0 <= k < |s.out.defs| ==>
           s.out.defs[k] == Markup.Definition(PartsOfSpeech(events)[k], SectionEntries(Section(sections, k + 1)))
  {
    if events != [] {
      CollectDefinitions(sections, events[..|events| - 1]);
    }
  }

  /** `Lookup`'s outcome after a visit that fired `events` (`visitErr` is the
      error `Visit` returned, if any). */
  function Lookup(sections: seq<seq<VerbGroup>>, events: seq<Event>, visitErr: Option<string>): (r: Result<Word>)
    ensures visitErr.Some? ==> r == Fail(ErrOther(visitErr.value))
    ensures visitErr.None? ==>
      (r == Fail(ErrNotFound) <==> forall i :: 0 <= i < |Headwords(events)| ==> Headwords(events)[i] == "")
    ensures r.Ok? ==> r.value == Collect(sections, events).out && r.value.w == FirstNonEmpty(Headwords(events))
  {
    var s := Collect(sections, events);
    CollectFirstWins(sections, events);
    Conclude(visitErr, s.out.w, s.out)
  }
}
