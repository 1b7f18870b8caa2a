// dict/dictcn/dictcn.go: the dict.cn entry, its accessors and HTML
// rendering, and the rules by which `Lookup`'s scraping callbacks fill the
// entry in. As for the other dictionaries, a visit is the sequence of
// callback events it fires, each carrying the text its selectors extracted.

module Dictcn {
  import opened Dict
  import opened Strings
  import Markup

  /** `partOfSpeech`: unlike the Webster rule, the intransitive form becomes
      "v.". */
  function PartOfSpeech(pos: string): (r: string)
    ensures pos == "transitive verb" ==> r == "vt."
    ensures pos == "intransitive verb" ==> r == "v."
    ensures pos != "transitive verb" && pos != "intransitive verb" ==> r == pos
  {
    if pos == "transitive verb" then "vt."
    else if pos == "intransitive verb" then "v."
    else pos
  }

  /** One accent's phonetic spelling and its two recordings. */
  datatype Voice = Voice(pronunciation: string, maleMp3: string, femaleMp3: string)

  datatype Audio = Audio(us: Voice, uk: Voice)

  datatype BasicDefinition = BasicDefinition(parOfSpeech: string, def: string)

  /** One of the detailed glossaries (`Dict` in the source): its name and its
      entries. */
  datatype Glossary = Glossary(dictName: string, defEntries: seq<Markup.DefinitionEntry>)

  datatype Word = Word(w: string, audio: Audio, basicDef: seq<BasicDefinition>, defs: seq<Glossary>)
  {
    /** `Word.Mp3`: exactly the American female recording. */
    function Mp3(): (r: seq<string>)
      ensures |r| == 1 && r[0] == audio.us.femaleMp3
    {
      [audio.us.femaleMp3]
    }

    /** `Word.Pronunciation`: the American phonetic spelling between slashes. */
    function Pronunciation(): (r: string)
      ensures |r| == |audio.us.pronunciation| + 2
      ensures r[0] == '/' && r[|r| - 1] == '/'
      ensures r[1..|r| - 1] == audio.us.pronunciation
    {
      "/" + audio.us.pronunciation + "/"
    }
  }

  const EmptyVoice := Voice("", "", "")
  const Empty := Word("", Audio(EmptyVoice, EmptyVoice), [], [])

  /** `BasicDefinition.Html`, with the misplaced quote of the class attribute
      kept as written. */
  function BasicDefinitionHtml(b: BasicDefinition): string {
    "<div class=\"basic-def>\"><span class=\"pos\">" + b.parOfSpeech + "</span>" + b.def + "</div>"
  }

  function BasicDefList(inner: string): string {
    "<div class=\"basic-def-list\">" + inner + "</div>"
  }

  /** The body of `Word.DefinitionHtml`: the basic definitions only, in order,
      inside the basic-def-list block, then the wrapper's end. */
  function WordBody(word: Word): string {
    BasicDefList(Markup.Concat(word.basicDef, BasicDefinitionHtml)) + "</div>"
  }

  /** What `Word.DefinitionHtml(showHeadWord)` builds, `dictName` standing
      for `Type().Name()`. */
  function WordHtml(word: Word, showHeadWord: bool, dictName: string): string {
    Markup.Framed(dictName, showHeadWord, word.w, WordBody(word))
  }

  /** The detailed glossaries are never rendered: replacing them leaves the
      HTML unchanged. */
  lemma GlossariesNotRendered(word: Word, defs: seq<Glossary>, showHeadWord: bool, dictName: string)
    ensures WordHtml(word.(defs := defs), showHeadWord, dictName) == WordHtml(word, showHeadWord, dictName)
  {
  }

  /** `Word.DefinitionHtml`. */
  method DefinitionHtml(word: Word, showHeadWord: bool, dictName: string) returns (html: string)
    ensures html == WordHtml(word, showHeadWord, dictName)
  {
    html := Markup.WordHead(dictName);
    if showHeadWord {
      html := html + Markup.ThisWordDiv(word.w);
    }
    var list := "";
    var i := 0;
    while i < |word.basicDef|
      invariant i <= |word.basicDef|
      invariant list == Markup.Concat(word.basicDef[..i], BasicDefinitionHtml)
    {
      Markup.ConcatSnoc(word.basicDef, i, BasicDefinitionHtml);
      list := list + BasicDefinitionHtml(word.basicDef[i]);
      i := i + 1;
    }
    assert word.basicDef[..i] == word.basicDef;
    AppendAssoc(html, BasicDefList(list), "</div>");
    html := html + BasicDefList(list) + "</div>";
  }

  // ---------------------------------------------------------------------
  // Scraping rules of `Lookup`.

  const AudioHost := "http://audio.dict.cn/"

  /** The host prefix given to a scraped audio path: only a non-empty path
      gets it. */
  function WithAudioHost(path: string): (r: string)
    ensures r == "" <==> path == ""
    ensures path != "" ==> HasPrefix(r, AudioHost) && r[|AudioHost|..] == path
  {
    if path != "" then AudioHost + path else path
  }

  function HostVoice(v: Voice): Voice {
    v.(maleMp3 := WithAudioHost(v.maleMp3), femaleMp3 := WithAudioHost(v.femaleMp3))
  }

  /** One `span` of a `.phonetic` element: its `bdo` text and the `naudio`
      attributes of its second and third children ("" when absent). */
  datatype PhoneticSpan = PhoneticSpan(bdo: string, secondAudio: string, thirdAudio: string)

  function VoiceOf(span: PhoneticSpan): Voice {
    Voice(span.bdo, span.thirdAudio, span.secondAudio)
  }

  /** The span loop of the `.phonetic` callback, span by span: span 0 writes
      the British voice, every other span the American one. */
  function AssignSpans(audio: Audio, spans: seq<PhoneticSpan>): Audio {
    if spans == [] then audio
    else
      var a := AssignSpans(audio, spans[..|spans| - 1]);
      if |spans| - 1 == 0 then a.(uk := VoiceOf(spans[0])) else a.(us := VoiceOf(spans[|spans| - 1]))
  }

  /** Span 0 fills the British voice and the last of the later spans wins the
      American one; with fewer spans the untouched voice keeps its value. */
  lemma {:induction false} AssignSpansClosedForm(audio: Audio, spans: seq<PhoneticSpan>)
    ensures AssignSpans(audio, spans).uk == if |spans| >= 1 then VoiceOf(spans[0]) else audio.uk
    ensures AssignSpans(audio, spans).us == if |spans| >= 2 then VoiceOf(spans[|spans| - 1]) else audio.us
  {
    if spans != [] {
      var init := spans[..|spans| - 1];
      AssignSpansClosedForm(audio, init);
      if |init| >= 1 {
        assert init[0] == spans[0];
      }
    }
  }

  /** The whole `.phonetic` callback: the span loop, then the host prefix on
      each of the four recordings that is set. */
  function PhoneticAudio(audio: Audio, spans: seq<PhoneticSpan>): Audio {
    var a := AssignSpans(audio, spans);
    Audio(HostVoice(a.us), HostVoice(a.uk))
  }

  /** One `li` of a glossary list: the text of its `p` examples and its own
      text once they are removed. */
  datatype ListItem = ListItem(examplesText: string, text: string)

  /** The example loop over trimmed lines: blank lines are dropped. */
  function KeepExamples(lines: seq<string>): seq<Markup.Example> {
    if lines == [] then []
    else
      var e := TrimSpace(lines[|lines| - 1]);
      KeepExamples(lines[..|lines| - 1]) + (if e != "" then [Markup.Example(e)] else [])
  }

  /** Every example kept is non-empty and trimmed, and there are no more
      examples than lines. */
  lemma {:induction false} KeepExamplesShape(lines: seq<string>)
    ensures |KeepExamples(lines)| <= |lines|
    ensures forall i :: 0 <= i < |KeepExamples(lines)| ==>
      KeepExamples(lines)[i].text != "" && Trimmed(KeepExamples(lines)[i].text)
  {
    if lines != [] {
      KeepExamplesShape(lines[..|lines| - 1]);
      TrimSpaceTrims(lines[|lines| - 1]);
    }
  }

  /** Order: examples from a block of lines followed by another come first. */
  lemma {:induction false} KeepExamplesAppend(a: seq<string>, b: seq<string>)
    ensures KeepExamples(a + b) == KeepExamples(a) + KeepExamples(b)
  {
    if b == [] {
      assert a + b == a;
    } else {
      var c, init, x := a + b, b[..|b| - 1], b[|b| - 1];
      assert c[..|c| - 1] == a + init && c[|c| - 1] == x;
      KeepExamplesAppend(a, init);
      var last := if TrimSpace(x) != "" then [Markup.Example(TrimSpace(x))] else [];
      assert KeepExamples(c) == KeepExamples(a + init) + last;
      assert KeepExamples(b) == KeepExamples(init) + last;
      AppendAssoc(KeepExamples(a), KeepExamples(init), last);
    }
  }

  function ExamplesOf(text: string): seq<Markup.Example> {
    KeepExamples(Split(text, '\n'))
  }

  /** A single line of text yields exactly its trimmed self as the one
      example, or none when it is blank. */
  lemma SingleLineExample(text: string)
    requires '\n' !in text
    ensures ExamplesOf(text) == if TrimSpace(text) != "" then [Markup.Example(TrimSpace(text))] else []
  {
    SplitJoin([text], '\n');
    assert KeepExamples([text][..0]) == [];
  }

  /** The split of an `li`'s example text into `Example`s. */
  method SplitExamples(text: string) returns (examples: seq<Markup.Example>)
    ensures examples == ExamplesOf(text)
  {
    var lines := Split(text, '\n');
    examples := [];
    var i := 0;
    while i < |lines|
      invariant i <= |lines|
      invariant examples == KeepExamples(lines[..i])
    {
      assert lines[..i + 1][..i] == lines[..i];
      var e := TrimSpace(lines[i]);
      if e != "" {
        examples := examples + [Markup.Example(e)];
      }
      i := i + 1;
    }
    assert lines[..i] == lines;
  }

  function SubDefinitionOf(item: ListItem): Markup.SubDefinition {
    Markup.SubDefinition(TrimSpace(item.text), ExamplesOf(item.examplesText))
  }

  function SubDefinitionsOf(items: seq<ListItem>): seq<Markup.SubDefinition> {
    if items == [] then [] else SubDefinitionsOf(items[..|items| - 1]) + [SubDefinitionOf(items[|items| - 1])]
  }

  /** The entries after the lists before list `l` have been attached: one
      per `span` (its trimmed text as part of speech), the i-th holding the
      items of the i-th `ol` when i < l. */
  function Attached(spanTexts: seq<string>, ols: seq<seq<ListItem>>, l: nat): (r: seq<Markup.DefinitionEntry>)
    requires l <= |ols|
    ensures |r| == |spanTexts|
    ensures forall i :: 0 <= i < |spanTexts| ==>
      r[i] == Markup.DefinitionEntry(TrimSpace(spanTexts[i]), if i < l then SubDefinitionsOf(ols[i]) else [])
  {
    seq(|spanTexts|, i requires 0 <= i < |spanTexts| =>
      Markup.DefinitionEntry(TrimSpace(spanTexts[i]), if i < l then SubDefinitionsOf(ols[i]) else []))
  }

  /** The entries a glossary ends with: the i-th `ol` attached to the i-th
      span; an entry without a list has no sub-definitions, and lists beyond
      the last span are ignored. */
  function PairLists(spanTexts: seq<string>, ols: seq<seq<ListItem>>): seq<Markup.DefinitionEntry> {
    Attached(spanTexts, ols, |ols|)
  }

  /** Attaching list `l` changes only entry `l`, and only when it exists. */
  lemma AttachedStep(spanTexts: seq<string>, ols: seq<seq<ListItem>>, l: nat)
    requires l < |ols|
    ensures l < |spanTexts| ==>
      Attached(spanTexts, ols, l + 1)
      == Attached(spanTexts, ols, l)[l := Markup.DefinitionEntry(TrimSpace(spanTexts[l]), SubDefinitionsOf(ols[l]))]
    ensures l >= |spanTexts| ==> Attached(spanTexts, ols, l + 1) == Attached(spanTexts, ols, l)
  {
  }

  /** Lists beyond the number of spans make no difference. */
  lemma ExtraListsIgnored(spanTexts: seq<string>, ols: seq<seq<ListItem>>)
    requires |ols| > |spanTexts|
    ensures PairLists(spanTexts, ols) == PairLists(spanTexts, ols[..|spanTexts|])
  {
    var a, b := PairLists(spanTexts, ols), PairLists(spanTexts, ols[..|spanTexts|]);
    forall i | 0 <= i < |spanTexts|
      ensures a[i] == b[i]
    {
      assert ols[..|spanTexts|][i] == ols[i];
    }
  }

  lemma AttachedSnoc(spanTexts: seq<string>, ols: seq<seq<ListItem>>, i: nat)
    requires i < |spanTexts|
    ensures Attached(spanTexts[..i + 1], ols, 0)
      == Attached(spanTexts[..i], ols, 0) + [Markup.DefinitionEntry(TrimSpace(spanTexts[i]), [])]
  {
    var a, b := Attached(spanTexts[..i + 1], ols, 0), Attached(spanTexts[..i], ols, 0);
    forall k | 0 <= k < i
      ensures a[k] == b[k]
    {
      assert spanTexts[..i + 1][k] == spanTexts[..i][k];
    }
  }

  /** The `li` loop: each item's sub-definition is appended to the entry. */
  method AppendItems(entry: Markup.DefinitionEntry, items: seq<ListItem>) returns (r: Markup.DefinitionEntry)
    ensures r == entry.(subDefinitionEntry := entry.subDefinitionEntry + SubDefinitionsOf(items))
  {
    r := entry;
    var j := 0;
    while j < |items|
      invariant j <= |items|
      invariant r == entry.(subDefinitionEntry := entry.subDefinitionEntry + SubDefinitionsOf(items[..j]))
    {
      var examples := SplitExamples(items[j].examplesText);
      var sub := Markup.SubDefinition(TrimSpace(items[j].text), examples);
      assert items[..j + 1][..j] == items[..j];
      assert SubDefinitionsOf(items[..j + 1]) == SubDefinitionsOf(items[..j]) + [sub];
      AppendAssoc(entry.subDefinitionEntry, SubDefinitionsOf(items[..j]), [sub]);
      r := r.(subDefinitionEntry := r.subDefinitionEntry + [sub]);
      j := j + 1;
    }
    assert items[..j] == items;
  }

  /** `extractDict`'s two loops: the entries from the spans, then the list
      items appended in place to the entry with the list's index. */
  method ExtractEntries(spanTexts: seq<string>, ols: seq<seq<ListItem>>) returns (entries: seq<Markup.DefinitionEntry>)
    ensures entries == PairLists(spanTexts, ols)
  {
    entries := [];
    var i := 0;
    while i < |spanTexts|
      invariant i <= |spanTexts|
      invariant entries == Attached(spanTexts[..i], ols, 0)
    {
      AttachedSnoc(spanTexts, ols, i);
      entries := entries + [Markup.DefinitionEntry(TrimSpace(spanTexts[i]), [])];
      i := i + 1;
    }
    assert spanTexts[..i] == spanTexts;
    var l := 0;
    while l < |ols|
      invariant l <= |ols|
      invariant entries == Attached(spanTexts, ols, l)
    {
      AttachedStep(spanTexts, ols, l);
      if l < |entries| {
        var entry := AppendItems(entries[l], ols[l]);
        assert entries[l].subDefinitionEntry == [];
        assert entry == Markup.DefinitionEntry(TrimSpace(spanTexts[l]), [] + SubDefinitionsOf(ols[l]));
        assert [] + SubDefinitionsOf(ols[l]) == SubDefinitionsOf(ols[l]);
        entries := entries[l := entry];
      }
      l := l + 1;
    }
  }

  /** One `li` of the `.dict-basic-ul` list: its `span` and `strong` texts. */
  datatype BasicItem = BasicItem(span: string, strong: string)

  /** The basic definitions a list contributes: those with a definition, in
      order. */
  function KeepBasic(items: seq<BasicItem>): seq<BasicDefinition> {
    if items == [] then []
    else
      var it := items[|items| - 1];
      KeepBasic(items[..|items| - 1]) + (if it.strong != "" then [BasicDefinition(it.span, it.strong)] else [])
  }

  /** Exactly the items with a definition are kept: every kept definition is
      non-empty and comes from an item with a definition, and every item
      with a definition is kept. */
  lemma {:induction false} KeepBasicFilters(items: seq<BasicItem>)
    ensures |KeepBasic(items)| <= |items|
    ensures forall i :: 0 <= i < |KeepBasic(items)| ==> KeepBasic(items)[i].def != ""
    ensures forall b :: b in KeepBasic(items) ==>
      exists it :: it in items && it.strong != "" && b == BasicDefinition(it.span, it.strong)
    ensures forall it :: it in items && it.strong != "" ==> BasicDefinition(it.span, it.strong) in KeepBasic(items)
  {
    if items != [] {
      var init := items[..|items| - 1];
      var last := items[|items| - 1];
      KeepBasicFilters(init);
      assert forall x :: x in items ==> x in init || x == last;
      assert forall x :: x in init ==> x in items;
      assert last in items;
    }
  }

  lemma {:induction false} KeepBasicAppend(a: seq<BasicItem>, b: seq<BasicItem>)
    ensures KeepBasic(a + b) == KeepBasic(a) + KeepBasic(b)
  {
    if b == [] {
      assert a + b == a;
    } else {
      var c := a + b;
      assert c[..|c| - 1] == a + b[..|b| - 1];
      KeepBasicAppend(a, b[..|b| - 1]);
    }
  }

  /** The three glossary sections of the page and the names they are filed
      under. */
  datatype Layout = Detail | Dual | English

  function LayoutName(layout: Layout): string {
    match layout
    case Detail => "详尽释义"
    case Dual => "双解释义"
    case English => "英英释义"
  }

  /** The callbacks a visit fires, in the order they fire. colly runs each
      registered callback over all its selector's matches (in document order)
      before the next one; the lemmas below hold for any order. */
  datatype Event =
    | KeywordFound(text: string)                                                   // `.keyword`
    | PhoneticFound(spans: seq<PhoneticSpan>)                                      // `.phonetic`
    | LayoutFound(layout: Layout, spanTexts: seq<string>, ols: seq<seq<ListItem>>)  // `.layout.*`
    | BasicListFound(items: seq<BasicItem>)                                        // `.dict-basic-ul`

  /** The effect of one callback on the entry being built. */
  function Step(out: Word, e: Event): Word {
    match e
    case KeywordFound(text) => out.(w := text)
    case PhoneticFound(spans) => out.(audio := PhoneticAudio(out.audio, spans))
    case LayoutFound(layout, spanTexts, ols) =>
      out.(defs := out.defs + [Glossary(LayoutName(layout), PairLists(spanTexts, ols))])
    case BasicListFound(items) => out.(basicDef := out.basicDef + KeepBasic(items))
  }

  function Collect(events: seq<Event>): Word {
    if events == [] then Empty else Step(Collect(events[..|events| - 1]), events[|events| - 1])
  }

  /** The captured `out` of `Lookup`, updated in place by its callbacks. */
  class Collector {
    var out: Word

    constructor()
      ensures out == Empty
    {
      out := Empty;
    }

    /** `.keyword`: every match overwrites the headword. */
    method OnKeyword(text: string)
      modifies this
      ensures out == Step(old(out), KeywordFound(text))
    {
      out := out.(w := text);
    }

    /** `.phonetic`: the span loop, then the host prefix on the set
        recordings. */
    method OnPhonetic(spans: seq<PhoneticSpan>)
      modifies this
      ensures out == Step(old(out), PhoneticFound(spans))
    {
      var i := 0;
      while i < |spans|
        invariant i <= |spans|
        invariant out == old(out).(audio := AssignSpans(old(out).audio, spans[..i]))
      {
        assert spans[..i + 1][..i] == spans[..i];
        if i == 0 {
          out := out.(audio := out.audio.(uk := VoiceOf(spans[i])));
        } else {
          out := out.(audio := out.audio.(us := VoiceOf(spans[i])));
        }
        i := i + 1;
      }
      assert spans[..i] == spans;
      if out.audio.uk.femaleMp3 != "" {
        out := out.(audio := out.audio.(uk := out.audio.uk.(femaleMp3 := AudioHost + out.audio.uk.femaleMp3)));
      }
      if out.audio.uk.maleMp3 != "" {
        out := out.(audio := out.audio.(uk := out.audio.uk.(maleMp3 := AudioHost + out.audio.uk.maleMp3)));
      }
      if out.audio.us.femaleMp3 != "" {
        out := out.(audio := out.audio.(us := out.audio.us.(femaleMp3 := AudioHost + out.audio.us.femaleMp3)));
      }
      if out.audio.us.maleMp3 != "" {
        out := out.(audio := out.audio.(us := out.audio.us.(maleMp3 := AudioHost + out.audio.us.maleMp3)));
      }
    }

    /** `.layout.detail`, `.layout.dual`, `.layout.en`: `extractDict`. */
    method OnLayout(layout: Layout, spanTexts: seq<string>, ols: seq<seq<ListItem>>)
      modifies this
      ensures out == Step(old(out), LayoutFound(layout, spanTexts, ols))
    {
      var entries := ExtractEntries(spanTexts, ols);
      out := out.(defs := out.defs + [Glossary(LayoutName(layout), entries)]);
    }

    /** `.dict-basic-ul`: each item with a definition is appended. */
    method OnBasicList(items: seq<BasicItem>)
      modifies this
      ensures out == Step(old(out), BasicListFound(items))
    {
      var i := 0;
      while i < |items|
        invariant i <= |items|
        invariant out == old(out).(basicDef := old(out).basicDef + KeepBasic(items[..i]))
      {
        assert items[..i + 1][..i] == items[..i];
        var basic := BasicDefinition(items[i].span, items[i].strong);
        if basic.def != "" {
          AppendAssoc(old(out).basicDef, KeepBasic(items[..i]), [basic]);
          out := out.(basicDef := out.basicDef + [basic]);
        }
        i := i + 1;
      }
      assert items[..i] == items;
    }
  }

  /** The items of every basic list of the visit, in document order. */
  function BasicItems(events: seq<Event>): seq<BasicItem> {
    if events == [] then []
    else
      var e := events[|events| - 1];
      BasicItems(events[..|events| - 1]) + (if e.BasicListFound? then e.items else [])
  }

  /** The basic definitions of the entry are those of all the visit's basic
      lists taken as one list: each item with a definition, in document
      order, whatever other callbacks fire in between. */
  lemma {:induction false} CollectBasicDefs(events: seq<Event>)
    ensures Collect(events).basicDef == KeepBasic(BasicItems(events))
  {
    if events != [] {
      var init := events[..|events| - 1];
      var e := events[|events| - 1];
      CollectBasicDefs(init);
      if e.BasicListFound? {
        KeepBasicAppend(BasicItems(init), e.items);
      } else {
        assert Collect(events).basicDef == Collect(init).basicDef;
        assert BasicItems(events) == BasicItems(init) + [] == BasicItems(init);
      }
    }
  }

  /** The glossary sections the visit found, in event order. */
  function LayoutEvents(events: seq<Event>): (r: seq<Event>)
    ensures forall k :: 0 <= k < |r| ==> r[k].LayoutFound?
  {
    if events == [] then []
    else
      var e := events[|events| - 1];
      LayoutEvents(events[..|events| - 1]) + (if e.LayoutFound? then [e] else [])
  }

  /** One glossary per glossary section, in event order, each filed under
      its section's name and holding that section's paired entries. */
  lemma {:induction false} CollectGlossaries(events: seq<Event>)
    ensures |Collect(events).defs| == |LayoutEvents(events)|
    ensures forall k :: 0 <= k < |LayoutEvents(events)| ==>
      Collect(events).defs[k] == Glossary(LayoutName(LayoutEvents(events)[k].layout),
                                          PairLists(LayoutEvents(events)[k].spanTexts, LayoutEvents(events)[k].ols))
  {
    if events != [] {
      CollectGlossaries(events[..|events| - 1]);
    }
  }

  /** The spans of every `.phonetic` match, in document order. */
  function PhoneticSpans(events: seq<Event>): seq<seq<PhoneticSpan>> {
    if events == [] then []
    else
      var e := events[|events| - 1];
      PhoneticSpans(events[..|events| - 1]) + (if e.PhoneticFound? then [e.spans] else [])
  }

  /** The recordings after applying the `.phonetic` callback to each list of
      spans in turn. */
  function AudioAfter(audio: Audio, spanLists: seq<seq<PhoneticSpan>>): Audio {
    if spanLists == [] then audio
    else PhoneticAudio(AudioAfter(audio, spanLists[..|spanLists| - 1]), spanLists[|spanLists| - 1])
  }

  /** The recordings depend on the `.phonetic` matches alone: they are the
      empty recordings with each match's spans applied in document order. */
  lemma {:induction false} CollectAudio(events: seq<Event>)
    ensures Collect(events).audio == AudioAfter(Empty.audio, PhoneticSpans(events))
  {
    if events != [] {
      var init := events[..|events| - 1];
      var e := events[|events| - 1];
      CollectAudio(init);
      if e.PhoneticFound? {
        var l := PhoneticSpans(events);
        assert l[..|l| - 1] == PhoneticSpans(init);
      } else {
        assert Collect(events).audio == Collect(init).audio;
        assert PhoneticSpans(events) == PhoneticSpans(init) + [] == PhoneticSpans(init);
      }
    }
  }

  /** The text of the last `.keyword` match, "" when there is none. */
  function LastKeyword(events: seq<Event>): string {
    if events == [] then ""
    else if events[|events| - 1].KeywordFound? then events[|events| - 1].text
    else LastKeyword(events[..|events| - 1])
  }

  /** Last wins: the headword is the last `.keyword` text of the visit. */
  lemma {:induction false} CollectHeadword(events: seq<Event>)
    ensures Collect(events).w == LastKeyword(events)
  {
    if events != [] {
      CollectHeadword(events[..|events| - 1]);
    }
  }

  /** `Lookup`'s outcome after a visit that fired `events`. */
  function Lookup(events: seq<Event>, visitErr: Option<string>): (r: Result<Word>)
    ensures visitErr.Some? ==> r == Fail(ErrOther(visitErr.value))
    ensures visitErr.None? ==> (r == Fail(ErrNotFound) <==> LastKeyword(events) == "")
    ensures r.Ok? ==> r.value == Collect(events) && r.value.w == LastKeyword(events)
  {
    CollectHeadword(events);
    Conclude(visitErr, Collect(events).w, Collect(events))
  }
}
