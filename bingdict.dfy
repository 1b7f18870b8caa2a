// dict/bingdict/bingdict.go: the Bing dictionary entry, its accessors, and
// the rules by which `Lookup`'s scraping callbacks and its final step build
// the entry. A visit is the sequence of callback events it fires, each
// carrying the text (and, where used, the inner HTML) its selectors
// extracted after the callback's own DOM rewriting.

module Bing {
  import opened Dict
  import opened Strings

  datatype Audio = Audio(pronunciationUS: string, usAudio: string, pronunciationUK: string, ukAudio: string)

  datatype Example = Example(phrase: string, text: string, raw: string, audio: string)

  datatype SubDefinition = SubDefinition(def: string, raw: string, examples: seq<Example>)

  datatype Definition = Definition(partOfSpeech: string, def: seq<SubDefinition>, examples: seq<Example>, raw: string)

  datatype Word = Word(w: string, audio: Audio, defs: seq<Definition>, pictures: seq<string>, examples: seq<Example>)
  {
    /** `Word.Mp3`: the British recording, then the American one. */
    function Mp3(): (r: seq<string>)
      ensures |r| == 2 && r[0] == audio.ukAudio && r[1] == audio.usAudio
    {
      [audio.ukAudio, audio.usAudio]
    }

    /** `Word.Pronunciation`: Bing entries carry no pronunciation line. */
    function Pronunciation(): (r: string)
      ensures r == ""
    {
      ""
    }

    /** `Word.DefinitionHtml`: Bing entries render nothing, whatever the
        flag. */
    function DefinitionHtml(showWord: bool): (r: string)
      ensures r == ""
    {
      ""
    }
  }

  const Empty := Word("", Audio("", "", "", ""), [], [], [])

  // ---------------------------------------------------------------------
  // The audio link inside an `onclick` attribute.

  /** The recording named in an `onclick` attribute: from the first "https"
      to the end of the first ".mp3", taken only when "https" is found past
      position 0 and ".mp3" is found after it. */
  function Mp3Link(onclick: string): (r: Option<string>)
    ensures r.Some? <==> Index(onclick, "https") > 0 && Index(onclick, ".mp3") > Index(onclick, "https")
    ensures r.Some? ==> HasPrefix(r.value, "https") && HasSuffix(r.value, ".mp3")
    ensures r.Some? ==> r.value == onclick[Index(onclick, "https")..Index(onclick, ".mp3") + 4]
  {
    var s := Index(onclick, "https");
    if s > 0 then
      var e := Index(onclick, ".mp3");
      if e > s then
        var link := onclick[s..e + 4];
        assert link[..5] == onclick[s..s + 5];
        assert link[|link| - 4..] == onclick[e..e + 4];
        Some(link)
      else None
    else None
  }

  /** The callback's effect on an audio field: set to the link when there is
      one, left unchanged otherwise. */
  function OnclickAudio(current: string, onclick: string): string {
    match Mp3Link(onclick)
    case Some(link) => link
    case None => current
  }

  /** An attribute that starts with "https" yields no link at all. */
  lemma LeadingLinkIgnored(onclick: string)
    requires HasPrefix(onclick, "https")
    ensures Mp3Link(onclick) == None
  {
    assert OccursAt(onclick, "https", 0);
  }

  lemma IndexIs(s: string, sub: string, k: nat)
    requires OccursAt(s, sub, k)
    requires forall j :: 0 <= j < k ==> !OccursAt(s, sub, j)
    ensures Index(s, sub) == k
  {
  }

  /** A link in the middle of the attribute is found exactly: when `link`
      starts with "https" and ends with ".mp3", stands after a non-empty
      prefix, and no "https" starts earlier nor ".mp3" ends earlier, it is
      what the callback takes. */
  lemma EmbeddedLinkFound(pre: string, link: string, post: string)
    requires pre != [] && HasPrefix(link, "https") && HasSuffix(link, ".mp3")
    requires forall j :: 0 <= j < |pre| ==> !OccursAt(pre + link + post, "https", j)
    requires forall j :: 0 <= j < |pre| + |link| - 4 ==> !OccursAt(pre + link + post, ".mp3", j)
    ensures Mp3Link(pre + link + post) == Some(link)
  {
    var s := pre + link + post;
    assert s[|pre|..|pre| + 5] == link[..5];
    IndexIs(s, "https", |pre|);
    assert s[|pre| + |link| - 4..|pre| + |link|] == link[|link| - 4..];
    IndexIs(s, ".mp3", |pre| + |link| - 4);
    assert s[|pre|..|pre| + |link|] == link;
  }

  // ---------------------------------------------------------------------
  // The callbacks.

  /** The three definition sections and the parts of speech they are filed
      under. */
  datatype Section = Auth | Homo | Cross

  function SectionName(section: Section): string {
    match section
    case Auth => "auth"
    case Homo => "homo"
    case Cross => "cross"
  }

  /** The definition a section contributes: its text as the one
      sub-definition, its inner HTML as the raw form. */
  function SectionDefinition(section: Section, text: string, html: string): Definition {
    Definition(SectionName(section), [SubDefinition(text, "", [])], [], html)
  }

  /** The callbacks a visit fires, in the order they fire. colly runs each
      registered callback over all its selector's matches (in document order)
      before the next one; the lemmas below hold for any order. */
  datatype Event =
    | HeadwordFound(text: string)                                    // `#headword > h1 > strong`
    | PronunciationUSFound(text: string)                             // `.hd_prUS`
    | USAudioFound(onclick: string)                                  // second `div.hd_tf` link
    | PronunciationUKFound(text: string)                             // `.hd_pr`
    | UKAudioFound(onclick: string)                                  // fourth `div.hd_tf` link
    | SimpleDefFound(text: string, html: string)                     // `.qdef > ul`
    | PluralFound(text: string)                                      // `.hd_div1`
    | SectionFound(section: Section, text: string, html: string)     // `#authid`, `#homoid`, `#crossid`
    | SentencesFound(text: string, html: string)                     // `#sentenceSeg`

  /** The state the callbacks share: the entry, the simple definition and the
      plural form. */
  datatype Scrape = Scrape(out: Word, simpleDef: Definition, plural: string)

  const Start := Scrape(Empty, Definition("", [], [], ""), "")

  function Step(s: Scrape, e: Event): Scrape {
    match e
    case HeadwordFound(text) => s.(out := s.out.(w := text))
    case PronunciationUSFound(text) => s.(out := s.out.(audio := s.out.audio.(pronunciationUS := text)))
    case USAudioFound(onclick) =>
      s.(out := s.out.(audio := s.out.audio.(usAudio := OnclickAudio(s.out.audio.usAudio, onclick))))
    case PronunciationUKFound(text) => s.(out := s.out.(audio := s.out.audio.(pronunciationUK := text)))
    case UKAudioFound(onclick) =>
      s.(out := s.out.(audio := s.out.audio.(ukAudio := OnclickAudio(s.out.audio.ukAudio, onclick))))
    case SimpleDefFound(text, html) =>
      s.(simpleDef := s.simpleDef.(partOfSpeech := "simple-def", raw := html, def := [SubDefinition(text, "", [])]))
    case PluralFound(text) => s.(plural := text)
    case SectionFound(section, text, html) =>
      s.(out := s.out.(defs := s.out.defs + [SectionDefinition(section, text, html)]))
    case SentencesFound(text, html) =>
      s.(out := s.out.(examples := s.out.examples + [Example("", text, html, "")]))
  }

  function Collect(events: seq<Event>): Scrape {
    if events == [] then Start else Step(Collect(events[..|events| - 1]), events[|events| - 1])
  }

  /** The raw form the simple definition gets once the visit is over. */
  function SimpleRaw(raw: string, plural: string): string {
    "<div class=\"simple-def\">" + raw + "</div> <div class=\"word-plural\">" + plural + "</div>"
  }

  /** The step after the visit: a simple definition that was captured goes in
      front of the others, wrapped together with the plural form. */
  function Prepend(s: Scrape): (r: Word)
    ensures s.simpleDef.raw == "" ==> r == s.out
    ensures s.simpleDef.raw != "" ==>
      && r == s.out.(defs := r.defs)
      && |r.defs| == |s.out.defs| + 1
      && r.defs[0] == s.simpleDef.(raw := SimpleRaw(s.simpleDef.raw, s.plural))
      && r.defs[1..] == s.out.defs
  {
    if s.simpleDef.raw != "" then
      var defs := [s.simpleDef.(raw := SimpleRaw(s.simpleDef.raw, s.plural))] + s.out.defs;
      assert defs[1..] == s.out.defs;
      s.out.(defs := defs)
    else s.out
  }

  /** `Lookup`'s final steps: the visit error first, then the prepend, then
      the not-found check on the headword. */
  function Outcome(s: Scrape, visitErr: Option<string>): (r: Result<Word>)
    ensures visitErr.Some? ==> r == Fail(ErrOther(visitErr.value))
    ensures visitErr.None? ==> (r == Fail(ErrNotFound) <==> s.out.w == "")
    ensures r.Ok? ==> r.value == Prepend(s)
  {
    match visitErr
    case Some(err) => Fail(ErrOther(err))
    case None =>
      var out := Prepend(s);
      if out.w == "" then Fail(ErrNotFound) else Ok(out)
  }

  /** The captured state of `Lookup`, updated in place by its callbacks. */
  class Collector {
    var out: Word
    var simpleDef: Definition
    var plural: string

    constructor()
      ensures State() == Start
    {
      out := Start.out;
      simpleDef := Start.simpleDef;
      plural := Start.plural;
    }

    function State(): Scrape
      reads this
    {
      Scrape(out, simpleDef, plural)
    }

    method OnHeadword(text: string)
      modifies this
      ensures State() == Step(old(State()), HeadwordFound(text))
    {
      out := out.(w := text);
    }

    method OnPronunciationUS(text: string)
      modifies this
      ensures State() == Step(old(State()), PronunciationUSFound(text))
    {
      out := out.(audio := out.audio.(pronunciationUS := text));
    }

    /** The American audio link: sliced out of `onclick` when the rule finds
        one. */
    method OnUSAudio(onclick: string)
      modifies this
      ensures State() == Step(old(State()), USAudioFound(onclick))
    {
      var startPos := Index(onclick, "https");
      if startPos > 0 {
        var endPos := Index(onclick, ".mp3");
        if endPos > startPos {
          out := out.(audio := out.audio.(usAudio := onclick[startPos..endPos + 4]));
        }
      }
    }

    method OnPronunciationUK(text: string)
      modifies this
      ensures State() == Step(old(State()), PronunciationUKFound(text))
    {
      out := out.(audio := out.audio.(pronunciationUK := text));
    }

    /** The British audio link, by the same rule. */
    method OnUKAudio(onclick: string)
      modifies this
      ensures State() == Step(old(State()), UKAudioFound(onclick))
    {
      var startPos := Index(onclick, "https");
      if startPos > 0 {
        var endPos := Index(onclick, ".mp3");
        if endPos > startPos {
          out := out.(audio := out.audio.(ukAudio := onclick[startPos..endPos + 4]));
        }
      }
    }

    method OnSimpleDef(text: string, html: string)
      modifies this
      ensures State() == Step(old(State()), SimpleDefFound(text, html))
    {
      simpleDef := simpleDef.(partOfSpeech := "simple-def");
      simpleDef := simpleDef.(raw := html);
      simpleDef := simpleDef.(def := [SubDefinition(text, "", [])]);
    }

    method OnPlural(text: string)
      modifies this
      ensures State() == Step(old(State()), PluralFound(text))
    {
      plural := text;
    }

    /** `#authid`, `#homoid` and `#crossid`: each appends one definition. */
    method OnSection(section: Section, text: string, html: string)
      modifies this
      ensures State() == Step(old(State()), SectionFound(section, text, html))
    {
      out := out.(defs := out.defs + [SectionDefinition(section, text, html)]);
    }

    method OnSentences(text: string, html: string)
      modifies this
      ensures State() == Step(old(State()), SentencesFound(text, html))
    {
      out := out.(examples := out.examples + [Example("", text, html, "")]);
    }

    /** The code after `Visit`: the prepend rebuilds `out.Defs` in place. */
    method Finish(visitErr: Option<string>) returns (r: Result<Word>)
      modifies this
      ensures r == Outcome(old(State()), visitErr)
    {
      if visitErr.Some? {
        return Fail(ErrOther(visitErr.value));
      }
      if simpleDef.raw != "" {
        simpleDef := simpleDef.(raw := SimpleRaw(simpleDef.raw, plural));
        out := out.(defs := [simpleDef] + out.defs);
      }
      if out.w == "" {
        return Fail(ErrNotFound);
      }
      return Ok(out);
    }
  }

  /** The definitions of the section events, in order. */
  function SectionDefinitions(events: seq<Event>): seq<Definition> {
    if events == [] then []
    else
      var e := events[|events| - 1];
      SectionDefinitions(events[..|events| - 1])
      + (if e.SectionFound? then [SectionDefinition(e.section, e.text, e.html)] else [])
  }

  /** The text of the last headword event, "" when there is none. */
  function LastHeadword(events: seq<Event>): string {
    if events == [] then ""
    else if events[|events| - 1].HeadwordFound? then events[|events| - 1].text
    else LastHeadword(events[..|events| - 1])
  }

  /** The headword is the last one captured, and the definitions collected
      during the visit are exactly the sections' ones in event order. */
  lemma {:induction false} CollectSections(events: seq<Event>)
    ensures Collect(events).out.w == LastHeadword(events)
    ensures Collect(events).out.defs == SectionDefinitions(events)
  {
    if events != [] {
      CollectSections(events[..|events| - 1]);
    }
  }

  /** Every definition collected during the visit is filed under "auth",
      "homo" or "cross". */
  lemma {:induction false} SectionNames(events: seq<Event>)
    ensures forall d :: d in SectionDefinitions(events) ==> d.partOfSpeech in {"auth", "homo", "cross"}
  {
    if events != [] {
      SectionNames(events[..|events| - 1]);
    }
  }

  /** `Lookup`'s outcome after a visit that fired `events`. */
  function Lookup(events: seq<Event>, visitErr: Option<string>): (r: Result<Word>)
    ensures visitErr.Some? ==> r == Fail(ErrOther(visitErr.value))
    ensures visitErr.None? ==> (r == Fail(ErrNotFound) <==> LastHeadword(events) == "")
    ensures r.Ok? && Collect(events).simpleDef.raw == "" ==> r.value.defs == SectionDefinitions(events)
    ensures r.Ok? && Collect(events).simpleDef.raw != "" ==>
      |r.value.defs| == |SectionDefinitions(events)| + 1 && r.value.defs[0].partOfSpeech == "simple-def" && r.value.defs[1..] == SectionDefinitions(events)
  {
    CollectSections(events);
    CollectSimpleDef(events);
    Outcome(Collect(events), visitErr)
  }

  /** A captured simple definition is filed under "simple-def". */
  lemma {:induction false} CollectSimpleDef(events: seq<Event>)
    ensures Collect(events).simpleDef.raw != "" ==> Collect(events).simpleDef.partOfSpeech == "simple-def"
  {
    if events != [] {
      CollectSimpleDef(events[..|events| - 1]);
    }
  }
}
