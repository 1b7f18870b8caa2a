// dict/collins/collins.go: the Collins entry, its accessors and HTML
// rendering, and its `Lookup`, whose only scraping callback reads the
// headword of each `.title_container` and prints it without storing it.

module Collins {
  import opened Dict
  import opened Strings
  import Markup

  /** `partOfSpeech`: unlike Webster's, the intransitive form becomes "v.". */
  function PartOfSpeech(pos: string): (r: string)
    ensures pos == "transitive verb" ==> r == "vt."
    ensures pos == "intransitive verb" ==> r == "v."
    ensures pos != "transitive verb" && pos != "intransitive verb" ==> r == pos
  {
    if pos == "transitive verb" then "vt."
    else if pos == "intransitive verb" then "v."
    else pos
  }

  datatype Audio = Audio(syllables: string, pronunciation: string, mp3: string)

  datatype Word = Word(w: string, audio: Audio, defs: seq<Markup.Definition>)
  {
    /** `Word.Mp3`: always exactly one URL, even when it is empty. */
    function Mp3(): (r: seq<string>)
      ensures |r| == 1 && r[0] == audio.mp3
    {
      [audio.mp3]
    }

    /** `Word.Pronunciation`, the same line as Webster's. */
    function Pronunciation(): string {
      Markup.PronunciationLine(audio.syllables, audio.pronunciation)
    }
  }

  /** The zero value `Word{}`. */
  const Empty := Word("", Audio("", "", ""), [])

  const ContentOpen := "<div class=\"content\">"

  /** What `Word.DefinitionHtml()` builds: a content wrapper (no
      dictionary-name block and no `showWord` switch) holding the headword
      block and then every definition in order. */
  function ContentHtml(word: Word): string {
    ContentOpen + Markup.ThisWordDiv(word.w) + Markup.DefinitionsHtml(word.defs, PartOfSpeech) + "</div>"
  }

  /** `Word.DefinitionHtml`. */
  method DefinitionHtml(word: Word) returns (html: string)
    ensures html == ContentHtml(word)
  {
    html := ContentOpen;
    html := html + Markup.ThisWordDiv(word.w);
    var defs := Markup.RenderDefinitions(word.defs, PartOfSpeech);
    html := html + defs + "</div>";
  }

  /** The headword block is always written right after the wrapper's opening,
      and the rendering always ends by closing the wrapper. */
  lemma HeadwordAlwaysShown(word: Word)
    ensures var head := ContentOpen + Markup.ThisWordDiv(word.w);
      && |head| <= |ContentHtml(word)|
      && ContentHtml(word)[..|head|] == head
      && HasSuffix(ContentHtml(word), "</div>")
  {
    var head := ContentOpen + Markup.ThisWordDiv(word.w);
    var rest := Markup.DefinitionsHtml(word.defs, PartOfSpeech) + "</div>";
    AppendAssoc(head, Markup.DefinitionsHtml(word.defs, PartOfSpeech), "</div>");
    AppendSlices(head, rest);
    var h := ContentHtml(word);
    assert h[|h| - 6..] == "</div>";
  }

  /** The `.title_container` callback: the headword it finds is printed and
      the entry being built is left as it was. */
  function OnTitle(out: Word, orth: string): Word {
    out
  }

  /** The entry after the callback ran for each title container in turn. */
  function Collect(orths: seq<string>): Word {
    if orths == [] then Empty else OnTitle(Collect(orths[..|orths| - 1]), orths[|orths| - 1])
  }

  /** Whatever the page holds, the entry stays the zero value. */
  lemma {:induction false} CollectLeavesEmpty(orths: seq<string>)
    ensures Collect(orths) == Empty
  {
    if orths != [] {
      CollectLeavesEmpty(orths[..|orths| - 1]);
    }
  }

  /** `collinsDict.Lookup`, the visit standing for the title texts it
      scraped and its error: a failed visit is returned as is, and otherwise
      the headword was never captured, so the answer is always
      `ErrNotFound`; Collins never yields an entry. */
  function Lookup(orths: seq<string>, visitErr: Option<string>): (r: Result<Word>)
    ensures visitErr.Some? ==> r == Fail(ErrOther(visitErr.value))
    ensures visitErr.None? ==> r == Fail(ErrNotFound)
    ensures !r.Ok?
  {
    CollectLeavesEmpty(orths);
    Conclude(visitErr, Collect(orths).w, Collect(orths))
  }
}
