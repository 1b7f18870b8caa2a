// The `dict.Word` interface as main.go uses it: one entry of any of the four
// dictionaries, and the serialisation the word log is written in.

module Entries {
  import opened Dict
  import opened Strings
  import Markup
  import Webster
  import Dictcn
  import Bing
  import Collins

  /** An entry of one of the four dictionaries; each dictionary's `Word`
      type satisfies the interface, so a value of the interface is one of
      them. */
  datatype Word =
    | WebsterWord(webster: Webster.Word)
    | DictcnWord(dictcn: Dictcn.Word)
    | BingWord(bing: Bing.Word)
    | CollinsWord(collins: Collins.Word)
  {
    /** `Type()`: the dictionary the entry comes from. */
    function Type(): Dictionary {
      match this
      case WebsterWord(_) => Dictionary.Webster
      case DictcnWord(_) => Dictionary.Dictcn
      case BingWord(_) => Dictionary.BingDict
      case CollinsWord(_) => Dictionary.Collins
    }

    /** `Word()`: the headword. */
    function HeadWord(): string {
      match this
      case WebsterWord(w) => w.w
      case DictcnWord(w) => w.w
      case BingWord(w) => w.w
      case CollinsWord(w) => w.w
    }

    /** `Mp3()`: one recording, except for Bing, which lists two. */
    function Mp3(): (r: seq<string>)
      ensures |r| == (if Type() == Dictionary.BingDict then 2 else 1)
    {
      match this
      case WebsterWord(w) => w.Mp3()
      case DictcnWord(w) => w.Mp3()
      case BingWord(w) => w.Mp3()
      case CollinsWord(w) => w.Mp3()
    }

    /** `Pronunciation()`. */
    function Pronunciation(): string {
      match this
      case WebsterWord(w) => w.Pronunciation()
      case DictcnWord(w) => w.Pronunciation()
      case BingWord(w) => w.Pronunciation()
      case CollinsWord(w) => w.Pronunciation()
    }
  }

  /** `DefinitionHtml(showWord)`, `name` standing for `Dictionary.Name()`.
      The Collins rendering takes no flag. */
  function WordHtml(word: Word, showWord: bool, name: Dictionary -> string): string {
    match word
    case WebsterWord(w) => Webster.WordHtml(w, showWord, name(Dictionary.Webster))
    case DictcnWord(w) => Dictcn.WordHtml(w, showWord, name(Dictionary.Dictcn))
    case BingWord(w) => w.DefinitionHtml(showWord)
    case CollinsWord(w) => Collins.ContentHtml(w)
  }

  method DefinitionHtml(word: Word, showWord: bool, name: Dictionary -> string) returns (html: string)
    ensures html == WordHtml(word, showWord, name)
  {
    match word
    case WebsterWord(w) =>
      html := Webster.DefinitionHtml(w, showWord, name(Dictionary.Webster));
    case DictcnWord(w) =>
      html := Dictcn.DefinitionHtml(w, showWord, name(Dictionary.Dictcn));
    case BingWord(w) =>
      html := w.DefinitionHtml(showWord);
    case CollinsWord(w) =>
      html := Collins.DefinitionHtml(w);
  }

  /** The flag matters only to Webster and dict.cn entries, where it inserts
      the headword block after the dictionary name; Bing and Collins render
      the same either way. */
  lemma ShowWordEffect(word: Word, name: Dictionary -> string)
    ensures word.BingWord? || word.CollinsWord? ==> WordHtml(word, true, name) == WordHtml(word, false, name)
    ensures word.WebsterWord? || word.DictcnWord? ==>
      var head := Markup.WordHead(name(word.Type()));
      var plain := WordHtml(word, false, name);
      && |head| <= |plain|
      && plain[..|head|] == head
      && WordHtml(word, true, name) == head + Markup.ThisWordDiv(word.HeadWord()) + plain[|head|..]
  {
    match word
    case WebsterWord(w) =>
      Markup.ShowWordInsertsHeadword(name(Dictionary.Webster), w.w, Webster.WordBody(w));
    case DictcnWord(w) =>
      Markup.ShowWordInsertsHeadword(name(Dictionary.Dictcn), w.w, Dictcn.WordBody(w));
    case BingWord(_) =>
    case CollinsWord(_) =>
  }

  /** `Json()` and the owning dictionary's `Parse`, which `encoding/json`
      implements; they are given, not modelled. */
  datatype Codec = Codec(json: Word -> string, parse: string -> Option<Word>)

  /** What the word log relies on: a serialised entry is one line, opens
      with '{' (so it is never taken for a not-found line), and reads back
      as the entry it was written from, line feed included. */
  ghost predicate Lawful(codec: Codec) {
    forall w: Word {:trigger codec.json(w)} ::
      && codec.json(w) != []
      && codec.json(w)[0] == '{'
      && '\n' !in codec.json(w)
      && codec.parse(codec.json(w) + "\n") == Some(w)
  }
}
