// main.go's flash-card export: `writeToAnkiCsv` builds one `|`-separated
// line per word from the entries the dictionaries returned, and
// `escapeVerticalBar` keeps the separator out of the fields it escapes.

module AnkiCsv {
  import opened Dict
  import opened Strings
  import opened Entries
  import Markup
  import AssetStore

  // ---------------------------------------------------------------------
  // escapeVerticalBar

  /** `escapeVerticalBar`: every '|' becomes "%7C". */
  function EscapeVerticalBar(s: string): string {
    if s == [] then []
    else (if s[0] == '|' then "%7C" else [s[0]]) + EscapeVerticalBar(s[1..])
  }

  /** The escaped string holds no separator. */
  lemma {:induction false} EscapedHasNoBar(s: string)
    ensures '|' !in EscapeVerticalBar(s)
  {
    if s != [] {
      EscapedHasNoBar(s[1..]);
      var head := if s[0] == '|' then "%7C" else [s[0]];
      assert '|' !in head;
      assert EscapeVerticalBar(s) == head + EscapeVerticalBar(s[1..]);
    }
  }

  /** A string without separators is left as it is. */
  lemma {:induction false} EscapeKeepsBarFree(s: string)
    requires '|' !in s
    ensures EscapeVerticalBar(s) == s
  {
    if s != [] {
      EscapeKeepsBarFree(s[1..]);
      assert [s[0]] + s[1..] == s;
    }
  }

  /** Escaping works piece by piece. */
  lemma {:induction false} EscapeAppend(a: string, b: string)
    ensures EscapeVerticalBar(a + b) == EscapeVerticalBar(a) + EscapeVerticalBar(b)
  {
    if a != [] {
      EscapeAppend(a[1..], b);
      assert (a + b)[1..] == a[1..] + b;
      assert (a + b)[0] == a[0];
    } else {
      assert a + b == b;
    }
  }

  /** The number of separators in `s`. */
  function Bars(s: string): nat {
    if s == [] then 0 else (if s[0] == '|' then 1 else 0) + Bars(s[1..])
  }

  /** Each separator grows the string by two characters. */
  lemma {:induction false} EscapedLength(s: string)
    ensures |EscapeVerticalBar(s)| == |s| + 2 * Bars(s)
  {
    if s != [] {
      EscapedLength(s[1..]);
    }
  }

  // ---------------------------------------------------------------------
  // writeToAnkiCsv

  /** What the loop of `writeToAnkiCsv` accumulates: the card's word, its
      pronunciation block, the definitions written so far after the
      background opening, and the recording's file name. */
  datatype Card = Card(plainWord: string, pronunciation: string, defs: string, mp3: string)

  const NoCard := Card("", "", "", "")

  function PronunciationDiv(p: string): string {
    "<div class=\"pronunciation\">" + p + "</div>"
  }

  /** One dictionary's block, `typeName` standing for the dictionary's
      string value and `html` for its `DefinitionHtml(false)`. */
  function DictDiv(typeName: string, html: string): string {
    "<div class=\"dict " + typeName + "\">" + html + "</div>"
  }

  /** An entry's `DefinitionHtml(false)`, as the card asks for it. */
  function Render(name: Dictionary -> string): Word -> string {
    w => WordHtml(w, false, name)
  }

  /** The card after one more entry: while no word has been taken, the
      entry's headword and pronunciation are taken and its headword block is
      written; every entry's definitions block (`render`) is written; a
      Webster entry with a recording names the sound. */
  function AddEntry(card: Card, word: Word, render: Word -> string, typeName: Dictionary -> string): Card {
    var taken :=
      if card.plainWord == "" then
        Card(word.HeadWord(), PronunciationDiv(word.Pronunciation()), card.defs + Markup.ThisWordDiv(word.HeadWord()), card.mp3)
      else card;
    var written := taken.(defs := taken.defs + DictDiv(typeName(word.Type()), render(word)));
    if word.Type() == Dictionary.Webster && |word.Mp3()| > 0 then written.(mp3 := AssetStore.Base(word.Mp3()[0]))
    else written
  }

  function Collect(words: seq<Word>, render: Word -> string, typeName: Dictionary -> string): Card {
    if words == [] then NoCard
    else AddEntry(Collect(words[..|words| - 1], render, typeName), words[|words| - 1], render, typeName)
  }

  function BackgroundCard(defs: string): string {
    "<div class=\"background_card\">" + defs + "</div>"
  }

  /** The five fields: word, pronunciation, example (always empty), the
      definitions and the sound. */
  function Fields(card: Card): seq<string> {
    [ card.plainWord,
      EscapeVerticalBar(card.pronunciation),
      "",
      "<div class=\"word\">" + EscapeVerticalBar(BackgroundCard(card.defs)) + "</div>",
      "[sound:" + card.mp3 + "]" ]
  }

  /** The line `writeToAnkiCsv` writes for `words`. */
  function CsvLine(words: seq<Word>, render: Word -> string, typeName: Dictionary -> string): string {
    var card := Collect(words, render, typeName);
    var f := Fields(card);
    f[0] + "|" + f[1] + "|" + f[2] + "|" + f[3] + "|" + f[4] + "\n"
  }

  /** `writeToAnkiCsv`: the line it writes to the card file. */
  method WriteToAnkiCsv(words: seq<Word>, name: Dictionary -> string, typeName: Dictionary -> string) returns (line: string)
    ensures line == CsvLine(words, Render(name), typeName)
  {
    var card := NoCard;
    var i := 0;
    while i < |words|
      invariant i <= |words|
      invariant card == Collect(words[..i], Render(name), typeName)
    {
      CollectSnoc(words, i, Render(name), typeName);
      card := WriteEntry(card, words[i], name, typeName);
      i := i + 1;
    }
    assert words[..i] == words;
    var f := Fields(card);
    line := f[0] + "|" + f[1] + "|" + f[2] + "|" + f[3] + "|" + f[4] + "\n";
  }

  /** One turn of the loop of `writeToAnkiCsv`. */
  method WriteEntry(card: Card, word: Word, name: Dictionary -> string, typeName: Dictionary -> string) returns (next: Card)
    ensures next == AddEntry(card, word, Render(name), typeName)
  {
    next := card;
    if next.plainWord == "" {
      next := Card(word.HeadWord(), PronunciationDiv(word.Pronunciation()), next.defs + Markup.ThisWordDiv(word.HeadWord()), next.mp3);
    }
    var html := DefinitionHtml(word, false, name);
    next := next.(defs := next.defs + DictDiv(typeName(word.Type()), html));
    if word.Type() == Dictionary.Webster {
      var mp3List := word.Mp3();
      if |mp3List| > 0 {
        next := next.(mp3 := AssetStore.Base(mp3List[0]));
      }
    }
  }

  lemma CollectSnoc(words: seq<Word>, i: nat, render: Word -> string, typeName: Dictionary -> string)
    requires i < |words|
    ensures Collect(words[..i + 1], render, typeName) == AddEntry(Collect(words[..i], render, typeName), words[i], render, typeName)
  {
    assert words[..i + 1][..i] == words[..i];
  }

  /** What one more entry does to the card's word and sound. */
  lemma AddEntryWordAndSound(card: Card, word: Word, render: Word -> string, typeName: Dictionary -> string)
    ensures AddEntry(card, word, render, typeName).plainWord == if card.plainWord == "" then word.HeadWord() else card.plainWord
    ensures AddEntry(card, word, render, typeName).mp3 ==
      if word.WebsterWord? then AssetStore.Base(word.webster.audio.mp3) else card.mp3
  {
  }

  function HeadWords(words: seq<Word>): (r: seq<string>)
    ensures |r| == |words|
    ensures forall i :: 0 <= i < |words| ==> r[i] == words[i].HeadWord()
  {
    seq(|words|, i requires 0 <= i < |words| => words[i].HeadWord())
  }

  lemma HeadWordsSnoc(words: seq<Word>)
    requires words != []
    ensures HeadWords(words) == HeadWords(words[..|words| - 1]) + [words[|words| - 1].HeadWord()]
  {
  }

  /** The card's word is the first non-empty headword. */
  lemma {:induction false} CardWordIsFirstHeadword(words: seq<Word>, render: Word -> string, typeName: Dictionary -> string)
    ensures Collect(words, render, typeName).plainWord == FirstNonEmpty(HeadWords(words))
  {
    if words != [] {
      var init := words[..|words| - 1];
      var last := words[|words| - 1];
      CardWordIsFirstHeadword(init, render, typeName);
      AddEntryWordAndSound(Collect(init, render, typeName), last, render, typeName);
      HeadWordsSnoc(words);
      FirstNonEmptySnoc(HeadWords(init), last.HeadWord());
    }
  }

  /** No Webster entry comes after the i-th. */
  predicate LastWebster(words: seq<Word>, i: nat) {
    forall j :: i < j < |words| ==> !words[j].WebsterWord?
  }

  /** Without a Webster entry the sound stays empty. */
  lemma {:induction false} NoWebsterNoSound(words: seq<Word>, render: Word -> string, typeName: Dictionary -> string)
    requires forall i :: 0 <= i < |words| ==> !words[i].WebsterWord?
    ensures Collect(words, render, typeName).mp3 == ""
  {
    if words != [] {
      var init := words[..|words| - 1];
      assert forall i :: 0 <= i < |init| ==> init[i] == words[i];
      NoWebsterNoSound(init, render, typeName);
      AddEntryWordAndSound(Collect(init, render, typeName), words[|words| - 1], render, typeName);
    }
  }

  /** The sound is the file name of the last Webster entry's recording. */
  lemma {:induction false} SoundIsLastWebster(words: seq<Word>, render: Word -> string, typeName: Dictionary -> string, i: nat)
    requires i < |words| && words[i].WebsterWord? && LastWebster(words, i)
    ensures Collect(words, render, typeName).mp3 == AssetStore.Base(words[i].webster.audio.mp3)
  {
    var init := words[..|words| - 1];
    var last := words[|words| - 1];
    AddEntryWordAndSound(Collect(init, render, typeName), last, render, typeName);
    if i < |init| {
      assert !last.WebsterWord?;
      assert init[i] == words[i];
      assert LastWebster(init, i);
      SoundIsLastWebster(init, render, typeName, i);
    }
  }

  lemma NotInConcat(x: char, a: string, b: string, c: string)
    requires x !in a && x !in b && x !in c
    ensures x !in a + b + c
  {
  }

  lemma Join5(a: string, b: string, c: string, d: string, e: string, sep: char)
    ensures JoinWith([a, b, c, d, e], sep) == a + [sep] + b + [sep] + c + [sep] + d + [sep] + e
  {
    assert [a, b, c, d, e][1..] == [b, c, d, e];
    assert [b, c, d, e][1..] == [c, d, e];
    assert [c, d, e][1..] == [d, e];
    assert [d, e][1..] == [e];
    assert JoinWith([d, e], sep) == d + [sep] + e;
    assert JoinWith([c, d, e], sep) == c + [sep] + (d + [sep] + e);
    assert JoinWith([b, c, d, e], sep) == b + [sep] + (c + [sep] + (d + [sep] + e));
  }

  /** When the word and the sound's file name hold no separator, the line is
      exactly the five fields separated by '|', followed by a line feed. */
  lemma FiveFields(words: seq<Word>, render: Word -> string, typeName: Dictionary -> string)
    requires '|' !in Collect(words, render, typeName).plainWord
    requires '|' !in Collect(words, render, typeName).mp3
    ensures var line := CsvLine(words, render, typeName);
      && line != [] && line[|line| - 1] == '\n'
      && Split(line[..|line| - 1], '|') == Fields(Collect(words, render, typeName))
  {
    var f := Fields(Collect(words, render, typeName));
    var line := CsvLine(words, render, typeName);
    LineIsJoin(words, render, typeName);
    assert line[..|line| - 1] == JoinWith(f, '|');
    FieldsBarFree(Collect(words, render, typeName));
    SplitJoin(f, '|');
  }

  /** The line is the fields joined by '|', then a line feed. */
  lemma LineIsJoin(words: seq<Word>, render: Word -> string, typeName: Dictionary -> string)
    ensures CsvLine(words, render, typeName) == JoinWith(Fields(Collect(words, render, typeName)), '|') + "\n"
  {
    var f := Fields(Collect(words, render, typeName));
    Join5(f[0], f[1], f[2], f[3], f[4], '|');
    assert f == [f[0], f[1], f[2], f[3], f[4]];
  }

  /** Only the word and the sound's file name can hold a separator. */
  lemma FieldsBarFree(card: Card)
    requires '|' !in card.plainWord && '|' !in card.mp3
    ensures forall i :: 0 <= i < |Fields(card)| ==> '|' !in Fields(card)[i]
  {
    EscapedHasNoBar(card.pronunciation);
    EscapedHasNoBar(BackgroundCard(card.defs));
    NotInConcat('|', "<div class=\"word\">", EscapeVerticalBar(BackgroundCard(card.defs)), "</div>");
    NotInConcat('|', "[sound:", card.mp3, "]");
  }
}
