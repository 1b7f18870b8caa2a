// The definition tree and its HTML rendering that dict/webster/webster.go
// and dict/collins/collins.go declare identically (`Definition`,
// `DefinitionEntry`, `SubDefinition`, `Example` and their `Html` methods).
// The two packages differ only in their `partOfSpeech` abbreviation, which
// the renderers here take as a parameter. dict/dictcn/dictcn.go reuses the
// same shapes for its definition entries.

module Markup {
  import opened Strings

  datatype Example = Example(text: string)
  datatype SubDefinition = SubDefinition(def: string, examples: seq<Example>)
  datatype DefinitionEntry = DefinitionEntry(partOfSpeech: string, subDefinitionEntry: seq<SubDefinition>)
  datatype Definition = Definition(partOfSpeech: string, definitionEntry: seq<DefinitionEntry>)

  /** The concatenation of `render` applied to each element, in order. */
  function Concat<T>(xs: seq<T>, render: T -> string): string {
    if xs == [] then "" else Concat(xs[..|xs| - 1], render) + render(xs[|xs| - 1])
  }

  lemma {:induction false} ConcatAppend<T>(a: seq<T>, b: seq<T>, render: T -> string)
    ensures Concat(a + b, render) == Concat(a, render) + Concat(b, render)
  {
    if b == [] {
      assert a + b == a;
    } else {
      var c := a + b;
      assert c[..|c| - 1] == a + b[..|b| - 1];
      ConcatAppend(a, b[..|b| - 1], render);
    }
  }

  lemma ConcatSnoc<T>(xs: seq<T>, i: nat, render: T -> string)
    requires i < |xs|
    ensures Concat(xs[..i + 1], render) == Concat(xs[..i], render) + render(xs[i])
  {
    assert xs[..i + 1][..i] == xs[..i];
  }

  /** `Example.Html`. */
  function ExampleHtml(e: Example): string {
    "<div class=use-example>// " + e.text + "</div>"
  }

  /** What `SubDefinition.Html` builds: the definition text, then every
      example in order. */
  function SubDefinitionHtml(s: SubDefinition): string {
    "<div class=\"sub-def-content\">" + "<div class=\"sub-def\">" + s.def + "</div>"
    + "<div class=\"use-examples\">" + Concat(s.examples, ExampleHtml) + "</div>" + "</div>"
  }

  method RenderSubDefinition(s: SubDefinition) returns (html: string)
    ensures html == SubDefinitionHtml(s)
  {
    var head := "<div class=\"sub-def-content\">" + "<div class=\"sub-def\">" + s.def + "</div>"
      + "<div class=\"use-examples\">";
    html := head;
    var i := 0;
    while i < |s.examples|
      invariant i <= |s.examples|
      invariant html == head + Concat(s.examples[..i], ExampleHtml)
    {
      ConcatSnoc(s.examples, i, ExampleHtml);
      AppendAssoc(head, Concat(s.examples[..i], ExampleHtml), ExampleHtml(s.examples[i]));
      html := html + ExampleHtml(s.examples[i]);
      i := i + 1;
    }
    assert s.examples[..i] == s.examples;
    html := html + "</div>" + "</div>";
  }

  /** One table row of a definition entry, around a rendered sub-definition. */
  function Row(inner: string): string {
    "<tr class=\"table-align\">" + "<td class=\"table-align\">" + inner + "</td>" + "</tr>"
  }

  function SubDefinitionRow(s: SubDefinition): string {
    Row(SubDefinitionHtml(s))
  }

  /** The part-of-speech block of an entry: present exactly when the entry
      names a part of speech. */
  function PosDiv(partOfSpeech: string, abbreviate: string -> string): (r: string)
    ensures r == "" <==> partOfSpeech == ""
  {
    if partOfSpeech != "" then "<div class=\"pos\">" + abbreviate(partOfSpeech) + "</div>" else ""
  }

  function EntryHead(partOfSpeech: string, abbreviate: string -> string): string {
    "<div class=\"sub-def-list\">" + "<table class=\"table-align\">" + PosDiv(partOfSpeech, abbreviate)
  }

  const EntryTail := "</table>" + "</div>"

  /** What `DefinitionEntry.Html` builds: the optional part of speech, then
      one row per sub-definition, in order. */
  function DefinitionEntryHtml(d: DefinitionEntry, abbreviate: string -> string): string {
    EntryHead(d.partOfSpeech, abbreviate) + Concat(d.subDefinitionEntry, SubDefinitionRow) + EntryTail
  }

  method RenderDefinitionEntry(d: DefinitionEntry, abbreviate: string -> string) returns (html: string)
    ensures html == DefinitionEntryHtml(d, abbreviate)
  {
    var head := EntryHead(d.partOfSpeech, abbreviate);
    html := head;
    var subs := d.subDefinitionEntry;
    var i := 0;
    while i < |subs|
      invariant i <= |subs|
      invariant html == head + Concat(subs[..i], SubDefinitionRow)
    {
      ConcatSnoc(subs, i, SubDefinitionRow);
      var sub := RenderSubDefinition(subs[i]);
      AppendAssoc(head, Concat(subs[..i], SubDefinitionRow), Row(sub));
      html := html + Row(sub);
      i := i + 1;
    }
    assert subs[..i] == subs;
    html := html + EntryTail;
  }

  /** The block `Definition.Html` writes around entry number `n`. */
  function EntryBlock(n: nat, inner: string): string {
    "<div class=\"def-entry\">" + "<table class=\"table-align\">" + "<tr class=\"table-align\">"
    + "<td class=\"table-align\">" + "<div class=\"serial-no\">" + Decimal(n) + "</div>" + "</td>"
    + "<td>" + inner + "</td>"
    + "</tr>" + "</table>" + "</div>"
  }

  /** The concatenation of `render(n, x)` over the elements `x` of `xs`, where
      `n` is the element's position counted from 1. */
  function NumberedConcat<T>(xs: seq<T>, render: (nat, T) -> string): string {
    if xs == [] then "" else NumberedConcat(xs[..|xs| - 1], render) + render(|xs|, xs[|xs| - 1])
  }

  lemma NumberedConcatSnoc<T>(xs: seq<T>, i: nat, render: (nat, T) -> string)
    requires i < |xs|
    ensures NumberedConcat(xs[..i + 1], render) == NumberedConcat(xs[..i], render) + render(i + 1, xs[i])
  {
    assert xs[..i + 1][..i] == xs[..i];
  }

  /** The rendered block of each element, numbered by its position plus one. */
  function NumberedBlocks<T>(xs: seq<T>, render: (nat, T) -> string): (r: seq<string>)
    ensures |r| == |xs|
    ensures forall i :: 0 <= i < |xs| ==> r[i] == render(i + 1, xs[i])
  {
    seq(|xs|, i requires 0 <= i < |xs| => render(i + 1, xs[i]))
  }

  /** Numbering: a numbered concatenation is the blocks numbered 1, 2, ..., n,
      each holding the element of that position, one after the other. */
  lemma {:induction false} NumberedConcatIsBlocks<T>(xs: seq<T>, render: (nat, T) -> string)
    ensures NumberedConcat(xs, render) == Flatten(NumberedBlocks(xs, render))
  {
    if xs != [] {
      var init := xs[..|xs| - 1];
      var last := render(|xs|, xs[|xs| - 1]);
      NumberedConcatIsBlocks(init, render);
      var blocks := NumberedBlocks(xs, render);
      var snoc := NumberedBlocks(init, render) + [last];
      forall i | 0 <= i < |blocks|
        ensures blocks[i] == snoc[i]
      {
        if i < |init| {
          assert init[i] == xs[i];
        }
      }
      assert blocks == snoc;
      FlattenAppend(NumberedBlocks(init, render), [last]);
      assert Flatten([last]) == last;
    }
  }

  /** `Definition.Html`'s rendering of entry number `n`. */
  function NumberedEntry(abbreviate: string -> string): (nat, DefinitionEntry) -> string {
    (n: nat, e: DefinitionEntry) => EntryBlock(n, DefinitionEntryHtml(e, abbreviate))
  }

  function DefinitionHead(d: Definition, abbreviate: string -> string): string {
    "<div class=\"definitions\">" + "<div class=\"pos\">" + abbreviate(d.partOfSpeech) + "</div>"
  }

  /** What `Definition.Html` builds: the abbreviated part of speech, then
      the numbered entries. */
  function DefinitionHtml(d: Definition, abbreviate: string -> string): string {
    DefinitionHead(d, abbreviate) + NumberedConcat(d.definitionEntry, NumberedEntry(abbreviate)) + "</div>"
  }

  method RenderDefinition(d: Definition, abbreviate: string -> string) returns (html: string)
    ensures html == DefinitionHtml(d, abbreviate)
  {
    var head := DefinitionHead(d, abbreviate);
    html := head;
    var es := d.definitionEntry;
    var i := 0;
    while i < |es|
      invariant i <= |es|
      invariant html == head + NumberedConcat(es[..i], NumberedEntry(abbreviate))
    {
      NumberedConcatSnoc(es, i, NumberedEntry(abbreviate));
      var entry := RenderDefinitionEntry(es[i], abbreviate);
      AppendAssoc(head, NumberedConcat(es[..i], NumberedEntry(abbreviate)), EntryBlock(i + 1, entry));
      html := html + EntryBlock(i + 1, entry);
      i := i + 1;
    }
    assert es[..i] == es;
    html := html + "</div>";
  }

  /** The concatenated `Html()` of a list of definitions, in order. */
  function DefinitionsHtml(defs: seq<Definition>, abbreviate: string -> string): string {
    if defs == [] then "" else DefinitionsHtml(defs[..|defs| - 1], abbreviate) + DefinitionHtml(defs[|defs| - 1], abbreviate)
  }

  /** The loop over `w.Defs` shared by the webster and collins
      `DefinitionHtml` methods. */
  method RenderDefinitions(defs: seq<Definition>, abbreviate: string -> string) returns (html: string)
    ensures html == DefinitionsHtml(defs, abbreviate)
  {
    html := "";
    var i := 0;
    while i < |defs|
      invariant i <= |defs|
      invariant html == DefinitionsHtml(defs[..i], abbreviate)
    {
      assert defs[..i + 1][..i] == defs[..i];
      var d := RenderDefinition(defs[i], abbreviate);
      html := html + d;
      i := i + 1;
    }
    assert defs[..i] == defs;
  }

  /** The opening every dictionary's `DefinitionHtml` writes: the
      word-content wrapper and the dictionary-name block. */
  function WordHead(dictName: string): string {
    "<div class=\"word-content\">" + "<div class=\"dict-name\">" + dictName + "</div>"
  }

  function ThisWordDiv(w: string): string {
    "<div class=\"this-word\">" + w + "</div>"
  }

  /** The frame of a `DefinitionHtml(showWord)` rendering: the opening, the
      headword block when asked for, then the dictionary-specific `body`
      (which closes the wrapper). */
  function Framed(dictName: string, showWord: bool, w: string, body: string): string {
    WordHead(dictName) + (if showWord then ThisWordDiv(w) else "") + body
  }

  /** Asking for the headword inserts exactly its this-word block after the
      dictionary name and changes nothing else. */
  lemma ShowWordInsertsHeadword(dictName: string, w: string, body: string)
    ensures var head := WordHead(dictName);
      && Framed(dictName, false, w, body)[..|head|] == head
      && Framed(dictName, true, w, body) == head + ThisWordDiv(w) + Framed(dictName, false, w, body)[|head|..]
  {
    var head := WordHead(dictName);
    assert Framed(dictName, false, w, body) == head + body;
    AppendSlices(head, body);
  }

  /** The pronunciation line of the Webster and Collins entries: the
      syllables, the separator " | ", then the phonetic spelling between
      slashes. */
  function PronunciationLine(syllables: string, pronunciation: string): (r: string)
    ensures |r| == |syllables| + 4 + |pronunciation| + 1
    ensures r[..|syllables|] == syllables
    ensures r[|syllables|..|syllables| + 4] == " | /"
    ensures r[|syllables| + 4..|r| - 1] == pronunciation
    ensures r[|r| - 1] == '/'
  {
    syllables + " | " + "/" + pronunciation + "/"
  }
}
