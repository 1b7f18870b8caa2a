// The word log `words.txt` of one dictionary: an append-only file holding
// one line per finished lookup, either a serialised entry or a not-found
// line, and the index that reading it back at start-up builds
// (main.go's `loadAllFinished`).

module EntryLog {
  import opened Dict
  import opened Strings
  import opened Entries

  const NotFoundPrefix := "__not_found:"

  /** The line `download` writes when the dictionary has no such word. */
  function NotFoundLine(keyword: string): string {
    NotFoundPrefix + keyword + "\n"
  }

  /** The line `download` writes for a fresh entry. */
  function EntryLine(codec: Codec, w: Word): string {
    codec.json(w) + "\n"
  }

  /** What the in-memory index maps a word to: `Some(entry)`, or `None` for
      a word known not to exist (the nil entry). */
  type Index = map<string, Option<Word>>

  /** How start-up reads one line of the log. */
  datatype Reading =
    | Missing(key: string)   // a not-found line, for its trimmed keyword
    | Found(w: Word)         // a parsed entry
    | Unreadable             // `Parse` fails: start-up stops

  function Read(codec: Codec, line: string): Reading {
    if HasPrefix(line, NotFoundPrefix) then Missing(TrimSpace(TrimPrefix(line, NotFoundPrefix)))
    else match codec.parse(line)
      case Some(w) => Found(w)
      case None => Unreadable
  }

  /** The key a reading is indexed under: an entry under its own headword. */
  function KeyOf(r: Reading): string
    requires !r.Unreadable?
  {
    if r.Missing? then r.key else r.w.HeadWord()
  }

  function ValueOf(r: Reading): Option<Word>
    requires !r.Unreadable?
  {
    if r.Missing? then None else Some(r.w)
  }

  /** The index after reading `lines` in order, or `None` when a line cannot
      be parsed. */
  function Replay(codec: Codec, lines: seq<string>): Option<Index> {
    if lines == [] then Some(map[])
    else match Replay(codec, lines[..|lines| - 1])
      case None => None
      case Some(index) =>
        var r := Read(codec, lines[|lines| - 1]);
        if r.Unreadable? then None else Some(index[KeyOf(r) := ValueOf(r)])
  }

  /** A not-found line written for a trimmed keyword reads back as that
      keyword, not found. */
  lemma NotFoundLineReadsBack(codec: Codec, keyword: string)
    requires Trimmed(keyword)
    ensures Read(codec, NotFoundLine(keyword)) == Missing(keyword)
  {
    var line := NotFoundLine(keyword);
    assert line == NotFoundPrefix + (keyword + "\n");
    assert HasPrefix(line, NotFoundPrefix);
    assert TrimPrefix(line, NotFoundPrefix) == keyword + "\n";
    TrimSpaceOfLine(keyword);
  }

  /** An entry line reads back as the entry written, keyed by its headword. */
  lemma EntryLineReadsBack(codec: Codec, w: Word)
    requires Lawful(codec)
    ensures Read(codec, EntryLine(codec, w)) == Found(w)
  {
    var line := EntryLine(codec, w);
    assert codec.json(w)[0] == '{';
    assert line[0] == '{';
    assert NotFoundPrefix[0] == '_';
    assert !HasPrefix(line, NotFoundPrefix);
  }

  /** Reading the log after one more line was appended. */
  lemma ReplaySnoc(codec: Codec, lines: seq<string>, line: string)
    ensures Replay(codec, lines + [line]) ==
      match Replay(codec, lines)
      case None => None
      case Some(index) =>
        var r := Read(codec, line);
        if r.Unreadable? then None else Some(index[KeyOf(r) := ValueOf(r)])
  {
    assert (lines + [line])[..|lines|] == lines;
  }

  /** The reading of the last line of `lines` that is indexed under `key`,
      if any: a per-key account of the log that does not build the map. */
  function LastWritten(codec: Codec, lines: seq<string>, key: string): Option<Option<Word>> {
    if lines == [] then None
    else
      var r := Read(codec, lines[|lines| - 1]);
      if !r.Unreadable? && KeyOf(r) == key then Some(ValueOf(r))
      else LastWritten(codec, lines[..|lines| - 1], key)
  }

  /** Start-up fails exactly when some line is unreadable. */
  lemma {:induction false} ReplayFailsOnUnreadable(codec: Codec, lines: seq<string>)
    ensures Replay(codec, lines).None? <==> exists i :: 0 <= i < |lines| && Read(codec, lines[i]).Unreadable?
  {
    if lines != [] {
      var init := lines[..|lines| - 1];
      ReplayFailsOnUnreadable(codec, init);
      if Replay(codec, init).None? {
        var i :| 0 <= i < |init| && Read(codec, init[i]).Unreadable?;
        assert lines[i] == init[i];
      } else {
        forall i | 0 <= i < |init|
          ensures !Read(codec, lines[i]).Unreadable?
        {
          assert lines[i] == init[i];
        }
      }
    }
  }

  /** Last write wins: a word is indexed exactly when some line is about
      it, and then with what the last such line says. */
  lemma {:induction false} ReplayLastWins(codec: Codec, lines: seq<string>, key: string)
    requires Replay(codec, lines).Some?
    ensures key in Replay(codec, lines).value <==> LastWritten(codec, lines, key).Some?
    ensures key in Replay(codec, lines).value ==> Replay(codec, lines).value[key] == LastWritten(codec, lines, key).value
  {
    if lines != [] {
      ReplayLastWins(codec, lines[..|lines| - 1], key);
    }
  }

  /** A word once indexed stays indexed, however much is appended. */
  lemma {:induction false} ReplayKeepsKeys(codec: Codec, lines: seq<string>, more: seq<string>, key: string)
    requires Replay(codec, lines + more).Some?
    requires LastWritten(codec, lines, key).Some?
    ensures Replay(codec, lines).Some?
    ensures key in Replay(codec, lines + more).value
  {
    if more == [] {
      assert lines + more == lines;
      ReplayLastWins(codec, lines, key);
    } else {
      var init := more[..|more| - 1];
      assert (lines + more)[..|lines + more| - 1] == lines + init;
      ReplayKeepsKeys(codec, lines, init, key);
      ReplaySnoc(codec, lines + init, more[|more| - 1]);
      assert lines + init + [more[|more| - 1]] == lines + more;
    }
  }

  /** Appending a not-found line to a log whose last line is complete marks
      the trimmed keyword missing on the next start-up and changes nothing
      else. */
  lemma ReplayAfterNotFound(codec: Codec, log: string, keyword: string)
    requires EndsWithNewline(log) && Trimmed(keyword) && '\n' !in keyword
    ensures Replay(codec, Lines(log + NotFoundLine(keyword))) ==
      match Replay(codec, Lines(log))
      case None => None
      case Some(index) => Some(index[keyword := None])
  {
    var line := NotFoundPrefix + keyword;
    assert '\n' !in line by {
      assert forall i :: 0 <= i < |line| ==> line[i] == if i < |NotFoundPrefix| then NotFoundPrefix[i] else keyword[i - |NotFoundPrefix|];
    }
    LinesAppend(log, line);
    assert log + NotFoundLine(keyword) == log + line + "\n";
    NotFoundLineReadsBack(codec, keyword);
    ReplaySnoc(codec, Lines(log), NotFoundLine(keyword));
  }

  /** Appending an entry line indexes the entry under its headword on the
      next start-up and changes nothing else. */
  lemma ReplayAfterEntry(codec: Codec, log: string, w: Word)
    requires Lawful(codec) && EndsWithNewline(log)
    ensures Replay(codec, Lines(log + EntryLine(codec, w))) ==
      match Replay(codec, Lines(log))
      case None => None
      case Some(index) => Some(index[w.HeadWord() := Some(w)])
  {
    LinesAppend(log, codec.json(w));
    assert log + EntryLine(codec, w) == log + codec.json(w) + "\n";
    EntryLineReadsBack(codec, w);
    ReplaySnoc(codec, Lines(log), EntryLine(codec, w));
  }

  /** A log whose last line was torn (written without its line feed) glues
      it to the next line appended: both are read back as one line. */
  lemma TornLineSwallowsNext(codec: Codec, torn: string, keyword: string)
    requires torn != [] && '\n' !in torn && '\n' !in keyword
    ensures Lines(torn + NotFoundLine(keyword)) == [torn + NotFoundLine(keyword)]
  {
    var line := NotFoundPrefix + keyword;
    assert '\n' !in line by {
      assert forall i :: 0 <= i < |line| ==> line[i] == if i < |NotFoundPrefix| then NotFoundPrefix[i] else keyword[i - |NotFoundPrefix|];
    }
    TornLineIsGlued(torn, line);
    assert torn + NotFoundLine(keyword) == torn + line + "\n";
  }

  /** Start-up indexes every entry under its own headword. */
  lemma {:induction false} ReplayKeysHeadwords(codec: Codec, lines: seq<string>)
    requires Replay(codec, lines).Some?
    ensures forall k :: k in Replay(codec, lines).value && Replay(codec, lines).value[k].Some? ==>
      Replay(codec, lines).value[k].value.HeadWord() == k
  {
    if lines != [] {
      ReplayKeysHeadwords(codec, lines[..|lines| - 1]);
    }
  }
}
