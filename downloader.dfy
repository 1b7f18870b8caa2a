// main.go's `Downloader`: the per-dictionary lookup cache. Its index
// `existWords` is rebuilt from the word log at start-up and consulted before
// every online lookup; fresh results are appended to the log, and the
// recordings of every entry served are mirrored into the audio directory.

module WordCache {
  import opened Dict
  import opened Strings
  import opened Entries
  import opened EntryLog
  import opened AssetStore

  // ---------------------------------------------------------------------
  // The cache decision of `download`, before any recording is fetched.

  /** How `download` answers: with an entry, saying whether it was already
      indexed, or with an error and the `cached` flag it returns. */
  datatype Decision = Served(w: Word, exist: bool) | Refused(cached: bool, err: Err)

  /** The decision together with the index and log it leaves behind. */
  datatype Consulted = Consulted(decision: Decision, index: Index, log: string)

  /** `download(keyword)` up to the recordings, `lookup` standing for what
      the dictionary's `Lookup(keyword)` would answer. */
  function Consult(codec: Codec, index: Index, log: string, keyword: string, queryOnline: bool, lookup: Result<Word>): Consulted {
    if keyword !in index then
      if !queryOnline then Consulted(Refused(true, ErrNotFound), index, log)
      else match lookup
        case Fail(ErrNotFound) => Consulted(Refused(false, ErrNotFound), index, log + NotFoundLine(keyword))
        case Fail(e) => Consulted(Refused(false, e), index, log)
        case Ok(w) => Consulted(Served(w, false), index[keyword := Some(w)][w.HeadWord() := Some(w)], log + EntryLine(codec, w))
    else match index[keyword]
      case None => Consulted(Refused(false, ErrNotFound), index, log)
      case Some(w) => Consulted(Served(w, true), index, log)
  }

  /** The three short cuts: an indexed entry is served as cached, a word
      known missing is refused without being cached, and with online
      queries off an unknown word is refused as if cached. None of them
      asks the dictionary or writes to the log. */
  lemma ShortCuts(codec: Codec, index: Index, log: string, keyword: string, queryOnline: bool, lookup: Result<Word>, lookup2: Result<Word>)
    requires keyword in index || !queryOnline
    ensures var c := Consult(codec, index, log, keyword, queryOnline, lookup);
      && c == Consult(codec, index, log, keyword, queryOnline, lookup2)
      && c.index == index && c.log == log
      && (keyword in index && index[keyword].Some? ==> c.decision == Served(index[keyword].value, true))
      && (keyword in index && index[keyword].None? ==> c.decision == Refused(false, ErrNotFound))
      && (keyword !in index ==> c.decision == Refused(true, ErrNotFound))
  {
  }

  /** A fresh lookup: success appends exactly the entry's line and indexes
      it under both the keyword and its headword; not-found appends exactly
      the not-found line and leaves the index alone; any other error
      records nothing. Only an indexed entry is ever reported cached. */
  lemma FreshLookup(codec: Codec, index: Index, log: string, keyword: string, lookup: Result<Word>)
    requires keyword !in index
    ensures var c := Consult(codec, index, log, keyword, true, lookup);
      && (lookup.Ok? ==>
            && c.decision == Served(lookup.value, false)
            && c.log == log + EntryLine(codec, lookup.value)
            && c.index.Keys == index.Keys + {keyword, lookup.value.HeadWord()}
            && c.index[keyword] == c.index[lookup.value.HeadWord()] == Some(lookup.value)
            && (forall k :: k in index && k != lookup.value.HeadWord() ==> c.index[k] == index[k]))
      && (lookup == Fail(ErrNotFound) ==>
            c == Consulted(Refused(false, ErrNotFound), index, log + NotFoundLine(keyword)))
      && (lookup.Fail? && lookup.err != ErrNotFound ==>
            c == Consulted(Refused(false, lookup.err), index, log))
  {
  }

  /** `cached` on the way to the recordings is exactly "the keyword was
      already indexed", and the log only grows. */
  lemma ExistMeansIndexed(codec: Codec, index: Index, log: string, keyword: string, queryOnline: bool, lookup: Result<Word>)
    ensures var c := Consult(codec, index, log, keyword, queryOnline, lookup);
      && (c.decision.Served? ==> (c.decision.exist <==> keyword in index))
      && (c.decision.Served? && c.decision.exist ==> c.log == log && c.index == index)
      && |log| <= |c.log| && c.log[..|log|] == log
  {
    var c := Consult(codec, index, log, keyword, queryOnline, lookup);
    AppendSlices(log, c.log[|log|..]);
  }

  // ---------------------------------------------------------------------
  // The invariant tying the index to the log.

  /** How the in-memory index relates to what a restart would read:
      (A) every word the log records as found is indexed with that entry,
      (B) every word indexed as missing is recorded as missing, and
      (C) every indexed entry's headword is recorded as found. The index
      may hold more: entries under the keyword they were looked up by. */
  predicate Agrees(index: Index, logged: Index) {
    FoundIndexed(index, logged) && MissingLogged(index, logged) && HeadwordsLogged(index, logged)
  }

  /** (A) */
  predicate FoundIndexed(index: Index, logged: Index) {
    forall k :: k in logged && logged[k].Some? ==> k in index && index[k] == logged[k]
  }

  /** (B) */
  predicate MissingLogged(index: Index, logged: Index) {
    forall k :: k in index && index[k].None? ==> k in logged && logged[k].None?
  }

  /** (C) */
  predicate HeadwordsLogged(index: Index, logged: Index) {
    forall k :: k in index && index[k].Some? ==>
      index[k].value.HeadWord() in logged && logged[index[k].value.HeadWord()].Some?
  }

  ghost predicate ValidState(codec: Codec, index: Index, log: string) {
    && Lawful(codec)
    && EndsWithNewline(log)
    && Replay(codec, Lines(log)).Some?
    && Agrees(index, Replay(codec, Lines(log)).value)
  }

  /** What `main` passes as keyword: a trimmed line without its line feed. */
  predicate IsKeyword(keyword: string) {
    Trimmed(keyword) && '\n' !in keyword
  }

  /** Right after start-up the index is exactly what the log says. */
  lemma LoadedAgrees(codec: Codec, lines: seq<string>)
    requires Replay(codec, lines).Some?
    ensures Agrees(Replay(codec, lines).value, Replay(codec, lines).value)
  {
    ReplayKeysHeadwords(codec, lines);
  }

  /** A not-found line for a keyword that is not indexed keeps the
      agreement. */
  lemma AgreesAfterNotFound(index: Index, logged: Index, keyword: string)
    requires Agrees(index, logged) && keyword !in index
    ensures Agrees(index, logged[keyword := None])
  {
    var logged' := logged[keyword := None];
    forall k | k in logged' && logged'[k].Some?
      ensures k in index && index[k] == logged'[k]
    {
      assert k != keyword;
    }
    forall k | k in index && index[k].Some?
      ensures index[k].value.HeadWord() in logged' && logged'[index[k].value.HeadWord()].Some?
    {
      var h := index[k].value.HeadWord();
      assert h in logged && logged[h].Some?;
      assert h in index;
      assert h != keyword;
    }
  }

  /** An entry line for a keyword that is not indexed, together with the
      two index updates, keeps the agreement. */
  lemma AgreesAfterEntry(index: Index, logged: Index, keyword: string, w: Word)
    requires Agrees(index, logged) && keyword !in index
    ensures Agrees(index[keyword := Some(w)][w.HeadWord() := Some(w)], logged[w.HeadWord() := Some(w)])
  {
    FoundIndexedAfterEntry(index, logged, keyword, w);
    MissingLoggedAfterEntry(index, logged, keyword, w);
    HeadwordsLoggedAfterEntry(index, logged, keyword, w);
  }

  lemma FoundIndexedAfterEntry(index: Index, logged: Index, keyword: string, w: Word)
    requires FoundIndexed(index, logged) && keyword !in index
    ensures FoundIndexed(index[keyword := Some(w)][w.HeadWord() := Some(w)], logged[w.HeadWord() := Some(w)])
  {
    var h := w.HeadWord();
    var index' := index[keyword := Some(w)][h := Some(w)];
    var logged' := logged[h := Some(w)];
    forall k | k in logged' && logged'[k].Some?
      ensures k in index' && index'[k] == logged'[k]
    {
      if k != h {
        assert k in index;
        assert k != keyword;
      }
    }
  }

  lemma MissingLoggedAfterEntry(index: Index, logged: Index, keyword: string, w: Word)
    requires MissingLogged(index, logged) && keyword !in index
    ensures MissingLogged(index[keyword := Some(w)][w.HeadWord() := Some(w)], logged[w.HeadWord() := Some(w)])
  {
    var h := w.HeadWord();
    var index' := index[keyword := Some(w)][h := Some(w)];
    var logged' := logged[h := Some(w)];
    forall k | k in index' && index'[k].None?
      ensures k in logged' && logged'[k].None?
    {
      assert k != h && k != keyword;
      assert index'[k] == index[k];
    }
  }

  lemma HeadwordsLoggedAfterEntry(index: Index, logged: Index, keyword: string, w: Word)
    requires HeadwordsLogged(index, logged)
    ensures HeadwordsLogged(index[keyword := Some(w)][w.HeadWord() := Some(w)], logged[w.HeadWord() := Some(w)])
  {
    var h := w.HeadWord();
    var index' := index[keyword := Some(w)][h := Some(w)];
    var logged' := logged[h := Some(w)];
    forall k | k in index' && index'[k].Some?
      ensures index'[k].value.HeadWord() in logged' && logged'[index'[k].value.HeadWord()].Some?
    {
      if k != h && k != keyword {
        assert index'[k] == index[k];
      }
    }
  }

  /** Every `download` of a keyword keeps the index and the log in
      agreement. */
  lemma ConsultKeepsAgreement(codec: Codec, index: Index, log: string, keyword: string, queryOnline: bool, lookup: Result<Word>)
    requires ValidState(codec, index, log)
    requires IsKeyword(keyword)
    ensures var c := Consult(codec, index, log, keyword, queryOnline, lookup);
      ValidState(codec, c.index, c.log)
  {
    if keyword !in index && queryOnline {
      match lookup
      case Fail(ErrNotFound) =>
        ValidAfterNotFound(codec, index, log, keyword);
      case Fail(_) =>
      case Ok(w) =>
        ValidAfterEntry(codec, index, log, keyword, w);
    }
  }

  lemma ValidAfterNotFound(codec: Codec, index: Index, log: string, keyword: string)
    requires ValidState(codec, index, log) && IsKeyword(keyword) && keyword !in index
    ensures ValidState(codec, index, log + NotFoundLine(keyword))
  {
    ReplayAfterNotFound(codec, log, keyword);
    AgreesAfterNotFound(index, Replay(codec, Lines(log)).value, keyword);
    var log' := log + NotFoundLine(keyword);
    assert log'[|log'| - 1] == '\n';
  }

  lemma ValidAfterEntry(codec: Codec, index: Index, log: string, keyword: string, w: Word)
    requires ValidState(codec, index, log) && keyword !in index
    ensures ValidState(codec, index[keyword := Some(w)][w.HeadWord() := Some(w)], log + EntryLine(codec, w))
  {
    ReplayAfterEntry(codec, log, w);
    AgreesAfterEntry(index, Replay(codec, Lines(log)).value, keyword, w);
    var log' := log + EntryLine(codec, w);
    assert log'[|log'| - 1] == '\n';
  }

  /** A word the log records as found is answered from memory with that
      entry, whatever the dictionary would say and whether or not online
      queries are on. */
  lemma LoggedWordsServedFromMemory(codec: Codec, index: Index, log: string, keyword: string, queryOnline: bool, lookup: Result<Word>)
    requires ValidState(codec, index, log)
    requires keyword in Replay(codec, Lines(log)).value && Replay(codec, Lines(log)).value[keyword].Some?
    ensures Consult(codec, index, log, keyword, queryOnline, lookup) ==
      Consulted(Served(Replay(codec, Lines(log)).value[keyword].value, true), index, log)
  {
  }

  // ---------------------------------------------------------------------
  // The recordings.

  /** Whether every recording was already in the store, and the store
      after trying each in turn. */
  datatype Mirrored = Mirrored(allCached: bool, files: map<string, string>)

  /** The loop of `download` over `Mp3()`: each URL goes through
      `downloadMp3`, the i-th attempt ending as `transfers(i)`; errors are
      only logged. */
  function MirrorAll(files: map<string, string>, dictDir: string, urls: seq<string>, transfers: nat -> Transfer): Mirrored {
    if urls == [] then Mirrored(true, files)
    else
      var prev := MirrorAll(files, dictDir, urls[..|urls| - 1], transfers);
      var url := urls[|urls| - 1];
      var r := Fetch(prev.files, url, Mp3Path(dictDir, url), transfers(|urls| - 1));
      Mirrored(prev.allCached && r.cached, r.files)
  }

  /** One more turn of the recordings loop. */
  lemma MirrorAllStep(files: map<string, string>, dictDir: string, urls: seq<string>, i: nat, transfers: nat -> Transfer)
    requires i < |urls|
    ensures var prev := MirrorAll(files, dictDir, urls[..i], transfers);
      var r := Fetch(prev.files, urls[i], Mp3Path(dictDir, urls[i]), transfers(i));
      MirrorAll(files, dictDir, urls[..i + 1], transfers) == Mirrored(prev.allCached && r.cached, r.files)
  {
    assert urls[..i + 1][..i] == urls[..i];
  }

  /** All recordings count as cached exactly when every URL is non-empty
      and its file was already in the store, in which case nothing is
      written. */
  lemma {:induction false} MirrorAllCached(files: map<string, string>, dictDir: string, urls: seq<string>, transfers: nat -> Transfer)
    ensures MirrorAll(files, dictDir, urls, transfers).allCached <==> AllStored(files, dictDir, urls)
    ensures MirrorAll(files, dictDir, urls, transfers).allCached ==> MirrorAll(files, dictDir, urls, transfers).files == files
  {
    if urls != [] {
      var i := |urls| - 1;
      MirrorAllCached(files, dictDir, urls[..i], transfers);
      MirrorAllStep(files, dictDir, urls, i, transfers);
      assert urls[..i + 1] == urls;
      var prev := MirrorAll(files, dictDir, urls[..i], transfers);
      CachedIffPresent(prev.files, urls[i], Mp3Path(dictDir, urls[i]), transfers(i));
      AllStoredSnoc(files, dictDir, urls);
    }
  }

  /** Every URL is non-empty and its recording is in `files`. */
  predicate AllStored(files: map<string, string>, dictDir: string, urls: seq<string>) {
    forall i :: 0 <= i < |urls| ==> urls[i] != "" && Mp3Path(dictDir, urls[i]) in files
  }

  lemma AllStoredSnoc(files: map<string, string>, dictDir: string, urls: seq<string>)
    requires urls != []
    ensures var last := urls[|urls| - 1];
      AllStored(files, dictDir, urls) <==>
        AllStored(files, dictDir, urls[..|urls| - 1]) && last != "" && Mp3Path(dictDir, last) in files
  {
    if AllStored(files, dictDir, urls) {
      AllStoredPrefix(files, dictDir, urls);
    }
    if AllStored(files, dictDir, urls[..|urls| - 1]) {
      AllStoredExtend(files, dictDir, urls);
    }
  }

  lemma AllStoredPrefix(files: map<string, string>, dictDir: string, urls: seq<string>)
    requires urls != [] && AllStored(files, dictDir, urls)
    ensures AllStored(files, dictDir, urls[..|urls| - 1])
  {
    var init := urls[..|urls| - 1];
    forall i | 0 <= i < |init|
      ensures init[i] != "" && Mp3Path(dictDir, init[i]) in files
    {
      assert init[i] == urls[i];
    }
  }

  lemma AllStoredExtend(files: map<string, string>, dictDir: string, urls: seq<string>)
    requires urls != [] && AllStored(files, dictDir, urls[..|urls| - 1])
    ensures var last := urls[|urls| - 1];
      last != "" && Mp3Path(dictDir, last) in files ==> AllStored(files, dictDir, urls)
  {
    var n := |urls| - 1;
    var init := urls[..n];
    if urls[n] != "" && Mp3Path(dictDir, urls[n]) in files {
      forall i | 0 <= i < |urls|
        ensures urls[i] != "" && Mp3Path(dictDir, urls[i]) in files
      {
        if i < n {
          assert urls[i] == init[i];
        }
      }
    }
  }

  /** An empty URL (a recording the page did not have) makes the entry not
      cached. */
  lemma EmptyUrlNotCached(files: map<string, string>, dictDir: string, urls: seq<string>, transfers: nat -> Transfer, i: nat)
    requires i < |urls| && urls[i] == ""
    ensures !MirrorAll(files, dictDir, urls, transfers).allCached
  {
    MirrorAllCached(files, dictDir, urls, transfers);
  }

  /** What `download` returns once the recordings are handled: the entry,
      no error, and `cached` only when it was indexed and every recording
      was already stored. */
  function Cached(exist: bool, downloadMp3: bool, m: Mirrored): bool {
    exist && (!downloadMp3 || m.allCached)
  }

  // ---------------------------------------------------------------------
  // The whole of `download`.

  /** `(word, cached, err)` as `download` returns them. */
  datatype Outcome = Outcome(word: Option<Word>, cached: bool, err: Option<Err>)

  /** What a downloader holds that `download` changes: its index and the
      contents of its log. */
  datatype Cache = Cache(index: Index, log: string)

  /** What a downloader holds that never changes: the entry codec and the
      dictionary directory. */
  datatype Config = Config(codec: Codec, dictDir: string)

  /** What one `download` returns, with the cache and the stored files it
      leaves behind. */
  datatype Answered = Answered(outcome: Outcome, cache: Cache, files: map<string, string>)

  /** `download(keyword)` from start to end: the cache decision, then, for
      an entry served with `downloadMp3` on, its recordings. */
  function Answer(cfg: Config, cache: Cache, files: map<string, string>, keyword: string, queryOnline: bool,
                  downloadMp3: bool, lookup: Result<Word>, transfers: nat -> Transfer): Answered
  {
    var c := Consult(cfg.codec, cache.index, cache.log, keyword, queryOnline, lookup);
    match c.decision
    case Refused(cached, e) => Answered(Outcome(None, cached, Some(e)), Cache(c.index, c.log), files)
    case Served(w, exist) =>
      var m := MirrorAll(files, cfg.dictDir, w.Mp3(), transfers);
      Answered(Outcome(Some(w), Cached(exist, downloadMp3, m), None), Cache(c.index, c.log),
               if downloadMp3 then m.files else files)
  }

  /** `download` reports `cached` exactly when nothing had to be fetched:
      the keyword had an indexed entry and, when recordings are wanted,
      every one of them was already stored; or the keyword was unknown and
      online queries were off. */
  lemma AnswerCachedMeans(cfg: Config, cache: Cache, files: map<string, string>, keyword: string, queryOnline: bool,
                          downloadMp3: bool, lookup: Result<Word>, transfers: nat -> Transfer)
    ensures Answer(cfg, cache, files, keyword, queryOnline, downloadMp3, lookup, transfers).outcome.cached <==>
      if keyword in cache.index then
        cache.index[keyword].Some? && (!downloadMp3 || AllStored(files, cfg.dictDir, cache.index[keyword].value.Mp3()))
      else !queryOnline
  {
    if keyword in cache.index && cache.index[keyword].Some? {
      MirrorAllCached(files, cfg.dictDir, cache.index[keyword].value.Mp3(), transfers);
    }
  }

  /** An entry comes with no error and an error with no entry; the error is
      `ErrNotFound` exactly when the keyword is known missing, or unknown
      with online queries off, or unknown and not found by the dictionary. */
  lemma AnswerErrMeans(cfg: Config, cache: Cache, files: map<string, string>, keyword: string, queryOnline: bool,
                       downloadMp3: bool, lookup: Result<Word>, transfers: nat -> Transfer)
    ensures var o := Answer(cfg, cache, files, keyword, queryOnline, downloadMp3, lookup, transfers).outcome;
      && (o.err.None? <==> o.word.Some?)
      && (o.err == Some(ErrNotFound) <==>
            if keyword in cache.index then cache.index[keyword].None?
            else !queryOnline || lookup == Fail(ErrNotFound))
  {
  }

  /** The file store is touched only to mirror the recordings of an entry
      served with recordings wanted. */
  lemma AnswerKeepsFiles(cfg: Config, cache: Cache, files: map<string, string>, keyword: string, queryOnline: bool,
                         downloadMp3: bool, lookup: Result<Word>, transfers: nat -> Transfer)
    ensures var a := Answer(cfg, cache, files, keyword, queryOnline, downloadMp3, lookup, transfers);
      a.outcome.word.None? || !downloadMp3 ==> a.files == files
  {
  }

  /** The index a downloader holds only grows and never forgets an entry,
      and a served keyword is afterwards indexed with the entry served. */
  lemma AnswerKeepsEntries(cfg: Config, cache: Cache, files: map<string, string>, keyword: string, queryOnline: bool,
                           downloadMp3: bool, lookup: Result<Word>, transfers: nat -> Transfer)
    ensures var a := Answer(cfg, cache, files, keyword, queryOnline, downloadMp3, lookup, transfers);
      && (forall k :: k in cache.index ==> k in a.cache.index)
      && (forall k :: Knows(cache, k) ==> Knows(a.cache, k))
      && (a.outcome.word.Some? ==> keyword in a.cache.index && a.cache.index[keyword] == a.outcome.word)
  {
  }

  /** `keyword` has an entry in the index. */
  predicate Knows(cache: Cache, keyword: string) {
    keyword in cache.index && cache.index[keyword].Some?
  }

  /** A keyword with an entry is served that entry without asking the
      dictionary and without touching the log, whatever the dictionary
      would answer and whether or not online queries are on. */
  lemma KnownIsServed(cfg: Config, cache: Cache, files: map<string, string>, keyword: string, queryOnline: bool,
                      downloadMp3: bool, lookup: Result<Word>, transfers: nat -> Transfer)
    requires Knows(cache, keyword)
    ensures var a := Answer(cfg, cache, files, keyword, queryOnline, downloadMp3, lookup, transfers);
      a.outcome.word == cache.index[keyword] && a.outcome.err == None && a.cache == cache
  {
  }

  /** Never asked twice: once a keyword has been served, asking for it again
      serves the same entry from the index and leaves the cache as it is. */
  lemma NeverAskedTwice(cfg: Config, cache: Cache, files: map<string, string>, files': map<string, string>, keyword: string,
                        queryOnline: bool, queryOnline': bool, downloadMp3: bool, downloadMp3': bool,
                        lookup: Result<Word>, lookup': Result<Word>, transfers: nat -> Transfer, transfers': nat -> Transfer)
    requires Answer(cfg, cache, files, keyword, queryOnline, downloadMp3, lookup, transfers).outcome.word.Some?
    ensures var a := Answer(cfg, cache, files, keyword, queryOnline, downloadMp3, lookup, transfers);
      var b := Answer(cfg, a.cache, files', keyword, queryOnline', downloadMp3', lookup', transfers');
      b.outcome.word == a.outcome.word && b.outcome.err == None && b.cache == a.cache
  {
    var a := Answer(cfg, cache, files, keyword, queryOnline, downloadMp3, lookup, transfers);
    AnswerKeepsEntries(cfg, cache, files, keyword, queryOnline, downloadMp3, lookup, transfers);
    KnownIsServed(cfg, a.cache, files', keyword, queryOnline', downloadMp3', lookup', transfers');
  }

  /** The downloader invariant survives every `download` of a keyword read
      from the word list. */
  lemma AnswerKeepsValid(cfg: Config, cache: Cache, files: map<string, string>, keyword: string, queryOnline: bool,
                         downloadMp3: bool, lookup: Result<Word>, transfers: nat -> Transfer)
    requires ValidState(cfg.codec, cache.index, cache.log) && IsKeyword(keyword)
    ensures var a := Answer(cfg, cache, files, keyword, queryOnline, downloadMp3, lookup, transfers);
      ValidState(cfg.codec, a.cache.index, a.cache.log)
  {
    ConsultKeepsAgreement(cfg.codec, cache.index, cache.log, keyword, queryOnline, lookup);
  }

  // ---------------------------------------------------------------------
  // The downloader object.

  class Downloader {
    /** The dictionary looked up, `dict.Type()`. */
    const dict: Dictionary
    const codec: Codec
    /** The dictionary's directory, `string(dict.Type())`. */
    const dictDir: string
    /** The contents of `words.txt`. */
    var words: string
    var existWords: Index

    ghost predicate Valid()
      reads this
    {
      ValidState(codec, existWords, words)
    }

    constructor (dict: Dictionary, codec: Codec, dictDir: string, words: string)
      ensures this.dict == dict && this.codec == codec && this.dictDir == dictDir && this.words == words
      ensures existWords == map[]
    {
      this.dict := dict;
      this.codec := codec;
      this.dictDir := dictDir;
      this.words := words;
      existWords := map[];
    }

    /** `loadAllFinished`: read the log chunk by chunk into a fresh index.
        An unreadable line stops the program; that is `ok == false`. */
    method LoadAllFinished() returns (ok: bool)
      modifies this`existWords
      ensures ok <==> Replay(codec, Lines(words)).Some?
      ensures ok ==> existWords == Replay(codec, Lines(words)).value
      ensures ok && Lawful(codec) && EndsWithNewline(words) ==> Valid()
    {
      existWords := map[];
      var chunks := Lines(words);
      var i := 0;
      while i < |chunks|
        invariant i <= |chunks|
        invariant Replay(codec, chunks[..i]) == Some(existWords)
      {
        var line := chunks[i];
        assert chunks[..i + 1] == chunks[..i] + [line];
        ReplaySnoc(codec, chunks[..i], line);
        if HasPrefix(line, NotFoundPrefix) {
          var word := TrimPrefix(line, NotFoundPrefix);
          word := TrimSpace(word);
          existWords := existWords[word := None];
        } else {
          var parsed := codec.parse(line);
          if parsed.None? {
            ReplayFailsOnUnreadable(codec, chunks);
            return false;
          }
          existWords := existWords[parsed.value.HeadWord() := Some(parsed.value)];
        }
        i := i + 1;
      }
      assert chunks[..i] == chunks;
      ok := true;
      LoadedAgrees(codec, chunks);
    }

    /** `newDownloader`: a downloader over the log's current contents. */
    static method NewDownloader(dict: Dictionary, codec: Codec, dictDir: string, words: string) returns (d: Downloader, ok: bool)
      ensures fresh(d)
      ensures d.dict == dict && d.codec == codec && d.dictDir == dictDir && d.words == words
      ensures ok <==> Replay(codec, Lines(words)).Some?
      ensures ok ==> d.existWords == Replay(codec, Lines(words)).value
      ensures ok && Lawful(codec) && EndsWithNewline(words) ==> d.Valid()
    {
      d := new Downloader(dict, codec, dictDir, words);
      ok := d.LoadAllFinished();
    }

    /** `download(keyword)`: `lookup` is what the dictionary would answer if
        asked, `downloadMp3` the command-line switch, and `transfers(i)` how
        the i-th recording's download would end. */
    method Download(keyword: string, queryOnline: bool, lookup: Result<Word>, downloadMp3: bool,
                    store: FileStore, transfers: nat -> Transfer)
      returns (word: Option<Word>, cached: bool, err: Option<Err>)
      modifies this, store
      ensures var c := Consult(codec, old(existWords), old(words), keyword, queryOnline, lookup);
        && existWords == c.index && words == c.log
        && match c.decision
           case Refused(refusedCached, e) =>
             word == None && cached == refusedCached && err == Some(e) && store.files == old(store.files)
           case Served(w, exist) =>
             var m := MirrorAll(old(store.files), dictDir, w.Mp3(), transfers);
             && word == Some(w) && err == None
             && cached == Cached(exist, downloadMp3, m)
             && store.files == (if downloadMp3 then m.files else old(store.files))
      ensures old(Valid()) && IsKeyword(keyword) ==> Valid()
    {
      if old(Valid()) && IsKeyword(keyword) {
        ConsultKeepsAgreement(codec, existWords, words, keyword, queryOnline, lookup);
      }
      var decision := ConsultIndex(keyword, queryOnline, lookup);
      match decision
      case Refused(refusedCached, e) =>
        return None, refusedCached, Some(e);
      case Served(w, exist) =>
        cached := exist;
        if downloadMp3 {
          var all := MirrorRecordings(w.Mp3(), store, transfers);
          cached := cached && all;
        }
        return Some(w), cached, None;
    }

    /** The part of `download` before the recordings: the index, the
        online lookup and the log line. */
    method ConsultIndex(keyword: string, queryOnline: bool, lookup: Result<Word>) returns (decision: Decision)
      modifies this
      ensures Consulted(decision, existWords, words) == Consult(codec, old(existWords), old(words), keyword, queryOnline, lookup)
    {
      var exist := keyword in existWords;
      var w: Word;
      if !exist {
        if !queryOnline {
          return Refused(true, ErrNotFound);
        }
        match lookup
        case Fail(e) =>
          if e == ErrNotFound {
            words := words + NotFoundLine(keyword);
            return Refused(false, ErrNotFound);
          }
          return Refused(false, e);
        case Ok(v) =>
          w := v;
      } else if existWords[keyword].None? {
        return Refused(false, ErrNotFound);
      } else {
        w := existWords[keyword].value;
      }
      if !exist {
        words := words + EntryLine(codec, w);
        existWords := existWords[keyword := Some(w)];
        existWords := existWords[w.HeadWord() := Some(w)];
      }
      return Served(w, exist);
    }

    /** The recordings loop of `download`: every URL is tried in turn and
        its error, if any, is only logged. */
    method MirrorRecordings(urls: seq<string>, store: FileStore, transfers: nat -> Transfer) returns (all: bool)
      modifies store
      ensures Mirrored(all, store.files) == MirrorAll(old(store.files), dictDir, urls, transfers)
    {
      all := true;
      var i := 0;
      while i < |urls|
        invariant i <= |urls|
        invariant MirrorAll(old(store.files), dictDir, urls[..i], transfers) == Mirrored(all, store.files)
      {
        MirrorAllStep(old(store.files), dictDir, urls, i, transfers);
        var mp3Cached, mp3Err := store.DownloadMp3(dictDir, urls[i], transfers(i));
        all := all && mp3Cached;
        i := i + 1;
      }
      assert urls[..i] == urls;
    }
  }
}
