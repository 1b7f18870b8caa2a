// main.go's `main` once the flags are parsed: the configured dictionaries
// are put in card order, one downloader is made for each, and every line of
// the word list goes through all of them in that order. Their answers
// decide the flash card written for the word and whether the program
// pauses before the next one.

module WordLoop {
  import opened Dict
  import opened Strings
  import opened Entries
  import opened EntryLog
  import opened AssetStore
  import opened WordCache
  import AnkiCsv

  // ---------------------------------------------------------------------
  // Card order.

  /** `ankiDictScore`. */
  function Score(d: Dictionary): (r: nat)
    ensures r < 4
  {
    match d
    case Collins => 0
    case Webster => 1
    case Dictcn => 2
    case BingDict => 3
  }

  /** Different dictionaries have different scores. */
  lemma ScoreInjective(a: Dictionary, b: Dictionary)
    requires Score(a) == Score(b)
    ensures a == b
  {
  }

  /** Collins comes before Webster, Webster before dict.cn and dict.cn before
      Bing. */
  lemma CardOrder()
    ensures Score(Collins) < Score(Webster) < Score(Dictcn) < Score(BingDict)
  {
  }

  predicate Sorted(ds: seq<Dictionary>) {
    forall p, q :: 0 <= p < q < |ds| ==> Score(ds[p]) <= Score(ds[q])
  }

  /** The `sort.Slice` of `main` by score, in place. */
  method SortByScore(a: array<Dictionary>)
    modifies a
    ensures Sorted(a[..])
    ensures multiset(a[..]) == multiset(old(a[..]))
  {
    var i := 0;
    while i < a.Length
      invariant i <= a.Length
      invariant Sorted(a[..i])
      invariant multiset(a[..]) == multiset(old(a[..]))
    {
      InsertLast(a, i);
      i := i + 1;
    }
    assert a[..i] == a[..];
  }

  /** Moves `a[i]` down into the sorted prefix `a[..i]`. */
  method InsertLast(a: array<Dictionary>, i: nat)
    requires i < a.Length && Sorted(a[..i])
    modifies a
    ensures Sorted(a[..i + 1])
    ensures multiset(a[..]) == multiset(old(a[..]))
  {
    var j := i;
    while j > 0 && Score(a[j - 1]) > Score(a[j])
      invariant 0 <= j <= i
      invariant forall p, q :: 0 <= p < q <= i && p != j && q != j ==> Score(a[p]) <= Score(a[q])
      invariant forall q :: j < q <= i ==> Score(a[j]) <= Score(a[q])
      invariant multiset(a[..]) == multiset(old(a[..]))
    {
      Swap(a, j - 1);
      j := j - 1;
    }
  }

  /** Exchanges `a[k]` and `a[k + 1]`. */
  method Swap(a: array<Dictionary>, k: nat)
    requires k + 1 < a.Length
    modifies a
    ensures a[k] == old(a[k + 1]) && a[k + 1] == old(a[k])
    ensures forall m :: 0 <= m < a.Length && m != k && m != k + 1 ==> a[m] == old(a[m])
    ensures multiset(a[..]) == multiset(old(a[..]))
  {
    a[k], a[k + 1] := a[k + 1], a[k];
  }

  /** Since no two dictionaries share a score, the order is fully
      determined: any two sorted arrangements of the same dictionaries are
      equal, whatever algorithm `sort.Slice` uses and however unstable it
      is. */
  lemma {:induction false} SortedArrangementUnique(xs: seq<Dictionary>, ys: seq<Dictionary>)
    requires Sorted(xs) && Sorted(ys)
    requires multiset(xs) == multiset(ys)
    ensures xs == ys
  {
    if xs != [] {
      HeadsAgree(xs, ys);
      SortedArrangementUnique(xs[1..], ys[1..]);
      assert xs == [xs[0]] + xs[1..] && ys == [ys[0]] + ys[1..];
    }
  }

  /** Two sorted arrangements of the same dictionaries start alike, and what
      follows is again two sorted arrangements of the same dictionaries. */
  lemma HeadsAgree(xs: seq<Dictionary>, ys: seq<Dictionary>)
    requires Sorted(xs) && Sorted(ys)
    requires multiset(xs) == multiset(ys)
    requires xs != []
    ensures ys != [] && xs[0] == ys[0]
    ensures Sorted(xs[1..]) && Sorted(ys[1..])
    ensures multiset(xs[1..]) == multiset(ys[1..])
  {
    Uncons(xs);
    assert ys != [];
    Uncons(ys);
    HeadIsLeast(xs, ys[0]);
    HeadIsLeast(ys, xs[0]);
    ScoreInjective(xs[0], ys[0]);
  }

  lemma Uncons(xs: seq<Dictionary>)
    requires xs != []
    ensures multiset(xs[1..]) == multiset(xs) - multiset{xs[0]}
    ensures xs[0] in multiset(xs)
    ensures Sorted(xs) ==> Sorted(xs[1..])
  {
    assert xs == [xs[0]] + xs[1..];
  }

  /** The first of a sorted arrangement has the least score. */
  lemma HeadIsLeast(xs: seq<Dictionary>, d: Dictionary)
    requires Sorted(xs) && d in multiset(xs)
    ensures Score(xs[0]) <= Score(d)
  {
    var i :| 0 <= i < |xs| && xs[i] == d;
  }

  // ---------------------------------------------------------------------
  // Start-up.

  /** The dictionaries of `downloaders`, in order. */
  function Dicts(downloaders: seq<Downloader>): (ds: seq<Dictionary>)
    ensures |ds| == |downloaders|
    ensures forall i :: 0 <= i < |downloaders| ==> ds[i] == downloaders[i].dict
  {
    if downloaders == [] then []
    else Dicts(downloaders[..|downloaders| - 1]) + [downloaders[|downloaders| - 1].dict]
  }

  /** `d` is what `newDownloader` makes for its dictionary: that
      dictionary's codec, its type name as directory and its log, loaded. */
  ghost predicate Built(d: Downloader, codecs: Dictionary -> Codec, typeName: Dictionary -> string, logs: Dictionary -> string)
    reads d
  {
    && d.codec == codecs(d.dict) && d.dictDir == typeName(d.dict) && d.words == logs(d.dict)
    && Replay(d.codec, Lines(d.words)).Some? && d.existWords == Replay(d.codec, Lines(d.words)).value
  }

  /** The start of `main`: the configured dictionaries are put in card
      order, then one downloader is made for each, in that order.
      `codecs`, `typeName` and `logs` give a dictionary's entry codec, type
      name and `words.txt` contents; an unreadable log line stops the
      program, which is `ok == false`. */
  method Start(dicts: array<Dictionary>, codecs: Dictionary -> Codec, typeName: Dictionary -> string, logs: Dictionary -> string)
    returns (downloaders: seq<Downloader>, ok: bool)
    modifies dicts
    ensures Sorted(dicts[..]) && multiset(dicts[..]) == multiset(old(dicts[..]))
    ensures ok <==> forall i :: 0 <= i < dicts.Length ==> Replay(codecs(dicts[i]), Lines(logs(dicts[i]))).Some?
    ensures ok ==> Dicts(downloaders) == dicts[..]
    ensures ok ==> forall i :: 0 <= i < |downloaders| ==> fresh(downloaders[i]) && Built(downloaders[i], codecs, typeName, logs)
    ensures ok ==> forall p, q :: 0 <= p < q < |downloaders| ==> downloaders[p] != downloaders[q]
    ensures ok && (forall i :: 0 <= i < dicts.Length ==> Lawful(codecs(dicts[i])) && EndsWithNewline(logs(dicts[i])))
      ==> AllValid(downloaders)
  {
    SortByScore(dicts);
    downloaders, ok := BuildAll(dicts[..], codecs, typeName, logs);
  }

  /** The `newDownloader` loop of `main`, over the sorted dictionaries. */
  method BuildAll(dicts: seq<Dictionary>, codecs: Dictionary -> Codec, typeName: Dictionary -> string, logs: Dictionary -> string)
    returns (downloaders: seq<Downloader>, ok: bool)
    ensures ok <==> forall i :: 0 <= i < |dicts| ==> Replay(codecs(dicts[i]), Lines(logs(dicts[i]))).Some?
    ensures ok ==> Dicts(downloaders) == dicts
    ensures ok ==> forall i :: 0 <= i < |downloaders| ==> fresh(downloaders[i]) && Built(downloaders[i], codecs, typeName, logs)
    ensures ok ==> forall p, q :: 0 <= p < q < |downloaders| ==> downloaders[p] != downloaders[q]
    ensures ok && (forall i :: 0 <= i < |dicts| ==> Lawful(codecs(dicts[i])) && EndsWithNewline(logs(dicts[i])))
      ==> AllValid(downloaders)
  {
    downloaders := [];
    var i := 0;
    while i < |dicts|
      invariant i <= |dicts| && |downloaders| == i
      invariant forall j :: 0 <= j < i ==> downloaders[j].dict == dicts[j]
      invariant forall j :: 0 <= j < i ==> fresh(downloaders[j]) && Built(downloaders[j], codecs, typeName, logs)
      invariant forall p, q :: 0 <= p < q < i ==> downloaders[p] != downloaders[q]
    {
      var d, loaded := Downloader.NewDownloader(dicts[i], codecs(dicts[i]), typeName(dicts[i]), logs(dicts[i]));
      if !loaded {
        return downloaders, false;
      }
      downloaders := downloaders + [d];
      i := i + 1;
    }
    ok := true;
    assert Dicts(downloaders) == dicts;
    if forall j :: 0 <= j < |dicts| ==> Lawful(codecs(dicts[j])) && EndsWithNewline(logs(dicts[j])) {
      BuiltValid(downloaders, dicts, codecs, typeName, logs);
    }
  }

  /** Downloaders built over lawful codecs and whole logs are all valid:
      each index is exactly what its log says. */
  lemma BuiltValid(downloaders: seq<Downloader>, dicts: seq<Dictionary>, codecs: Dictionary -> Codec,
                   typeName: Dictionary -> string, logs: Dictionary -> string)
    requires |downloaders| == |dicts|
    requires forall j :: 0 <= j < |dicts| ==> downloaders[j].dict == dicts[j] && Built(downloaders[j], codecs, typeName, logs)
    requires forall j :: 0 <= j < |dicts| ==> Lawful(codecs(dicts[j])) && EndsWithNewline(logs(dicts[j]))
    ensures AllValid(downloaders)
  {
    forall j | 0 <= j < |downloaders|
      ensures downloaders[j].Valid()
    {
      LoadedAgrees(downloaders[j].codec, Lines(downloaders[j].words));
    }
    AllValidOf(downloaders);
  }

  // ---------------------------------------------------------------------
  // One word.

  /** The `noWait` fold: it starts true, survives a source only if that
      source was cached, and is reset by any `ErrNotFound`. */
  function NoWait(os: seq<Outcome>): bool {
    if os == [] then true
    else
      var last := os[|os| - 1];
      (NoWait(os[..|os| - 1]) && last.cached) || last.err == Some(ErrNotFound)
  }

  /** The sleep is skipped exactly when every source not followed (at or
      after it) by an `ErrNotFound` was cached. */
  lemma {:induction false} NoWaitMeans(os: seq<Outcome>)
    ensures NoWait(os) <==>
      forall j :: 0 <= j < |os| && !os[j].cached ==> exists k :: j <= k < |os| && os[k].err == Some(ErrNotFound)
  {
    if os != [] {
      var init := os[..|os| - 1];
      var last := os[|os| - 1];
      NoWaitMeans(init);
      if last.err == Some(ErrNotFound) {
        forall j | 0 <= j < |os| && !os[j].cached
          ensures exists k :: j <= k < |os| && os[k].err == Some(ErrNotFound)
        {
          assert os[|os| - 1].err == Some(ErrNotFound);
        }
      } else if !last.cached {
        assert !(exists k :: |os| - 1 <= k < |os| && os[k].err == Some(ErrNotFound));
      } else if NoWait(init) {
        forall j | 0 <= j < |os| && !os[j].cached
          ensures exists k :: j <= k < |os| && os[k].err == Some(ErrNotFound)
        {
          assert j < |init| && init[j] == os[j];
          var k :| j <= k < |init| && init[k].err == Some(ErrNotFound);
          assert os[k] == init[k];
        }
      } else {
        var j :| 0 <= j < |init| && !init[j].cached && !exists k :: j <= k < |init| && init[k].err == Some(ErrNotFound);
        assert os[j] == init[j];
        forall k | j <= k < |os|
          ensures os[k].err != Some(ErrNotFound)
        {
          if k < |init| {
            assert os[k] == init[k];
          }
        }
      }
    }
  }

  /** A word every source had cached is never waited for; a source that had
      to fetch something, with no `ErrNotFound` after it, is. */
  lemma NoWaitCases(os: seq<Outcome>)
    ensures (forall j :: 0 <= j < |os| ==> os[j].cached) ==> NoWait(os)
    ensures os != [] && !os[|os| - 1].cached && os[|os| - 1].err != Some(ErrNotFound) ==> !NoWait(os)
  {
    NoWaitMeans(os);
  }

  /** `err == nil`: the entry goes on the card. */
  predicate Succeeded(o: Outcome) {
    o.err.None? && o.word.Some?
  }

  /** The entries collected for the card: those returned without error, in
      the downloaders' order. */
  function Successes(os: seq<Outcome>): seq<Word> {
    if os == [] then []
    else
      var last := os[|os| - 1];
      Successes(os[..|os| - 1]) + (if Succeeded(last) then [last.word.value] else [])
  }

  /** The positions of the successful outcomes, in increasing order. */
  function SuccessIndices(os: seq<Outcome>): seq<nat> {
    if os == [] then []
    else SuccessIndices(os[..|os| - 1]) + (if Succeeded(os[|os| - 1]) then [|os| - 1] else [])
  }

  /** One more outcome extends the collected entries and the `noWait`
      fold as the loop of `main` does. */
  lemma TallySnoc(os: seq<Outcome>, o: Outcome)
    ensures Successes(os + [o]) == Successes(os) + (if Succeeded(o) then [o.word.value] else [])
    ensures NoWait(os + [o]) == ((NoWait(os) && o.cached) || o.err == Some(ErrNotFound))
  {
    assert (os + [o])[..|os|] == os;
  }

  /** `words` and `noWait` are what the loop of `main` has gathered from
      `outcomes`. */
  predicate Tallied(outcomes: seq<Outcome>, words: seq<Word>, noWait: bool) {
    words == Successes(outcomes) && noWait == NoWait(outcomes)
  }

  /** The body of the loop of `main` after one `download`: the `noWait`
      fold and the collected entries take in one more outcome. */
  method Tally(outcomes: seq<Outcome>, words: seq<Word>, noWait: bool, o: Outcome)
    returns (outcomes': seq<Outcome>, words': seq<Word>, noWait': bool)
    requires Tallied(outcomes, words, noWait)
    ensures outcomes' == outcomes + [o]
    ensures Tallied(outcomes', words', noWait')
  {
    TallySnoc(outcomes, o);
    noWait' := (noWait && o.cached) || o.err == Some(ErrNotFound);
    words' := words;
    if o.err.None? && o.word.Some? {
      words' := words' + [o.word.value];
    }
    outcomes' := outcomes + [o];
  }

  /** The collected entries are exactly the successful outcomes' entries,
      each once and in the downloaders' order: the k-th entry is that of
      the k-th successful outcome. */
  lemma {:induction false} SuccessesAreTheSuccessful(os: seq<Outcome>)
    ensures |SuccessIndices(os)| == |Successes(os)| <= |os|
    ensures forall k :: 0 <= k < |Successes(os)| ==>
      SuccessIndices(os)[k] < |os| && Succeeded(os[SuccessIndices(os)[k]])
      && Successes(os)[k] == os[SuccessIndices(os)[k]].word.value
    ensures forall k, l :: 0 <= k < l < |SuccessIndices(os)| ==> SuccessIndices(os)[k] < SuccessIndices(os)[l]
    ensures forall j :: 0 <= j < |os| && Succeeded(os[j]) ==> j in SuccessIndices(os)
  {
    if os != [] {
      var n := |os| - 1;
      var init := os[..n];
      SuccessesAreTheSuccessful(init);
      forall j | 0 <= j < n
        ensures os[j] == init[j]
      {
      }
      if Succeeded(os[n]) {
        assert SuccessIndices(os) == SuccessIndices(init) + [n];
        assert Successes(os) == Successes(init) + [os[n].word.value];
      } else {
        assert SuccessIndices(os) == SuccessIndices(init);
        assert Successes(os) == Successes(init);
      }
    }
  }

  /** The configurations of `downloaders`, in order. */
  function Configs(downloaders: seq<Downloader>): (cs: seq<Config>)
    ensures |cs| == |downloaders|
    ensures forall i :: 0 <= i < |downloaders| ==> cs[i] == Config(downloaders[i].codec, downloaders[i].dictDir)
  {
    if downloaders == [] then []
    else
      var d := downloaders[|downloaders| - 1];
      Configs(downloaders[..|downloaders| - 1]) + [Config(d.codec, d.dictDir)]
  }

  function CacheOf(d: Downloader): Cache
    reads d
  {
    Cache(d.existWords, d.words)
  }

  /** The caches of `downloaders`, in order. */
  function Caches(downloaders: seq<Downloader>): (cs: seq<Cache>)
    reads set i | 0 <= i < |downloaders| :: downloaders[i]
    ensures |cs| == |downloaders|
    ensures forall i :: 0 <= i < |downloaders| ==> cs[i] == CacheOf(downloaders[i])
  {
    if downloaders == [] then []
    else Caches(downloaders[..|downloaders| - 1]) + [CacheOf(downloaders[|downloaders| - 1])]
  }

  /** Caches are equal when they agree downloader by downloader. */
  lemma CachesAre(downloaders: seq<Downloader>, cs: seq<Cache>)
    requires |cs| == |downloaders|
    requires forall i :: 0 <= i < |downloaders| ==> CacheOf(downloaders[i]) == cs[i]
    ensures Caches(downloaders) == cs
  {
  }

  /** Every downloader's cache satisfies the downloader invariant. */
  ghost predicate AllValidStates(cfgs: seq<Config>, caches: seq<Cache>) {
    |cfgs| == |caches| && forall i :: 0 <= i < |cfgs| ==> ValidState(cfgs[i].codec, caches[i].index, caches[i].log)
  }

  /** Every downloader is valid. */
  ghost predicate AllValid(downloaders: seq<Downloader>)
    reads set i | 0 <= i < |downloaders| :: downloaders[i]
  {
    AllValidStates(Configs(downloaders), Caches(downloaders))
  }

  lemma AllValidOf(downloaders: seq<Downloader>)
    ensures AllValid(downloaders) <==> forall i :: 0 <= i < |downloaders| ==> downloaders[i].Valid()
  {
  }

  /** How the recordings fetched for the i-th dictionary end. */
  function Slice(transfers: (nat, nat) -> Transfer, i: nat): nat -> Transfer {
    (k: nat) => transfers(i, k)
  }

  /** What the downloaders answer for one keyword, and the caches and files
      they leave behind. */
  datatype Round = Round(outcomes: seq<Outcome>, caches: seq<Cache>, files: map<string, string>)

  /** The first `n` downloaders, configured by `cfgs` and starting from
      `before`, answer `keyword` one after the other; they share the file
      store. `lookups(i)` is what the i-th dictionary would answer. */
  function AskAll(cfgs: seq<Config>, before: seq<Cache>, files: map<string, string>, keyword: string, queryOnline: bool,
                  downloadMp3: bool, lookups: nat -> Result<Word>, transfers: (nat, nat) -> Transfer, n: nat): (r: Round)
    requires n <= |cfgs| == |before|
    ensures |r.outcomes| == n && |r.caches| == |before|
  {
    if n == 0 then Round([], before, files)
    else
      var p := AskAll(cfgs, before, files, keyword, queryOnline, downloadMp3, lookups, transfers, n - 1);
      var a := Answer(cfgs[n - 1], p.caches[n - 1], p.files, keyword, queryOnline, downloadMp3, lookups(n - 1), Slice(transfers, n - 1));
      Round(p.outcomes + [a.outcome], p.caches[n - 1 := a.cache], a.files)
  }

  /** Each downloader answers once, in order, from its own cache as it was
      before the word: the i-th outcome and cache are those of `download`
      on the i-th cache and the files the earlier downloaders left. */
  lemma {:induction false} AskAllAnswers(cfgs: seq<Config>, before: seq<Cache>, files: map<string, string>, keyword: string,
                                         queryOnline: bool, downloadMp3: bool, lookups: nat -> Result<Word>,
                                         transfers: (nat, nat) -> Transfer, n: nat, i: nat)
    requires i < n <= |cfgs| == |before|
    ensures var a := Answer(cfgs[i], before[i], AskAll(cfgs, before, files, keyword, queryOnline, downloadMp3, lookups, transfers, i).files,
                            keyword, queryOnline, downloadMp3, lookups(i), Slice(transfers, i));
      && AskAll(cfgs, before, files, keyword, queryOnline, downloadMp3, lookups, transfers, n).outcomes[i] == a.outcome
      && AskAll(cfgs, before, files, keyword, queryOnline, downloadMp3, lookups, transfers, n).caches[i] == a.cache
  {
    if i == n - 1 {
      AskAllUntouched(cfgs, before, files, keyword, queryOnline, downloadMp3, lookups, transfers, n - 1, i);
    } else {
      AskAllAnswers(cfgs, before, files, keyword, queryOnline, downloadMp3, lookups, transfers, n - 1, i);
    }
  }

  /** The downloaders not yet asked still hold their caches. */
  lemma {:induction false} AskAllUntouched(cfgs: seq<Config>, before: seq<Cache>, files: map<string, string>, keyword: string,
                                           queryOnline: bool, downloadMp3: bool, lookups: nat -> Result<Word>,
                                           transfers: (nat, nat) -> Transfer, n: nat, i: nat)
    requires n <= i < |cfgs| == |before|
    ensures AskAll(cfgs, before, files, keyword, queryOnline, downloadMp3, lookups, transfers, n).caches[i] == before[i]
  {
    if n > 0 {
      AskAllUntouched(cfgs, before, files, keyword, queryOnline, downloadMp3, lookups, transfers, n - 1, i);
    }
  }

  /** Every downloader stays valid through a word read from the word list. */
  lemma AskAllKeepsValid(cfgs: seq<Config>, before: seq<Cache>, files: map<string, string>, keyword: string,
                         queryOnline: bool, downloadMp3: bool, lookups: nat -> Result<Word>,
                         transfers: (nat, nat) -> Transfer, n: nat)
    requires n <= |cfgs| == |before|
    requires AllValidStates(cfgs, before) && IsKeyword(keyword)
    ensures AllValidStates(cfgs, AskAll(cfgs, before, files, keyword, queryOnline, downloadMp3, lookups, transfers, n).caches)
  {
    var r := AskAll(cfgs, before, files, keyword, queryOnline, downloadMp3, lookups, transfers, n);
    forall i | 0 <= i < |cfgs|
      ensures ValidState(cfgs[i].codec, r.caches[i].index, r.caches[i].log)
    {
      if i < n {
        var q := AskAll(cfgs, before, files, keyword, queryOnline, downloadMp3, lookups, transfers, i);
        AskAllAnswers(cfgs, before, files, keyword, queryOnline, downloadMp3, lookups, transfers, n, i);
        AnswerKeepsValid(cfgs[i], before[i], q.files, keyword, queryOnline, downloadMp3, lookups(i), Slice(transfers, i));
      } else {
        AskAllUntouched(cfgs, before, files, keyword, queryOnline, downloadMp3, lookups, transfers, n, i);
      }
    }
  }

  /** No downloader forgets an entry while a word goes round. */
  lemma {:induction false} AskAllKeepsEntries(cfgs: seq<Config>, before: seq<Cache>, files: map<string, string>, keyword: string,
                                              queryOnline: bool, downloadMp3: bool, lookups: nat -> Result<Word>,
                                              transfers: (nat, nat) -> Transfer, n: nat, i: nat, k: string)
    requires n <= |cfgs| == |before| && i < |before|
    requires Knows(before[i], k)
    ensures Knows(AskAll(cfgs, before, files, keyword, queryOnline, downloadMp3, lookups, transfers, n).caches[i], k)
  {
    if n > 0 {
      var p := AskAll(cfgs, before, files, keyword, queryOnline, downloadMp3, lookups, transfers, n - 1);
      AskAllKeepsEntries(cfgs, before, files, keyword, queryOnline, downloadMp3, lookups, transfers, n - 1, i, k);
      AnswerKeepsEntries(cfgs[n - 1], p.caches[n - 1], p.files, keyword, queryOnline, downloadMp3, lookups(n - 1), Slice(transfers, n - 1));
    }
  }

  /** One downloader answers `keyword`. */
  method Ask(d: Downloader, keyword: string, queryOnline: bool, downloadMp3: bool,
             lookup: Result<Word>, store: FileStore, transfers: nat -> Transfer)
    returns (o: Outcome)
    modifies d, store
    ensures Answered(o, CacheOf(d), store.files) ==
      Answer(Config(d.codec, d.dictDir), old(CacheOf(d)), old(store.files), keyword, queryOnline, downloadMp3, lookup, transfers)
  {
    var word, wordCached, err := d.Download(keyword, queryOnline, lookup, downloadMp3, store, transfers);
    o := Outcome(word, wordCached, err);
  }

  /** The first `i` downloaders have answered `keyword`: the outcomes so
      far, the caches and the stored files are those of `AskAll` from the
      caches `before` and the files `files`. */
  ghost predicate AskedSoFar(cfgs: seq<Config>, before: seq<Cache>, files: map<string, string>, keyword: string,
                             queryOnline: bool, downloadMp3: bool, lookups: nat -> Result<Word>, transfers: (nat, nat) -> Transfer,
                             i: nat, outcomes: seq<Outcome>, caches: seq<Cache>, stored: map<string, string>)
  {
    && i <= |cfgs| == |before|
    && var r := AskAll(cfgs, before, files, keyword, queryOnline, downloadMp3, lookups, transfers, i);
      (outcomes, caches, stored) == (r.outcomes, r.caches, r.files)
  }

  /** Before the first downloader is asked nothing has changed. */
  lemma AskedNothing(cfgs: seq<Config>, before: seq<Cache>, files: map<string, string>, keyword: string,
                     queryOnline: bool, downloadMp3: bool, lookups: nat -> Result<Word>, transfers: (nat, nat) -> Transfer)
    requires |cfgs| == |before|
    ensures AskedSoFar(cfgs, before, files, keyword, queryOnline, downloadMp3, lookups, transfers, 0, [], before, files)
  {
  }

  /** Once every downloader has answered, the outcomes and the state are
      those of `AskAll` over all of them. */
  lemma AskedAll(cfgs: seq<Config>, before: seq<Cache>, files: map<string, string>, keyword: string,
                 queryOnline: bool, downloadMp3: bool, lookups: nat -> Result<Word>, transfers: (nat, nat) -> Transfer,
                 outcomes: seq<Outcome>, caches: seq<Cache>, stored: map<string, string>)
    requires AskedSoFar(cfgs, before, files, keyword, queryOnline, downloadMp3, lookups, transfers, |cfgs|, outcomes, caches, stored)
    ensures var r := AskAll(cfgs, before, files, keyword, queryOnline, downloadMp3, lookups, transfers, |cfgs|);
      outcomes == r.outcomes && caches == r.caches && stored == r.files
  {
  }

  /** The i-th downloader answers; the others keep their caches. */
  method AskNext(downloaders: seq<Downloader>, i: nat, keyword: string, queryOnline: bool, downloadMp3: bool,
                 lookups: nat -> Result<Word>, store: FileStore, transfers: (nat, nat) -> Transfer,
                 ghost before: seq<Cache>, ghost files: map<string, string>, ghost outcomes: seq<Outcome>)
    returns (o: Outcome)
    requires i < |downloaders|
    requires forall p, q :: 0 <= p < q < |downloaders| ==> downloaders[p] != downloaders[q]
    requires AskedSoFar(Configs(downloaders), before, files, keyword, queryOnline, downloadMp3, lookups, transfers,
                        i, outcomes, Caches(downloaders), store.files)
    modifies downloaders[i], store
    ensures AskedSoFar(Configs(downloaders), before, files, keyword, queryOnline, downloadMp3, lookups, transfers,
                       i + 1, outcomes + [o], Caches(downloaders), store.files)
  {
    ghost var caches := Caches(downloaders);
    o := Ask(downloaders[i], keyword, queryOnline, downloadMp3, lookups(i), store, Slice(transfers, i));
    forall j | 0 <= j < |downloaders| && j != i
      ensures CacheOf(downloaders[j]) == caches[j]
    {
      assert downloaders[j] != downloaders[i];
    }
    assert Caches(downloaders) == caches[i := CacheOf(downloaders[i])];
  }

  /** What `main` does with one line of the word list: each downloader in
      turn answers the trimmed word. `lookups(i)` is what the i-th
      dictionary would answer and `transfers(i, n)` how the n-th recording
      fetched for it would end. */
  method ProcessWord(downloaders: seq<Downloader>, line: string, queryOnline: bool, downloadMp3: bool,
                     lookups: nat -> Result<Word>, store: FileStore, transfers: (nat, nat) -> Transfer)
    returns (keyword: string, outcomes: seq<Outcome>, words: seq<Word>, noWait: bool)
    requires forall p, q :: 0 <= p < q < |downloaders| ==> downloaders[p] != downloaders[q]
    modifies set i | 0 <= i < |downloaders| :: downloaders[i], store
    ensures keyword == TrimSpace(line)
    ensures AskedSoFar(Configs(downloaders), old(Caches(downloaders)), old(store.files), keyword, queryOnline, downloadMp3,
                       lookups, transfers, |downloaders|, outcomes, Caches(downloaders), store.files)
    ensures words == Successes(outcomes) && noWait == NoWait(outcomes)
  {
    keyword := TrimSpace(line);
    ghost var before := Caches(downloaders);
    ghost var cfgs := Configs(downloaders);
    noWait := true;
    words := [];
    outcomes := [];
    AskedNothing(cfgs, before, old(store.files), keyword, queryOnline, downloadMp3, lookups, transfers);
    var i := 0;
    while i < |downloaders|
      invariant AskedSoFar(cfgs, before, old(store.files), keyword, queryOnline, downloadMp3, lookups, transfers,
                           i, outcomes, Caches(downloaders), store.files)
      invariant Tallied(outcomes, words, noWait)
    {
      var o := AskNext(downloaders, i, keyword, queryOnline, downloadMp3, lookups, store, transfers,
                       before, old(store.files), outcomes);
      outcomes, words, noWait := Tally(outcomes, words, noWait, o);
      i := i + 1;
    }
  }

  // ---------------------------------------------------------------------
  // The word list.

  /** What became of one line of the word list. */
  datatype Report = Report(keyword: string, outcomes: seq<Outcome>, words: seq<Word>, slept: bool)

  /** The report of a line whose trimmed word got `outcomes`: the entries
      collected for the card and whether the program slept. */
  function ReportOf(keyword: string, outcomes: seq<Outcome>): Report {
    Report(keyword, outcomes, Successes(outcomes), !NoWait(outcomes))
  }

  /** The card line written for one report: one when cards are asked for
      and at least one dictionary answered. */
  function CardLine(words: seq<Word>, anki: bool, name: Dictionary -> string, typeName: Dictionary -> string): string {
    if anki && words != [] then AnkiCsv.CsvLine(words, AnkiCsv.Render(name), typeName) else ""
  }

  /** The `writeToAnkiCsv` call of the loop of `main`, when it is made. */
  method WriteCard(words: seq<Word>, anki: bool, name: Dictionary -> string, typeName: Dictionary -> string) returns (line: string)
    ensures line == CardLine(words, anki, name, typeName)
  {
    line := "";
    if anki && |words| > 0 {
      line := AnkiCsv.WriteToAnkiCsv(words, name, typeName);
    }
  }

  /** The card lines written for `reports`, in order. */
  function CardLines(reports: seq<Report>, anki: bool, name: Dictionary -> string, typeName: Dictionary -> string): string {
    if reports == [] then ""
    else CardLines(reports[..|reports| - 1], anki, name, typeName) + CardLine(reports[|reports| - 1].words, anki, name, typeName)
  }

  lemma CardLinesSnoc(reports: seq<Report>, r: Report, anki: bool, name: Dictionary -> string, typeName: Dictionary -> string)
    ensures CardLines(reports + [r], anki, name, typeName) == CardLines(reports, anki, name, typeName) + CardLine(r.words, anki, name, typeName)
  {
    assert (reports + [r])[..|reports|] == reports;
  }

  /** A line read from the word list gives a keyword `download` accepts. */
  lemma KeywordOfLine(input: string, i: nat)
    requires i < |Lines(input)|
    ensures IsKeyword(TrimSpace(Lines(input)[i]))
  {
    var chunk := Lines(input)[i];
    LinesShape(input);
    TrimSpaceDropsFinalNewline(chunk);
    TrimSpaceTrims(chunk);
  }

  /** What the dictionaries would answer for the n-th word. */
  function WordLookups(lookups: (nat, nat) -> Result<Word>, n: nat): nat -> Result<Word> {
    (i: nat) => lookups(n, i)
  }

  /** How the recordings fetched for the n-th word would end. */
  function WordTransfers(transfers: (nat, nat, nat) -> Transfer, n: nat): (nat, nat) -> Transfer {
    (i: nat, k: nat) => transfers(n, i, k)
  }

  /** The reports of the lines read so far, and the caches and files left
      behind. */
  datatype Trace = Trace(reports: seq<Report>, caches: seq<Cache>, files: map<string, string>)

  /** The loop of `main` over `lines`: each line's trimmed word goes round
      all the downloaders, the n-th with `lookups(n, _)` and
      `transfers(n, _, _)`, each starting from the caches and files the
      previous word left. */
  function RunAll(cfgs: seq<Config>, before: seq<Cache>, files: map<string, string>, lines: seq<string>, queryOnline: bool,
                  downloadMp3: bool, lookups: (nat, nat) -> Result<Word>, transfers: (nat, nat, nat) -> Transfer): (t: Trace)
    requires |cfgs| == |before|
    ensures |t.reports| == |lines| && |t.caches| == |before|
    ensures forall n :: 0 <= n < |lines| ==> |t.reports[n].outcomes| == |cfgs|
  {
    if lines == [] then Trace([], before, files)
    else
      var n := |lines| - 1;
      var p := RunAll(cfgs, before, files, lines[..n], queryOnline, downloadMp3, lookups, transfers);
      var keyword := TrimSpace(lines[n]);
      var r := AskAll(cfgs, p.caches, p.files, keyword, queryOnline, downloadMp3, WordLookups(lookups, n), WordTransfers(transfers, n), |cfgs|);
      Trace(p.reports + [ReportOf(keyword, r.outcomes)], r.caches, r.files)
  }

  /** The reports of the first lines do not depend on the lines after
      them: the word list is handled as a stream. */
  lemma {:induction false} RunAllPrefix(cfgs: seq<Config>, before: seq<Cache>, files: map<string, string>, lines: seq<string>,
                                        queryOnline: bool, downloadMp3: bool, lookups: (nat, nat) -> Result<Word>,
                                        transfers: (nat, nat, nat) -> Transfer, m: nat)
    requires |cfgs| == |before| && m <= |lines|
    ensures RunAll(cfgs, before, files, lines[..m], queryOnline, downloadMp3, lookups, transfers).reports
         == RunAll(cfgs, before, files, lines, queryOnline, downloadMp3, lookups, transfers).reports[..m]
    decreases |lines| - m
  {
    if m < |lines| {
      var init := lines[..|lines| - 1];
      assert init[..m] == lines[..m];
      RunAllPrefix(cfgs, before, files, init, queryOnline, downloadMp3, lookups, transfers, m);
      RunAllDropLast(cfgs, before, files, lines, queryOnline, downloadMp3, lookups, transfers);
      var t := RunAll(cfgs, before, files, lines, queryOnline, downloadMp3, lookups, transfers);
      assert t.reports[..|lines| - 1][..m] == t.reports[..m];
    } else {
      assert lines[..m] == lines;
    }
  }

  /** Dropping the last line drops the last report. */
  lemma RunAllDropLast(cfgs: seq<Config>, before: seq<Cache>, files: map<string, string>, lines: seq<string>,
                       queryOnline: bool, downloadMp3: bool, lookups: (nat, nat) -> Result<Word>,
                       transfers: (nat, nat, nat) -> Transfer)
    requires |cfgs| == |before| && lines != []
    ensures RunAll(cfgs, before, files, lines[..|lines| - 1], queryOnline, downloadMp3, lookups, transfers).reports
         == RunAll(cfgs, before, files, lines, queryOnline, downloadMp3, lookups, transfers).reports[..|lines| - 1]
  {
    var t := RunAll(cfgs, before, files, lines, queryOnline, downloadMp3, lookups, transfers);
    var p := RunAll(cfgs, before, files, lines[..|lines| - 1], queryOnline, downloadMp3, lookups, transfers);
    assert t.reports == p.reports + [t.reports[|lines| - 1]];
  }

  /** The n-th report is the n-th line's trimmed word, the answers of every
      downloader, the entries collected from them and the sleep decision. */
  lemma {:induction false} RunAllReport(cfgs: seq<Config>, before: seq<Cache>, files: map<string, string>, lines: seq<string>,
                                        queryOnline: bool, downloadMp3: bool, lookups: (nat, nat) -> Result<Word>,
                                        transfers: (nat, nat, nat) -> Transfer, n: nat)
    requires |cfgs| == |before| && n < |lines|
    ensures var r := RunAll(cfgs, before, files, lines, queryOnline, downloadMp3, lookups, transfers).reports[n];
      && r.keyword == TrimSpace(lines[n]) && |r.outcomes| == |cfgs|
      && r.words == Successes(r.outcomes) && r.slept == !NoWait(r.outcomes)
  {
    if n < |lines| - 1 {
      var init := lines[..|lines| - 1];
      RunAllReport(cfgs, before, files, init, queryOnline, downloadMp3, lookups, transfers, n);
    }
  }

  /** Every downloader stays valid through lines whose words are keywords. */
  lemma {:induction false} RunAllKeepsValid(cfgs: seq<Config>, before: seq<Cache>, files: map<string, string>, lines: seq<string>,
                                            queryOnline: bool, downloadMp3: bool, lookups: (nat, nat) -> Result<Word>,
                                            transfers: (nat, nat, nat) -> Transfer)
    requires AllValidStates(cfgs, before)
    requires forall n :: 0 <= n < |lines| ==> IsKeyword(TrimSpace(lines[n]))
    ensures AllValidStates(cfgs, RunAll(cfgs, before, files, lines, queryOnline, downloadMp3, lookups, transfers).caches)
  {
    if lines != [] {
      var n := |lines| - 1;
      var init := lines[..n];
      assert forall m :: 0 <= m < |init| ==> init[m] == lines[m];
      RunAllKeepsValid(cfgs, before, files, init, queryOnline, downloadMp3, lookups, transfers);
      var p := RunAll(cfgs, before, files, init, queryOnline, downloadMp3, lookups, transfers);
      AskAllKeepsValid(cfgs, p.caches, p.files, TrimSpace(lines[n]), queryOnline, downloadMp3,
                       WordLookups(lookups, n), WordTransfers(transfers, n), |cfgs|);
    }
  }

  /** In particular every downloader stays valid through a whole word list. */
  lemma WordListKeepsValid(cfgs: seq<Config>, before: seq<Cache>, files: map<string, string>, input: string,
                           queryOnline: bool, downloadMp3: bool, lookups: (nat, nat) -> Result<Word>,
                           transfers: (nat, nat, nat) -> Transfer)
    requires AllValidStates(cfgs, before)
    ensures AllValidStates(cfgs, RunAll(cfgs, before, files, Lines(input), queryOnline, downloadMp3, lookups, transfers).caches)
  {
    forall n | 0 <= n < |Lines(input)|
      ensures IsKeyword(TrimSpace(Lines(input)[n]))
    {
      KeywordOfLine(input, n);
    }
    RunAllKeepsValid(cfgs, before, files, Lines(input), queryOnline, downloadMp3, lookups, transfers);
  }

  /** An entry a downloader holds is still held after any further lines. */
  lemma {:induction false} KnownLater(cfgs: seq<Config>, before: seq<Cache>, files: map<string, string>, lines: seq<string>,
                                      queryOnline: bool, downloadMp3: bool, lookups: (nat, nat) -> Result<Word>,
                                      transfers: (nat, nat, nat) -> Transfer, m: nat, i: nat, k: string)
    requires |cfgs| == |before| && m <= |lines| && i < |cfgs|
    requires Knows(RunAll(cfgs, before, files, lines[..m], queryOnline, downloadMp3, lookups, transfers).caches[i], k)
    ensures Knows(RunAll(cfgs, before, files, lines, queryOnline, downloadMp3, lookups, transfers).caches[i], k)
    decreases |lines| - m
  {
    if m < |lines| {
      var n := |lines| - 1;
      var init := lines[..n];
      assert init[..m] == lines[..m];
      KnownLater(cfgs, before, files, init, queryOnline, downloadMp3, lookups, transfers, m, i, k);
      var p := RunAll(cfgs, before, files, init, queryOnline, downloadMp3, lookups, transfers);
      AskAllKeepsEntries(cfgs, p.caches, p.files, TrimSpace(lines[n]), queryOnline, downloadMp3,
                         WordLookups(lookups, n), WordTransfers(transfers, n), |cfgs|, i, k);
    } else {
      assert lines[..m] == lines;
    }
  }

  /** One more line read: its word goes round the downloaders from the
      caches and files the earlier lines left. */
  lemma RunAllStep(cfgs: seq<Config>, before: seq<Cache>, files: map<string, string>, lines: seq<string>,
                   queryOnline: bool, downloadMp3: bool, lookups: (nat, nat) -> Result<Word>,
                   transfers: (nat, nat, nat) -> Transfer, n: nat)
    requires |cfgs| == |before| && n < |lines|
    ensures var p := RunAll(cfgs, before, files, lines[..n], queryOnline, downloadMp3, lookups, transfers);
      var k := TrimSpace(lines[n]);
      var r := AskAll(cfgs, p.caches, p.files, k, queryOnline, downloadMp3, WordLookups(lookups, n), WordTransfers(transfers, n), |cfgs|);
      RunAll(cfgs, before, files, lines[..n + 1], queryOnline, downloadMp3, lookups, transfers)
        == Trace(p.reports + [ReportOf(k, r.outcomes)], r.caches, r.files)
  {
    assert lines[..n + 1][..n] == lines[..n];
  }

  /** The outcome of the i-th downloader for the n-th line is its
      `download` of that line's word, on its cache as the earlier lines
      left it. */
  lemma RunAllOutcome(cfgs: seq<Config>, before: seq<Cache>, files: map<string, string>, lines: seq<string>,
                      queryOnline: bool, downloadMp3: bool, lookups: (nat, nat) -> Result<Word>,
                      transfers: (nat, nat, nat) -> Transfer, n: nat, i: nat)
    requires |cfgs| == |before| && n < |lines| && i < |cfgs|
    ensures var p := RunAll(cfgs, before, files, lines[..n], queryOnline, downloadMp3, lookups, transfers);
      var k := TrimSpace(lines[n]);
      var f := AskAll(cfgs, p.caches, p.files, k, queryOnline, downloadMp3, WordLookups(lookups, n), WordTransfers(transfers, n), i).files;
      var a := Answer(cfgs[i], p.caches[i], f, k, queryOnline, downloadMp3, WordLookups(lookups, n)(i), Slice(WordTransfers(transfers, n), i));
      && RunAll(cfgs, before, files, lines, queryOnline, downloadMp3, lookups, transfers).reports[n].outcomes[i] == a.outcome
      && RunAll(cfgs, before, files, lines[..n + 1], queryOnline, downloadMp3, lookups, transfers).caches[i] == a.cache
  {
    var p := RunAll(cfgs, before, files, lines[..n], queryOnline, downloadMp3, lookups, transfers);
    var k := TrimSpace(lines[n]);
    RunAllStep(cfgs, before, files, lines, queryOnline, downloadMp3, lookups, transfers, n);
    RunAllPrefix(cfgs, before, files, lines, queryOnline, downloadMp3, lookups, transfers, n + 1);
    AskAllAnswers(cfgs, p.caches, p.files, k, queryOnline, downloadMp3, WordLookups(lookups, n), WordTransfers(transfers, n), |cfgs|, i);
    var t := RunAll(cfgs, before, files, lines, queryOnline, downloadMp3, lookups, transfers);
    assert t.reports[..n + 1][n] == t.reports[n];
  }

  /** A word a dictionary has served is served by it again every later time
      the word comes up, from its index, whatever the network does then. */
  lemma ServedStaysServed(cfgs: seq<Config>, before: seq<Cache>, files: map<string, string>, lines: seq<string>,
                          queryOnline: bool, downloadMp3: bool, lookups: (nat, nat) -> Result<Word>,
                          transfers: (nat, nat, nat) -> Transfer, n: nat, m: nat, i: nat)
    requires |cfgs| == |before| && n < m < |lines| && i < |cfgs|
    requires TrimSpace(lines[m]) == TrimSpace(lines[n])
    requires RunAll(cfgs, before, files, lines, queryOnline, downloadMp3, lookups, transfers).reports[n].outcomes[i].word.Some?
    ensures Succeeded(RunAll(cfgs, before, files, lines, queryOnline, downloadMp3, lookups, transfers).reports[m].outcomes[i])
  {
    var k := TrimSpace(lines[n]);
    RunAllOutcome(cfgs, before, files, lines, queryOnline, downloadMp3, lookups, transfers, n, i);
    var p := RunAll(cfgs, before, files, lines[..n], queryOnline, downloadMp3, lookups, transfers);
    var f := AskAll(cfgs, p.caches, p.files, k, queryOnline, downloadMp3, WordLookups(lookups, n), WordTransfers(transfers, n), i).files;
    AnswerKeepsEntries(cfgs[i], p.caches[i], f, k, queryOnline, downloadMp3, WordLookups(lookups, n)(i), Slice(WordTransfers(transfers, n), i));
    assert Knows(RunAll(cfgs, before, files, lines[..n + 1], queryOnline, downloadMp3, lookups, transfers).caches[i], k);
    assert lines[..m][..n + 1] == lines[..n + 1];
    KnownLater(cfgs, before, files, lines[..m], queryOnline, downloadMp3, lookups, transfers, n + 1, i, k);
    RunAllOutcome(cfgs, before, files, lines, queryOnline, downloadMp3, lookups, transfers, m, i);
    var q := RunAll(cfgs, before, files, lines[..m], queryOnline, downloadMp3, lookups, transfers);
    var g := AskAll(cfgs, q.caches, q.files, k, queryOnline, downloadMp3, WordLookups(lookups, m), WordTransfers(transfers, m), i).files;
    KnownIsServed(cfgs[i], q.caches[i], g, k, queryOnline, downloadMp3, WordLookups(lookups, m)(i), Slice(WordTransfers(transfers, m), i));
  }

  /** The loop of `main` over the word list `input`: every line read is
      looked up in every dictionary, in the order of `downloaders` (card
      order when they come from `Start`); a card line is appended to `csv`
      when cards are asked for and some dictionary answered; the program
      sleeps unless `noWait` held. `lookups(n, i)` and `transfers(n, i, k)`
      stand for the network for the n-th word. */
  method Run(downloaders: seq<Downloader>, input: string, queryOnline: bool, downloadMp3: bool, anki: bool,
             name: Dictionary -> string, typeName: Dictionary -> string,
             lookups: (nat, nat) -> Result<Word>, store: FileStore, transfers: (nat, nat, nat) -> Transfer)
    returns (reports: seq<Report>, csv: string, count: nat)
    requires forall p, q :: 0 <= p < q < |downloaders| ==> downloaders[p] != downloaders[q]
    modifies set i | 0 <= i < |downloaders| :: downloaders[i], store
    ensures count == |reports| == |Lines(input)|
    ensures var t := RunAll(Configs(downloaders), old(Caches(downloaders)), old(store.files), Lines(input),
                            queryOnline, downloadMp3, lookups, transfers);
      reports == t.reports && Caches(downloaders) == t.caches && store.files == t.files
    ensures csv == CardLines(reports, anki, name, typeName)
    ensures old(AllValid(downloaders)) ==> AllValid(downloaders)
  {
    var chunks := Lines(input);
    ghost var before := Caches(downloaders);
    ghost var valid := AllValid(downloaders);
    reports := [];
    csv := "";
    count := 0;
    RanNothing(Configs(downloaders), before, old(store.files), chunks, queryOnline, downloadMp3, anki, name, typeName, lookups, transfers);
    while count < |chunks|
      invariant RanSoFar(Configs(downloaders), before, old(store.files), chunks, queryOnline, downloadMp3, anki, name, typeName,
                         lookups, transfers, count, reports, csv, Caches(downloaders), store.files)
    {
      reports, csv := RunNext(downloaders, chunks, count, queryOnline, downloadMp3, anki, name, typeName, lookups, store, transfers,
                              before, old(store.files), reports, csv);
      count := count + 1;
    }
    RanAll(Configs(downloaders), before, old(store.files), chunks, queryOnline, downloadMp3, anki, name, typeName,
           lookups, transfers, reports, csv, Caches(downloaders), store.files);
    if valid {
      WordListKeepsValid(Configs(downloaders), before, old(store.files), input, queryOnline, downloadMp3, lookups, transfers);
    }
  }

  /** The first `n` lines of `lines` have been handled: the reports, the
      card lines, the caches and the stored files are those of `RunAll`. */
  ghost predicate RanSoFar(cfgs: seq<Config>, before: seq<Cache>, files: map<string, string>, lines: seq<string>,
                           queryOnline: bool, downloadMp3: bool, anki: bool, name: Dictionary -> string, typeName: Dictionary -> string,
                           lookups: (nat, nat) -> Result<Word>, transfers: (nat, nat, nat) -> Transfer,
                           n: nat, reports: seq<Report>, csv: string, caches: seq<Cache>, stored: map<string, string>)
  {
    && n <= |lines| && |before| == |cfgs|
    && var t := RunAll(cfgs, before, files, lines[..n], queryOnline, downloadMp3, lookups, transfers);
    && (reports, caches, stored) == (t.reports, t.caches, t.files)
    && csv == CardLines(reports, anki, name, typeName)
  }

  /** Before the first line nothing has been handled. */
  lemma RanNothing(cfgs: seq<Config>, before: seq<Cache>, files: map<string, string>, lines: seq<string>,
                   queryOnline: bool, downloadMp3: bool, anki: bool, name: Dictionary -> string, typeName: Dictionary -> string,
                   lookups: (nat, nat) -> Result<Word>, transfers: (nat, nat, nat) -> Transfer)
    requires |before| == |cfgs|
    ensures RanSoFar(cfgs, before, files, lines, queryOnline, downloadMp3, anki, name, typeName,
                     lookups, transfers, 0, [], "", before, files)
  {
    assert lines[..0] == [];
  }

  /** Once every line has been handled, the reports and the state are
      those of `RunAll` on the whole list. */
  lemma RanAll(cfgs: seq<Config>, before: seq<Cache>, files: map<string, string>, lines: seq<string>,
               queryOnline: bool, downloadMp3: bool, anki: bool, name: Dictionary -> string, typeName: Dictionary -> string,
               lookups: (nat, nat) -> Result<Word>, transfers: (nat, nat, nat) -> Transfer,
               reports: seq<Report>, csv: string, caches: seq<Cache>, stored: map<string, string>)
    requires RanSoFar(cfgs, before, files, lines, queryOnline, downloadMp3, anki, name, typeName,
                      lookups, transfers, |lines|, reports, csv, caches, stored)
    ensures |reports| == |lines|
    ensures var t := RunAll(cfgs, before, files, lines, queryOnline, downloadMp3, lookups, transfers);
      reports == t.reports && caches == t.caches && stored == t.files
    ensures csv == CardLines(reports, anki, name, typeName)
  {
    assert lines[..|lines|] == lines;
  }

  /** One pass of the loop of `main`, on the n-th line. */
  method RunNext(downloaders: seq<Downloader>, lines: seq<string>, n: nat, queryOnline: bool, downloadMp3: bool, anki: bool,
                 name: Dictionary -> string, typeName: Dictionary -> string,
                 lookups: (nat, nat) -> Result<Word>, store: FileStore, transfers: (nat, nat, nat) -> Transfer,
                 ghost before: seq<Cache>, ghost files: map<string, string>, reports: seq<Report>, csv: string)
    returns (reports': seq<Report>, csv': string)
    requires forall p, q :: 0 <= p < q < |downloaders| ==> downloaders[p] != downloaders[q]
    requires n < |lines|
    requires RanSoFar(Configs(downloaders), before, files, lines, queryOnline, downloadMp3, anki, name, typeName,
                      lookups, transfers, n, reports, csv, Caches(downloaders), store.files)
    modifies set i | 0 <= i < |downloaders| :: downloaders[i], store
    ensures RanSoFar(Configs(downloaders), before, files, lines, queryOnline, downloadMp3, anki, name, typeName,
                     lookups, transfers, n + 1, reports', csv', Caches(downloaders), store.files)
  {
    RunAllStep(Configs(downloaders), before, files, lines, queryOnline, downloadMp3, lookups, transfers, n);
    var r, card := HandleLine(downloaders, lines[n], n, queryOnline, downloadMp3, anki, name, typeName, lookups, store, transfers);
    CardLinesSnoc(reports, r, anki, name, typeName);
    csv' := csv + card;
    reports' := reports + [r];
  }

  /** The configurations `Start` gives the dictionaries `dicts`. */
  function StartConfigs(dicts: seq<Dictionary>, codecs: Dictionary -> Codec, typeName: Dictionary -> string): (cs: seq<Config>)
    ensures |cs| == |dicts|
    ensures forall i :: 0 <= i < |dicts| ==> cs[i] == Config(codecs(dicts[i]), typeName(dicts[i]))
  {
    if dicts == [] then []
    else
      var d := dicts[|dicts| - 1];
      StartConfigs(dicts[..|dicts| - 1], codecs, typeName) + [Config(codecs(d), typeName(d))]
  }

  /** The caches `Start` loads for `dicts`: each log with the index it
      replays to. */
  function StartCaches(dicts: seq<Dictionary>, codecs: Dictionary -> Codec, logs: Dictionary -> string): (cs: seq<Cache>)
    requires forall i :: 0 <= i < |dicts| ==> Replay(codecs(dicts[i]), Lines(logs(dicts[i]))).Some?
    ensures |cs| == |dicts|
    ensures forall i :: 0 <= i < |dicts| ==> cs[i] == Cache(Replay(codecs(dicts[i]), Lines(logs(dicts[i]))).value, logs(dicts[i]))
  {
    if dicts == [] then []
    else
      var d := dicts[|dicts| - 1];
      var init := dicts[..|dicts| - 1];
      assert forall i :: 0 <= i < |init| ==> init[i] == dicts[i];
      StartCaches(init, codecs, logs) + [Cache(Replay(codecs(d), Lines(logs(d))).value, logs(d))]
  }

  /** The downloaders built for `dicts` have the configurations and the
      caches `StartConfigs` and `StartCaches` give. */
  lemma StartedAs(downloaders: seq<Downloader>, dicts: seq<Dictionary>, codecs: Dictionary -> Codec,
                  typeName: Dictionary -> string, logs: Dictionary -> string)
    requires Dicts(downloaders) == dicts
    requires forall i :: 0 <= i < |downloaders| ==> Built(downloaders[i], codecs, typeName, logs)
    requires forall i :: 0 <= i < |dicts| ==> Replay(codecs(dicts[i]), Lines(logs(dicts[i]))).Some?
    ensures Configs(downloaders) == StartConfigs(dicts, codecs, typeName)
    ensures Caches(downloaders) == StartCaches(dicts, codecs, logs)
  {
    CachesAre(downloaders, StartCaches(dicts, codecs, logs));
    assert Configs(downloaders) == StartConfigs(dicts, codecs, typeName);
  }

  /** The whole of `main` once the flags are read: start-up, then the word
      list `input` through the downloaders in card order. The reports, the
      card lines, the caches and the stored files are determined by the
      sorted dictionaries, their logs and what the network does. */
  method Session(dicts: array<Dictionary>, codecs: Dictionary -> Codec, typeName: Dictionary -> string, logs: Dictionary -> string,
                 input: string, queryOnline: bool, downloadMp3: bool, anki: bool, name: Dictionary -> string,
                 lookups: (nat, nat) -> Result<Word>, store: FileStore, transfers: (nat, nat, nat) -> Transfer)
    returns (downloaders: seq<Downloader>, ok: bool, reports: seq<Report>, csv: string)
    modifies dicts, store
    ensures Sorted(dicts[..]) && multiset(dicts[..]) == multiset(old(dicts[..]))
    ensures ok <==> forall i :: 0 <= i < dicts.Length ==> Replay(codecs(dicts[i]), Lines(logs(dicts[i]))).Some?
    ensures ok ==> Dicts(downloaders) == dicts[..]
    ensures ok ==>
      var t := RunAll(StartConfigs(dicts[..], codecs, typeName), StartCaches(dicts[..], codecs, logs), old(store.files), Lines(input),
                      queryOnline, downloadMp3, lookups, transfers);
      reports == t.reports && Caches(downloaders) == t.caches && store.files == t.files
    ensures ok ==> csv == CardLines(reports, anki, name, typeName)
    ensures ok && (forall i :: 0 <= i < dicts.Length ==> Lawful(codecs(dicts[i])) && EndsWithNewline(logs(dicts[i])))
      ==> AllValid(downloaders)
    ensures !ok ==> reports == [] && csv == "" && store.files == old(store.files)
  {
    downloaders, ok := Start(dicts, codecs, typeName, logs);
    if !ok {
      return downloaders, false, [], "";
    }
    StartedAs(downloaders, dicts[..], codecs, typeName, logs);
    var count;
    reports, csv, count := Run(downloaders, input, queryOnline, downloadMp3, anki, name, typeName, lookups, store, transfers);
  }

  /** One pass of the loop of `main`: `line`, the n-th line of the word
      list, is looked up everywhere and its card line, if any, is built. */
  method HandleLine(downloaders: seq<Downloader>, line: string, n: nat, queryOnline: bool, downloadMp3: bool, anki: bool,
                    name: Dictionary -> string, typeName: Dictionary -> string,
                    lookups: (nat, nat) -> Result<Word>, store: FileStore, transfers: (nat, nat, nat) -> Transfer)
    returns (r: Report, card: string)
    requires forall p, q :: 0 <= p < q < |downloaders| ==> downloaders[p] != downloaders[q]
    modifies set i | 0 <= i < |downloaders| :: downloaders[i], store
    ensures var a := AskAll(Configs(downloaders), old(Caches(downloaders)), old(store.files), TrimSpace(line), queryOnline, downloadMp3,
                            WordLookups(lookups, n), WordTransfers(transfers, n), |downloaders|);
      r == ReportOf(TrimSpace(line), a.outcomes) && Caches(downloaders) == a.caches && store.files == a.files
    ensures card == CardLine(r.words, anki, name, typeName)
  {
    ghost var before := Caches(downloaders);
    var keyword, outcomes, words, noWait := ProcessWord(downloaders, line, queryOnline, downloadMp3,
                                                        WordLookups(lookups, n), store, WordTransfers(transfers, n));
    AskedAll(Configs(downloaders), before, old(store.files), keyword, queryOnline, downloadMp3,
             WordLookups(lookups, n), WordTransfers(transfers, n), outcomes, Caches(downloaders), store.files);
    r := Report(keyword, outcomes, words, !noWait);
    card := WriteCard(words, anki, name, typeName);
  }
}
