/**
 * The message processor: annotates each message with a small analysis before
 * storing it, and summarises the most recent stored messages.
 */
module Processor {
  import opened Wrappers
  import opened Text
  import opened Messages
  import opened Store

  /** The per-message analysis. */
  datatype Analysis = Analysis(wordCount: nat, charCount: nat, hasQuestion: bool)

  /** The analysis of `content`: `len(content.split())`, `len(content)` and
      `"?" in content`. */
  function Analyze(content: string): (a: Analysis)
    ensures a.wordCount == WordStarts(content, true)
    ensures a.charCount == |content|
    ensures a.hasQuestion <==> '?' in content
  {
    WordCountIsWordStarts(content);
    ContainsChar(content, '?');
    Analysis(|Split(content)|, |content|, Contains(content, "?"))
  }

  /** The analysis as the mapping stored under metadata key "analysis". */
  function AnalysisValue(a: Analysis): (v: Value)
    ensures v.Dict? && v.entries.Keys == {"word_count", "char_count", "has_question"}
    ensures WordsOf(map["analysis" := v]) == Success(a.wordCount)
  {
    Dict(map["word_count" := Int(a.wordCount), "char_count" := Int(a.charCount),
             "has_question" := Bool(a.hasQuestion)])
  }

  /** Platform or sender name, each with its number of occurrences, in the
      order in which the names were first seen (a Python dict's order). */
  type Tally = seq<(string, nat)>

  function TallyNames(t: Tally): seq<string> {
    if t == [] then [] else [t[0].0] + TallyNames(t[1..])
  }

  function Lookup(t: Tally, name: string): nat {
    if t == [] then 0 else if t[0].0 == name then t[0].1 else Lookup(t[1..], name)
  }

  function Total(t: Tally): nat {
    if t == [] then 0 else t[0].1 + Total(t[1..])
  }

  /** `d[name] = d.get(name, 0) + 1` on a dict kept in insertion order. */
  function Bump(t: Tally, name: string): (r: Tally)
    ensures r != [] && |t| <= |r| <= |t| + 1
  {
    if t == [] then [(name, 1)]
    else if t[0].0 == name then [(name, t[0].1 + 1)] + t[1..]
    else [t[0]] + Bump(t[1..], name)
  }

  /** Bumping adds one to `name`'s count and leaves every other count alone;
      a name not yet present goes at the end. */
  lemma {:induction false} BumpCounts(t: Tally, name: string)
    ensures TallyNames(Bump(t, name)) == if name in TallyNames(t) then TallyNames(t) else TallyNames(t) + [name]
    ensures Lookup(Bump(t, name), name) == Lookup(t, name) + 1
    ensures forall other :: other != name ==> Lookup(Bump(t, name), other) == Lookup(t, other)
    ensures Total(Bump(t, name)) == Total(t) + 1
  {
    if t != [] && t[0].0 != name {
      BumpCounts(t[1..], name);
      assert ([t[0]] + Bump(t[1..], name))[1..] == Bump(t[1..], name);
    }
  }

  /** The tally built by bumping each name of `xs` in turn. */
  function TallyOf(xs: seq<string>): (t: Tally)
    ensures |t| <= |xs| && (xs != [] ==> t != [])
  {
    if xs == [] then [] else Bump(TallyOf(xs[..|xs| - 1]), xs[|xs| - 1])
  }

  /** Why the statistics loop raises: "analysis" holds a value without `.get`
      (AttributeError), or its "word_count" cannot be added to an int (TypeError). */
  datatype StatsError = AttributeError | TypeError

  /** `msg.metadata.get("analysis", {}).get("word_count", 0)`, as a number
      that `total_words +=` accepts (a Python bool adds as 0 or 1). */
  function WordsOf(metadata: Metadata): (r: Result<int, StatsError>)
    ensures r.Success? <==> CountableWords(metadata)
    ensures r.Success? ==> r.value == WordCountOf(metadata)
    ensures r.Failure? ==> (r.error == AttributeError <==> "analysis" in metadata && !metadata["analysis"].Dict?)
  {
    var analysis := if "analysis" in metadata then metadata["analysis"] else Dict(map[]);
    match analysis
    case Dict(entries) =>
      var w := if "word_count" in entries then entries["word_count"] else Int(0);
      (match w
       case Int(i) => Success(i)
       case Bool(b) => Success(if b then 1 else 0)
       case _ => Failure(TypeError))
    case _ => Failure(AttributeError)
  }

  /** What each message of `window` adds to `total_words`. */
  function WordCounts(window: seq<MessageState>): seq<Result<int, StatsError>> {
    seq(|window|, i requires 0 <= i < |window| => WordsOf(window[i].metadata))
  }

  /** `total_words += words`: an error raised earlier stays, a new one stops the loop. */
  function AddWords(total: Result<int, StatsError>, words: Result<int, StatsError>): (r: Result<int, StatsError>)
    ensures r.Success? <==> total.Success? && words.Success?
    ensures r.Success? ==> r.value == total.value + words.value
    ensures r.Failure? ==> r.error == if total.Failure? then total.error else words.error
  {
    match total
    case Failure(e) => Failure(e)
    case Success(t) =>
      match words
      case Failure(e) => Failure(e)
      case Success(w) => Success(t + w)
  }

  /** The running total over `ws` from 0, or the first error raised. */
  function SumWords(ws: seq<Result<int, StatsError>>): (r: Result<int, StatsError>)
    ensures r.Failure? ==> Failure(r.error) in ws
  {
    if ws == [] then Success(0) else AddWords(SumWords(ws[..|ws| - 1]), ws[|ws| - 1])
  }

  /** `total_words` after the loop over `window`, or the first error raised. */
  function WordTotal(window: seq<MessageState>): Result<int, StatsError> {
    SumWords(WordCounts(window))
  }

  function Platforms(window: seq<MessageState>): seq<string> {
    seq(|window|, i requires 0 <= i < |window| => window[i].platform)
  }

  function Senders(window: seq<MessageState>): seq<string> {
    seq(|window|, i requires 0 <= i < |window| => window[i].sender)
  }

  /** The statistics dict: `{"message_count": 0}` alone for no messages,
      otherwise the count, the two tallies and the average word count. */
  datatype Stats =
    | NoMessages
    | Summary(messageCount: nat, platformCounts: Tally, senderCounts: Tally, avgWordCount: real)

  function StatsKeys(s: Stats): set<string> {
    match s
    case NoMessages => {"message_count"}
    case Summary(_, _, _, _) => {"message_count", "platform_counts", "sender_counts", "avg_word_count"}
  }

  function MessageCount(s: Stats): nat {
    match s
    case NoMessages => 0
    case Summary(n, _, _, _) => n
  }

  /** The statistics over the messages `window`, as of their current state. */
  function ConversationStats(window: seq<MessageState>): (r: Result<Stats, StatsError>)
    ensures window == [] ==> r == Success(NoMessages)
    ensures r.Success? <==> forall i :: 0 <= i < |window| ==> CountableWords(window[i].metadata)
    ensures r.Success? && window != [] ==> r.value.Summary? && r.value.messageCount == |window|
  {
    WordTotalSucceedsIffCountable(window);
    if window == [] then Success(NoMessages)
    else match WordTotal(window)
      case Failure(e) => Failure(e)
      case Success(total) =>
        Success(Summary(|window|, TallyOf(Platforms(window)), TallyOf(Senders(window)),
                        total as real / |window| as real))
  }

  ghost function States(ms: seq<ChatMessage>): seq<MessageState>
    reads ms
  {
    seq(|ms|, i requires 0 <= i < |ms| reads ms => ms[i].State())
  }

  class MessageProcessor {
    const store: MessageStore

    ghost predicate Valid()
      reads this, store
    {
      store.Valid()
    }

    constructor ()
      ensures Valid() && fresh(store)
      ensures store.messages == [] && store.platforms == map[]
    {
      store := new MessageStore();
    }

    /** Stores `message` after recording under "analysis" its word count,
        character count and whether it contains '?'; returns that analysis. */
    method ProcessMessage(message: ChatMessage) returns (analysis: Value)
      requires Valid()
      modifies message, store
      ensures Valid()
      ensures analysis == AnalysisValue(Analysis(WordStarts(message.content, true), |message.content|, '?' in message.content))
      ensures message.metadata == old(message.metadata)["analysis" := analysis]
      ensures store.messages == old(store.messages) + [message]
      ensures store.platforms == old(store.platforms)[message.platform :=
        (if message.platform in old(store.platforms) then old(store.platforms)[message.platform] else []) + [message]]
    {
      analysis := AnalysisValue(Analyze(message.content));
      message.AddMetadata("analysis", analysis);
      store.AddMessage(message);
    }

    /** The statistics over the window `get_messages()` returns: the last ten
        stored messages, read in their current state. */
    method GetConversationStats() returns (r: Result<Stats, StatsError>)
      requires Valid()
      ensures r == ConversationStats(States(store.GetMessages()))
    {
      var messages := store.GetMessages();
      var window := seq(|messages|, i requires 0 <= i < |messages| reads messages => messages[i].State());
      r := Summarise(window);
    }
  }

  /** The statistics loop over a window of message states: no messages give
      the one-key result; otherwise each message bumps its platform's and its
      sender's count and adds its word count, and the average is taken at the end. */
  method Summarise(window: seq<MessageState>) returns (r: Result<Stats, StatsError>)
    ensures r == ConversationStats(window)
  {
    if |window| == 0 {
      return Success(NoMessages);
    }
    var platformCounts: Tally := [];
    var senderCounts: Tally := [];
    var totalWords := 0;
    var i := 0;
    while i < |window|
      invariant 0 <= i <= |window|
      invariant Scanned(window, i, platformCounts, senderCounts, totalWords)
    {
      var msg := window[i];
      var words := WordsOf(msg.metadata);
      match words {
        case Failure(e) =>
          ScanFails(window, i, platformCounts, senderCounts, totalWords);
          return Failure(e);
        case Success(w) =>
          ScanStep(window, i, platformCounts, senderCounts, totalWords);
          totalWords := totalWords + w;
      }
      platformCounts := Bump(platformCounts, msg.platform);
      senderCounts := Bump(senderCounts, msg.sender);
      i := i + 1;
    }
    ScanDone(window, platformCounts, senderCounts, totalWords);
    r := Success(Summary(|window|, platformCounts, senderCounts, totalWords as real / |window| as real));
  }

  /** The loop state after the first `i` messages of `window`. */
  predicate Scanned(window: seq<MessageState>, i: nat, platformCounts: Tally, senderCounts: Tally, totalWords: int)
    requires i <= |window|
  {
    && platformCounts == TallyOf(Platforms(window)[..i])
    && senderCounts == TallyOf(Senders(window)[..i])
    && SumWords(WordCounts(window)[..i]) == Success(totalWords)
  }

  /** A message whose words can be added bumps both tallies and adds its words. */
  lemma ScanStep(window: seq<MessageState>, i: nat, platformCounts: Tally, senderCounts: Tally, totalWords: int)
    requires i < |window| && Scanned(window, i, platformCounts, senderCounts, totalWords)
    requires WordsOf(window[i].metadata).Success?
    ensures Scanned(window, i + 1, Bump(platformCounts, window[i].platform), Bump(senderCounts, window[i].sender),
      totalWords + WordsOf(window[i].metadata).value)
  {
    var ws := WordCounts(window);
    assert TallyOf(Platforms(window)[..i + 1]) == Bump(platformCounts, window[i].platform) by {
      TallyStep(Platforms(window), i);
    }
    assert TallyOf(Senders(window)[..i + 1]) == Bump(senderCounts, window[i].sender) by {
      TallyStep(Senders(window), i);
    }
    assert SumWords(ws[..i + 1]) == Success(totalWords + WordsOf(window[i].metadata).value) by {
      PrefixStep(ws, i);
      assert ws[i] == WordsOf(window[i].metadata);
    }
  }

  /** A message whose words cannot be added raises, and so do the statistics. */
  lemma ScanFails(window: seq<MessageState>, i: nat, platformCounts: Tally, senderCounts: Tally, totalWords: int)
    requires i < |window| && Scanned(window, i, platformCounts, senderCounts, totalWords)
    requires WordsOf(window[i].metadata).Failure?
    ensures ConversationStats(window) == Failure(WordsOf(window[i].metadata).error)
  {
    PrefixStep(WordCounts(window), i);
    PrefixFailure(WordCounts(window), i + 1);
  }

  /** After the last message the loop state is the statistics' content. */
  lemma ScanDone(window: seq<MessageState>, platformCounts: Tally, senderCounts: Tally, totalWords: int)
    requires window != [] && Scanned(window, |window|, platformCounts, senderCounts, totalWords)
    ensures ConversationStats(window) ==
      Success(Summary(|window|, platformCounts, senderCounts, totalWords as real / |window| as real))
  {
    assert WordCounts(window)[..|window|] == WordCounts(window);
    assert Platforms(window)[..|window|] == Platforms(window);
    assert Senders(window)[..|window|] == Senders(window);
  }

  /** One more name bumps the tally ... */
  lemma TallyStep(xs: seq<string>, i: nat)
    requires i < |xs|
    ensures TallyOf(xs[..i + 1]) == Bump(TallyOf(xs[..i]), xs[i])
  {
    assert xs[..i + 1][..i] == xs[..i];
  }

  /** ... and one more message adds its words to the running total. */
  lemma PrefixStep(ws: seq<Result<int, StatsError>>, i: nat)
    requires i < |ws|
    ensures SumWords(ws[..i + 1]) == AddWords(SumWords(ws[..i]), ws[i])
  {
    assert ws[..i + 1][..i] == ws[..i];
  }

  /** Once a prefix raises, the whole loop raises the same error. */
  lemma {:induction false} PrefixFailure(ws: seq<Result<int, StatsError>>, k: nat)
    requires k <= |ws| && SumWords(ws[..k]).Failure?
    ensures SumWords(ws) == SumWords(ws[..k])
    decreases |ws| - k
  {
    if k < |ws| {
      PrefixStep(ws, k);
      PrefixFailure(ws, k + 1);
    } else {
      assert ws[..k] == ws;
    }
  }

  // Properties of the tallies

  /** Each name's count is its number of occurrences. */
  lemma {:induction false} TallyCountsOccurrences(xs: seq<string>, name: string)
    ensures Lookup(TallyOf(xs), name) == multiset(xs)[name]
  {
    if xs != [] {
      var init, last := xs[..|xs| - 1], xs[|xs| - 1];
      assert xs == init + [last];
      assert multiset(xs) == multiset(init) + multiset{last};
      assert TallyOf(xs) == Bump(TallyOf(init), last);
      BumpCounts(TallyOf(init), last);
      TallyCountsOccurrences(init, name);
    }
  }

  /** The counts add up to the number of names tallied. */
  lemma {:induction false} TallyTotal(xs: seq<string>)
    ensures Total(TallyOf(xs)) == |xs|
  {
    if xs != [] {
      BumpCounts(TallyOf(xs[..|xs| - 1]), xs[|xs| - 1]);
      TallyTotal(xs[..|xs| - 1]);
    }
  }

  predicate Distinct(s: seq<string>) {
    forall i, j :: 0 <= i < j < |s| ==> s[i] != s[j]
  }

  /** Position of the first occurrence of `x` in `xs`. */
  function FirstIndex(xs: seq<string>, x: string): (k: nat)
    requires x in xs
    ensures k < |xs| && xs[k] == x && x !in xs[..k]
  {
    if xs[0] == x then 0
    else
      var k := FirstIndex(xs[1..], x);
      assert xs[..k + 1] == [xs[0]] + xs[1..][..k];
      k + 1
  }

  /** The first occurrence is the one index holding `x` with no `x` before it. */
  lemma {:induction false} FirstIndexUnique(xs: seq<string>, x: string, j: nat)
    requires j < |xs| && xs[j] == x && x !in xs[..j]
    ensures FirstIndex(xs, x) == j
  {
    if xs[0] != x {
      assert xs[1..][..j - 1] == xs[..j][1..];
      FirstIndexUnique(xs[1..], x, j - 1);
    }
  }

  lemma FirstIndexExtend(xs: seq<string>, x: string, y: string)
    requires y in xs
    ensures FirstIndex(xs + [x], y) == FirstIndex(xs, y)
  {
    var k := FirstIndex(xs, y);
    assert (xs + [x])[..k] == xs[..k];
    FirstIndexUnique(xs + [x], y, k);
  }

  /** `names` are exactly the members of `xs`, in the order in which they
      first occur there. */
  ghost predicate FirstSeen(names: seq<string>, xs: seq<string>) {
    && (forall x :: x in names <==> x in xs)
    && forall i, j :: 0 <= i < j < |names| ==> FirstIndex(xs, names[i]) < FirstIndex(xs, names[j])
  }

  /** Seeing one more name keeps the order: a new name goes at the end. */
  lemma FirstSeenExtend(names: seq<string>, xs: seq<string>, x: string)
    requires FirstSeen(names, xs)
    ensures FirstSeen(if x in names then names else names + [x], xs + [x])
  {
    var names' := if x in names then names else names + [x];
    var xs' := xs + [x];
    forall i, j | 0 <= i < j < |names'|
      ensures FirstIndex(xs', names'[i]) < FirstIndex(xs', names'[j])
    {
      FirstIndexExtend(xs, x, names'[i]);
      if j < |names| {
        FirstIndexExtend(xs, x, names'[j]);
      } else {
        NewNameComesLast(xs, x);
      }
    }
  }

  lemma NewNameComesLast(init: seq<string>, last: string)
    requires last !in init
    ensures FirstIndex(init + [last], last) == |init|
  {
    assert (init + [last])[..|init|] == init;
    FirstIndexUnique(init + [last], last, |init|);
  }

  /** The tally lists each name once, exactly the names tallied, in the
      order in which they first occur. */
  lemma {:induction false} TallyNamesFirstSeen(xs: seq<string>)
    ensures Distinct(TallyNames(TallyOf(xs)))
    ensures FirstSeen(TallyNames(TallyOf(xs)), xs)
  {
    if xs != [] {
      var init, last := xs[..|xs| - 1], xs[|xs| - 1];
      assert xs == init + [last];
      assert TallyOf(xs) == Bump(TallyOf(init), last);
      BumpCounts(TallyOf(init), last);
      TallyNamesFirstSeen(init);
      FirstSeenExtend(TallyNames(TallyOf(init)), init, last);
    }
  }

  // Properties of the statistics

  /** With no messages the result is `{"message_count": 0}` and nothing else. */
  lemma EmptyWindowStats()
    ensures ConversationStats([]) == Success(NoMessages)
    ensures StatsKeys(NoMessages) == {"message_count"} && MessageCount(NoMessages) == 0
  {
  }

  /** Whether the word count of `metadata` can be read and added: "analysis"
      is absent, or is a mapping whose "word_count" is absent, an int or a bool. */
  predicate CountableWords(metadata: Metadata) {
    "analysis" !in metadata ||
    (metadata["analysis"].Dict? &&
     var entries := metadata["analysis"].entries;
     "word_count" !in entries || entries["word_count"].Int? || entries["word_count"].Bool?)
  }

  lemma {:induction false} SumWordsSucceedsIffAll(ws: seq<Result<int, StatsError>>)
    ensures SumWords(ws).Success? <==> forall i :: 0 <= i < |ws| ==> ws[i].Success?
  {
    if ws != [] {
      var init := ws[..|ws| - 1];
      SumWordsSucceedsIffAll(init);
      assert forall i :: 0 <= i < |init| ==> init[i] == ws[i];
    }
  }

  lemma WordTotalSucceedsIffCountable(window: seq<MessageState>)
    ensures WordTotal(window).Success? <==> forall i :: 0 <= i < |window| ==> CountableWords(window[i].metadata)
  {
    var ws := WordCounts(window);
    SumWordsSucceedsIffAll(ws);
    forall i | 0 <= i < |window|
      ensures ws[i].Success? <==> CountableWords(window[i].metadata)
    {
      assert ws[i] == WordsOf(window[i].metadata);
    }
  }

  /** The word count a message contributes: its analysis's "word_count",
      0 when there is no analysis or no "word_count", a bool as 0 or 1. */
  function WordCountOf(metadata: Metadata): int
    requires CountableWords(metadata)
  {
    if "analysis" !in metadata then 0
    else
      var entries := metadata["analysis"].entries;
      if "word_count" !in entries then 0
      else match entries["word_count"]
        case Int(i) => i
        case Bool(b) => if b then 1 else 0
  }

  function SumWordCounts(window: seq<MessageState>): int
    requires forall i :: 0 <= i < |window| ==> CountableWords(window[i].metadata)
  {
    if window == [] then 0 else WordCountOf(window[0].metadata) + SumWordCounts(window[1..])
  }

  lemma {:induction false} SumWordCountsSnoc(window: seq<MessageState>)
    requires window != [] && forall i :: 0 <= i < |window| ==> CountableWords(window[i].metadata)
    ensures SumWordCounts(window) ==
      SumWordCounts(window[..|window| - 1]) + WordCountOf(window[|window| - 1].metadata)
  {
    if |window| > 1 {
      SumWordCountsSnoc(window[1..]);
      assert window[1..][..|window| - 2] == window[..|window| - 1][1..];
    }
  }

  lemma {:induction false} PrefixTotalIsSum(window: seq<MessageState>, k: nat)
    requires k <= |window| && forall i :: 0 <= i < |window| ==> CountableWords(window[i].metadata)
    ensures SumWords(WordCounts(window)[..k]) == Success(SumWordCounts(window[..k]))
  {
    if k > 0 {
      var ws := WordCounts(window);
      var pre := window[..k];
      PrefixTotalIsSum(window, k - 1);
      PrefixStep(ws, k - 1);
      var m := window[k - 1];
      assert ws[k - 1] == WordsOf(m.metadata);
      assert CountableWords(m.metadata);
      assert ws[k - 1] == Success(WordCountOf(m.metadata));
      assert pre[..k - 1] == window[..k - 1];
      assert pre[k - 1] == m;
      SumWordCountsSnoc(pre);
      var before := SumWordCounts(window[..k - 1]);
      assert SumWordCounts(pre) == before + WordCountOf(m.metadata);
      assert SumWords(ws[..k]) == AddWords(Success(before), Success(WordCountOf(m.metadata)));
    } else {
      assert WordCounts(window)[..0] == [];
      assert window[..0] == [];
    }
  }

  /** The running total is the sum of the messages' word counts. */
  lemma WordTotalIsSum(window: seq<MessageState>)
    requires forall i :: 0 <= i < |window| ==> CountableWords(window[i].metadata)
    ensures WordTotal(window) == Success(SumWordCounts(window))
  {
    PrefixTotalIsSum(window, |window|);
    assert WordCounts(window)[..|window|] == WordCounts(window);
    assert window[..|window|] == window;
  }

  /** A successful summary counts every message of the window once per
      platform and once per sender, and averages the word counts. */
  lemma SummaryOfWindow(window: seq<MessageState>, name: string)
    requires window != [] && forall i :: 0 <= i < |window| ==> CountableWords(window[i].metadata)
    ensures ConversationStats(window).Success?
    ensures var s := ConversationStats(window).value;
      && s.Summary?
      && StatsKeys(s) == {"message_count", "platform_counts", "sender_counts", "avg_word_count"}
      && s.messageCount == |window|
      && Total(s.platformCounts) == s.messageCount && Total(s.senderCounts) == s.messageCount
      && Lookup(s.platformCounts, name) == multiset(Platforms(window))[name]
      && Lookup(s.senderCounts, name) == multiset(Senders(window))[name]
      && s.avgWordCount == SumWordCounts(window) as real / |window| as real
  {
    WordTotalIsSum(window);
    TallyTotal(Platforms(window));
    TallyTotal(Senders(window));
    TallyCountsOccurrences(Platforms(window), name);
    TallyCountsOccurrences(Senders(window), name);
  }

  /** A message the processor annotated contributes its analysed word count. */
  lemma AnalysedWords(metadata: Metadata, a: Analysis)
    ensures CountableWords(metadata["analysis" := AnalysisValue(a)])
    ensures WordCountOf(metadata["analysis" := AnalysisValue(a)]) == a.wordCount
  {
  }

  /** The statistics cover only the last ten stored messages: the count is
      min(10, n) whenever they succeed. */
  lemma StatsCoverLastTen(store: MessageStore)
    requires store.Valid()
    ensures var window := store.GetMessages();
      var n := |store.messages|;
      && window == store.messages[n - |window|..]
      && |window| == (if n < DefaultLimit then n else DefaultLimit)
      && (ConversationStats(States(window)).Success? ==>
            MessageCount(ConversationStats(States(window)).value) == |window|)
  {
  }

  // The data of the processor's own test: three messages, each analysed and
  // stored by `process_message`, then summarised.

  /** The state `process_message` leaves a new message in. */
  function Processed(content: string, sender: string, platform: string, ts: Timestamp): MessageState {
    MessageState(content, sender, platform, ts, map["analysis" := AnalysisValue(Analyze(content))])
  }

  /** The analysis is fixed by the word starts, the length and the question mark. */
  lemma AnalysisDetermined(c: string, words: nat, chars: nat, question: bool)
    requires WordStarts(c, true) == words && |c| == chars && ('?' in c <==> question)
    ensures Analyze(c) == Analysis(words, chars, question)
  {
  }

  function Greeting(): string { JoinWords(["Hello!", "How", "are", "you?"]) }
  function Reply(): string { JoinWords(["I'm", "doing", "well,", "thanks", "for", "asking."]) }
  function Closing(): string { JoinWords(["That's", "great", "to", "hear!"]) }

  /** The three test contents, written out. */
  lemma GreetingText()
    ensures Greeting() == "Hello! How are you?"
  {
  }

  lemma ReplyText()
    ensures Reply() == "I'm doing well, thanks for asking."
  {
  }

  lemma ClosingText()
    ensures Closing() == "That's great to hear!"
  {
  }

  lemma GreetingWords()
    ensures WordStarts(Greeting(), true) == 4
  {
    JoinedWordCount(["Hello!", "How", "are", "you?"]);
  }

  lemma GreetingLength()
    ensures |Greeting()| == 19
  {
  }

  lemma GreetingQuestion()
    ensures '?' in Greeting()
  {
  }

  lemma ReplyWords()
    ensures WordStarts(Reply(), true) == 6
  {
    JoinedWordCount(["I'm", "doing", "well,", "thanks", "for", "asking."]);
  }

  lemma ReplyLength()
    ensures |Reply()| == 34
  {
  }

  lemma ReplyQuestion()
    ensures '?' !in Reply()
  {
  }

  lemma ClosingWords()
    ensures WordStarts(Closing(), true) == 4
  {
    JoinedWordCount(["That's", "great", "to", "hear!"]);
  }

  lemma ClosingLength()
    ensures |Closing()| == 21
  {
  }

  lemma ClosingQuestion()
    ensures '?' !in Closing()
  {
  }

  /** "Hello! How are you?" has four words, 19 characters and a question mark;
      "I'm doing well, thanks for asking." six words and 34 characters;
      "That's great to hear!" four words and 21 characters. */
  lemma TestAnalyses()
    ensures Analyze(Greeting()) == Analysis(4, 19, true)
    ensures Analyze(Reply()) == Analysis(6, 34, false)
    ensures Analyze(Closing()) == Analysis(4, 21, false)
  {
    GreetingWords(); GreetingLength(); GreetingQuestion();
    ReplyWords(); ReplyLength(); ReplyQuestion();
    ClosingWords(); ClosingLength(); ClosingQuestion();
    AnalysisDetermined(Greeting(), 4, 19, true);
    AnalysisDetermined(Reply(), 6, 34, false);
    AnalysisDetermined(Closing(), 4, 21, false);
  }

  /** A name seen twice and then a new one. */
  lemma TallyRepeatThenNew(a: string, b: string)
    requires a != b
    ensures TallyOf([a, a, b]) == [(a, 2), (b, 1)]
  {
    assert [a, a, b][..2] == [a, a];
    assert [a, a][..1] == [a];
    assert [a][..0] == [];
    assert TallyOf([a]) == [(a, 1)];
    assert TallyOf([a, a]) == [(a, 2)];
    assert Bump([(a, 2)], b) == [(a, 2)] + Bump([], b);
  }

  /** A name, a new one, and the first again. */
  lemma TallyRevisit(a: string, b: string)
    requires a != b
    ensures TallyOf([a, b, a]) == [(a, 2), (b, 1)]
  {
    assert [a, b, a][..2] == [a, b];
    assert [a, b][..1] == [a];
    assert [a][..0] == [];
    assert TallyOf([a]) == [(a, 1)];
    assert Bump([(a, 1)], b) == [(a, 1)] + Bump([], b);
    assert TallyOf([a, b]) == [(a, 1), (b, 1)];
    assert Bump([(a, 1), (b, 1)], a) == [(a, 2), (b, 1)];
  }

  /** Three processed messages from User, AI and User, on chatgpt, chatgpt and
      claude, as in the processor's test conversation. */
  function TestWindow(c1: string, c2: string, c3: string, t1: Timestamp, t2: Timestamp, t3: Timestamp): seq<MessageState> {
    [Processed(c1, "User", "chatgpt", t1), Processed(c2, "AI", "chatgpt", t2),
     Processed(c3, "User", "claude", t3)]
  }

  /** Contents of four, six and four words total fourteen words. */
  lemma WindowWords(c1: string, c2: string, c3: string, t1: Timestamp, t2: Timestamp, t3: Timestamp)
    requires Analyze(c1).wordCount == 4 && Analyze(c2).wordCount == 6 && Analyze(c3).wordCount == 4
    ensures WordTotal(TestWindow(c1, c2, c3, t1, t2, t3)) == Success(14)
  {
    AnalysedWords(map[], Analyze(c1));
    AnalysedWords(map[], Analyze(c2));
    AnalysedWords(map[], Analyze(c3));
    var ws := WordCounts(TestWindow(c1, c2, c3, t1, t2, t3));
    assert ws == [Success(4), Success(6), Success(4)];
    assert ws[..2][..1][..0] == [];
    assert SumWords(ws[..1]) == Success(4);
    assert ws[..2][..1] == ws[..1];
    assert SumWords(ws[..2]) == Success(10);
  }

  /** Such a window summarises to three messages, chatgpt twice and claude once,
      User twice and AI once, and 14 / 3 words on average. */
  lemma WindowStats(c1: string, c2: string, c3: string, t1: Timestamp, t2: Timestamp, t3: Timestamp)
    requires Analyze(c1).wordCount == 4 && Analyze(c2).wordCount == 6 && Analyze(c3).wordCount == 4
    ensures ConversationStats(TestWindow(c1, c2, c3, t1, t2, t3)) ==
      Success(Summary(3, [("chatgpt", 2), ("claude", 1)], [("User", 2), ("AI", 1)], 14.0 / 3.0))
  {
    var window := TestWindow(c1, c2, c3, t1, t2, t3);
    WindowWords(c1, c2, c3, t1, t2, t3);
    assert Platforms(window) == ["chatgpt", "chatgpt", "claude"];
    assert Senders(window) == ["User", "AI", "User"];
    TallyRepeatThenNew("chatgpt", "claude");
    TallyRevisit("User", "AI");
  }

  /** The processor's test conversation, with its three contents. */
  lemma TestStats(t1: Timestamp, t2: Timestamp, t3: Timestamp)
    ensures ConversationStats(TestWindow(Greeting(), Reply(), Closing(), t1, t2, t3)) ==
      Success(Summary(3, [("chatgpt", 2), ("claude", 1)], [("User", 2), ("AI", 1)], 14.0 / 3.0))
  {
    TestAnalyses();
    WindowStats(Greeting(), Reply(), Closing(), t1, t2, t3);
  }
}
