/**
 * The in-memory message store: every message once in a global list in
 * arrival order, and again in the list of its platform.
 */
module Store {
  import opened Wrappers
  import opened Text
  import opened Messages

  const DefaultLimit: int := 10

  /** Python's normalisation of a slice start `start` for a list of length `n`:
      a negative start counts from the end, and both ends are clamped. */
  function SliceStart(n: nat, start: int): (k: nat)
    ensures k <= n
  {
    if start < 0 then (if n + start < 0 then 0 else n + start)
    else if start > n then n else start
  }

  /** Python's `s[-limit:]`. */
  function LastN<T>(s: seq<T>, limit: int): (r: seq<T>)
    ensures |r| <= |s| && r == s[|s| - |r|..]
    ensures limit > 0 ==> |r| == (if limit < |s| then limit else |s|)
    ensures limit == 0 ==> r == s
    ensures limit < 0 ==> |r| == (if -limit < |s| then |s| + limit else 0)
  {
    s[SliceStart(|s|, -limit)..]
  }

  /** The messages of `ms` on platform `p`, in their order in `ms`. */
  function OnPlatform(ms: seq<ChatMessage>, p: string): (r: seq<ChatMessage>)
    ensures |r| <= |ms|
    ensures forall i :: 0 <= i < |r| ==> r[i] in ms && r[i].platform == p
    ensures forall i :: 0 <= i < |ms| && ms[i].platform == p ==> ms[i] in r
  {
    if ms == [] then []
    else (if ms[0].platform == p then [ms[0]] else []) + OnPlatform(ms[1..], p)
  }

  lemma {:induction false} OnPlatformAppend(ms: seq<ChatMessage>, m: ChatMessage, p: string)
    ensures OnPlatform(ms + [m], p) == OnPlatform(ms, p) + (if m.platform == p then [m] else [])
  {
    if ms != [] {
      OnPlatformAppend(ms[1..], m, p);
      assert (ms + [m])[1..] == ms[1..] + [m];
    } else {
      assert ms + [m] == [m];
    }
  }

  function PlatformNames(ms: seq<ChatMessage>): set<string> {
    set m | m in ms :: m.platform
  }

  /** True when the optional platform argument selects a platform list:
      `None` and the empty string are false in Python's `if platform:`. */
  predicate Names(platform: Option<string>)
    ensures Names(platform) <==> platform !in {None, Some("")}
  {
    platform.Some? && platform.value != ""
  }

  /** What a platform argument selects from the global list. */
  function Selected(ms: seq<ChatMessage>, platform: Option<string>): seq<ChatMessage> {
    if Names(platform) then OnPlatform(ms, platform.value) else ms
  }

  /** Whether a message's content contains the keyword, ignoring ASCII case. */
  predicate Mentions(m: ChatMessage, keyword: string)
    ensures Mentions(m, keyword) <==>
      exists i :: 0 <= i <= |Lower(m.content)| && Lower(keyword) <= Lower(m.content)[i..]
  {
    var hay, needle := Lower(m.content), Lower(keyword);
    ContainsAt(hay, needle);
    assert hay == Lower(m.content) && needle == Lower(keyword);
    assert Contains(hay, needle) <==> exists i :: 0 <= i <= |hay| && needle <= hay[i..];
    Contains(hay, needle)
  }

  /** The messages of `ms` that mention `keyword`, in their order in `ms`. */
  function Matching(ms: seq<ChatMessage>, keyword: string): (r: seq<ChatMessage>)
    ensures |r| <= |ms|
    ensures forall i :: 0 <= i < |r| ==> r[i] in ms && Mentions(r[i], keyword)
    ensures forall i :: 0 <= i < |ms| && Mentions(ms[i], keyword) ==> ms[i] in r
  {
    if ms == [] then []
    else (if Mentions(ms[0], keyword) then [ms[0]] else []) + Matching(ms[1..], keyword)
  }

  class MessageStore {
    var messages: seq<ChatMessage>
    var platforms: map<string, seq<ChatMessage>>

    /** The two indexes agree: the platform keys are exactly the platforms
        seen, and each platform's list is the global list filtered to it. */
    ghost predicate Valid()
      reads this
    {
      && platforms.Keys == PlatformNames(messages)
      && forall p :: p in platforms ==> platforms[p] == OnPlatform(messages, p)
    }

    constructor ()
      ensures Valid()
      ensures messages == [] && platforms == map[]
    {
      messages := [];
      platforms := map[];
    }

    /** Appends `message` to the global list and to its platform's list,
        creating that list on the platform's first message. */
    method AddMessage(message: ChatMessage)
      requires Valid()
      modifies this
      ensures Valid()
      ensures messages == old(messages) + [message]
      ensures platforms == old(platforms)[message.platform :=
        (if message.platform in old(platforms) then old(platforms)[message.platform] else []) + [message]]
    {
      messages := messages + [message];
      if message.platform !in platforms {
        platforms := platforms[message.platform := []];
      }
      platforms := platforms[message.platform := platforms[message.platform] + [message]];
      IndexAfterAdd(old(messages), old(platforms), message);
    }

    /** The last `limit` messages, of one platform when `platform` is a
        non-empty name and of all platforms otherwise, oldest first. */
    function GetMessages(platform: Option<string> := None, limit: int := DefaultLimit): (r: seq<ChatMessage>)
      reads this
      requires Valid()
      ensures r == LastN(Selected(messages, platform), limit)
    {
      if Names(platform) then
        OnPlatformUnseen(messages, platform.value);
        LastN(if platform.value in platforms then platforms[platform.value] else [], limit)
      else
        LastN(messages, limit)
    }

    /** All messages whose content contains `keyword`, ignoring ASCII case,
        in arrival order and without a limit. */
    function SearchMessages(keyword: string): (r: seq<ChatMessage>)
      reads this
      ensures |r| <= |messages|
      ensures forall i :: 0 <= i < |r| ==> r[i] in messages && Contains(Lower(r[i].content), Lower(keyword))
      ensures forall i :: 0 <= i < |messages| && Contains(Lower(messages[i].content), Lower(keyword)) ==> messages[i] in r
    {
      Matching(messages, keyword)
    }
  }

  /** A platform nobody posted on has no messages. */
  lemma OnPlatformUnseen(ms: seq<ChatMessage>, p: string)
    ensures p !in PlatformNames(ms) ==> OnPlatform(ms, p) == []
  {
  }

  /** Appending one message to the global list and to its platform's list
      (created empty if new) keeps the indexes in agreement. */
  lemma IndexAfterAdd(ms: seq<ChatMessage>, index: map<string, seq<ChatMessage>>, m: ChatMessage)
    requires index.Keys == PlatformNames(ms)
    requires forall p :: p in index ==> index[p] == OnPlatform(ms, p)
    ensures var index' := index[m.platform := (if m.platform in index then index[m.platform] else []) + [m]];
      && index'.Keys == PlatformNames(ms + [m])
      && forall p :: p in index' ==> index'[p] == OnPlatform(ms + [m], p)
  {
    var index' := index[m.platform := (if m.platform in index then index[m.platform] else []) + [m]];
    assert PlatformNames(ms + [m]) == PlatformNames(ms) + {m.platform};
    forall p | p in index'
      ensures index'[p] == OnPlatform(ms + [m], p)
    {
      OnPlatformAppend(ms, m, p);
      if p == m.platform && p !in index {
        OnPlatformUnseen(ms, p);
      }
    }
  }

  /** Every stored message sits in exactly one platform list: its own. */
  lemma OnePlatformEach(store: MessageStore, m: ChatMessage, p: string)
    requires store.Valid() && m in store.messages
    ensures m.platform in store.platforms
    ensures p in store.platforms && m in store.platforms[p] <==> p == m.platform
  {
  }

  /** Without a platform name, retrieval returns the last min(limit, n)
      messages for a positive limit, and everything for limit 0. */
  lemma UnfilteredWindow(store: MessageStore, platform: Option<string>, limit: int)
    requires store.Valid() && !Names(platform)
    ensures var r := store.GetMessages(platform, limit);
      var n := |store.messages|;
      && (limit > 0 ==> r == store.messages[n - (if limit < n then limit else n)..])
      && (limit == 0 ==> r == store.messages)
  {
  }

  /** A platform that was never added gives an empty result, whatever the limit. */
  lemma UnknownPlatformEmpty(store: MessageStore, p: string, limit: int)
    requires store.Valid() && p != "" && p !in PlatformNames(store.messages)
    ensures store.GetMessages(Some(p), limit) == []
  {
    OnPlatformUnseen(store.messages, p);
  }

  /** Search results grow with the store: a new message is added at the end
      exactly when it matches. */
  lemma {:induction false} MatchingAppend(ms: seq<ChatMessage>, m: ChatMessage, keyword: string)
    ensures Matching(ms + [m], keyword) == Matching(ms, keyword) + (if Mentions(m, keyword) then [m] else [])
  {
    if ms != [] {
      MatchingAppend(ms[1..], m, keyword);
      assert (ms + [m])[1..] == ms[1..] + [m];
    } else {
      assert ms + [m] == [m];
    }
  }

  /** The empty keyword matches every message. */
  lemma {:induction false} MatchingEmptyKeyword(ms: seq<ChatMessage>)
    ensures Matching(ms, "") == ms
  {
    if ms != [] {
      MatchingEmptyKeyword(ms[1..]);
      ContainsEmpty(Lower(ms[0].content));
    }
  }

  /** Searching for a keyword and for its lower-case form give the same result. */
  lemma {:induction false} MatchingIgnoresKeywordCase(ms: seq<ChatMessage>, keyword: string)
    ensures Matching(ms, Lower(keyword)) == Matching(ms, keyword)
  {
    LowerIdempotent(keyword);
    if ms != [] {
      MatchingIgnoresKeywordCase(ms[1..], keyword);
    }
  }
}
