# Chat message core, modelled in Dafny

This project models the in-memory core of a small chat tool. The core has three parts.

- A `ChatMessage` record. Its content, sender and platform are set once at construction; the platform defaults to `"unknown"`. It also holds a timestamp taken at construction and a metadata dictionary that `add_metadata` updates in place.
- A `MessageStore` that indexes the same messages two ways: a global list in arrival order, and a dictionary from platform name to that platform's own list. It offers appending, "last `limit`" retrieval with an optional platform filter, and case-insensitive substring search.
- A `MessageProcessor`. It writes a per-message analysis into the metadata before storing the message: word count, character count, and whether the content has a question mark. It also computes statistics over the store's default window of the last ten messages: counts per platform, counts per sender, and the average word count.

The repository has two copies of `chat_message.py`, at `Mandates/codefiles/` and `vox-stitchs/old/codefiles/`. They are identical, so one class, `Messages.ChatMessage`, models both. The processor imports `message_store` from its own directory, and that file is not part of this model. The processor is modelled against `Mandates/codefiles/message_store.py`.

Files:

- `wrappers.dfy` holds `Option` and `Result`.
- `text.dfy` holds the Python string operations the core relies on: `str.lower()` on ASCII, the substring test `in`, and `str.split()` with no argument.
- `chat_message.dfy` holds the message class, its dictionary form and its one-line rendering.
- `message_store.dfy` holds the store class. Its cross-index invariant is `Valid()`: the platform keys are exactly the platforms seen, and each platform's list is the global list filtered to that platform, in the same order.
- `message_processor.dfy` holds the processor class. The statistics loop is proved against a functional definition, `ConversationStats`. Python dictionaries keep insertion order, so the per-platform and per-sender counts are modelled as association lists in first-occurrence order (`Tally`).

Python semantics modelled explicitly:

- `messages[-limit:]` for any integer `limit`: a negative limit drops a prefix, and `[-0:]` is the whole list.
- The truthiness test `if platform:`. Both `None` and `""` select the global list.
- `str.split()` whitespace: code points 9–13 and 28–32.
- The error paths of `msg.metadata.get("analysis", {}).get("word_count", 0)`:
  - an `"analysis"` value without `.get` raises `AttributeError`;
  - a `"word_count"` that cannot be added to an int raises `TypeError`;
  - a `bool` adds as 0 or 1.

## Model

| member | source | states |
|---|---|---|
| Messages.ChatMessage.constructor | Mandates/codefiles/chat_message.py:9-19 | content, sender and platform are stored as given, the platform defaults to "unknown", the timestamp is the construction-time reading, and the metadata starts empty |
| Messages.ChatMessage.AddMetadata | Mandates/codefiles/chat_message.py:21-23 | the key maps to the new value; every other key is present and bound exactly as before; content, sender, platform and timestamp are constants and cannot change |
| Messages.ChatMessage.ToDict | Mandates/codefiles/chat_message.py:25-33 | the dictionary has exactly the five keys content, sender, platform, timestamp and metadata, and reading it back gives the current content, sender, platform, metadata and ISO timestamp unchanged |
| Messages.ChatMessage.ToString | Mandates/codefiles/chat_message.py:35-37 | the line is the bracketed time and a space, the sender followed by ": ", and the content, so it is five characters longer than its three parts |
| Messages.ToStringRoundTrip | vox-stitchs/old/codefiles/chat_message.py:35-37 | when the time has no ']' and the sender has no ':', the rendered line parses back into its time, sender and content |
| Store.LastN | Mandates/codefiles/message_store.py:30 | Python's `s[-limit:]` is a suffix of `s`: its length is min(limit, n) for a positive limit, the whole list for 0, and n + limit (floored at 0) for a negative limit |
| Store.SliceStart | Mandates/codefiles/message_store.py:30 | the start index Python computes for `[-limit:]` never lies beyond the end of the list |
| Store.Names | Mandates/codefiles/message_store.py:25 | `if platform:` is false exactly for `None` and `""`, the two falsy values of an optional string |
| Store.MessageStore.constructor | Mandates/codefiles/message_store.py:9-11 | both indexes start empty and agree |
| Store.MessageStore.AddMessage | Mandates/codefiles/message_store.py:13-21 | the message is appended to the global list; its platform's list is created empty if new and then extended by the message; no other platform's list changes; the indexes still agree |
| Store.IndexAfterAdd | Mandates/codefiles/message_store.py:16-21 | appending to the global list and to the platform's list keeps every platform list equal to the filtered global list, and keeps the key set equal to the platforms seen |
| Store.OnPlatformAppend | Mandates/codefiles/message_store.py:19-21 | the filtered list of the extended global list is the old filtered list, plus the new message exactly when it is on that platform |
| Store.OnPlatform | Mandates/codefiles/message_store.py:19-21 | a platform's list holds only messages on that platform, and every stored message on that platform |
| Store.OnePlatformEach | Mandates/codefiles/message_store.py:19-21 | every stored message's platform is a key, and the message is in a platform's list exactly when that platform is its own |
| Store.MessageStore.GetMessages | Mandates/codefiles/message_store.py:23-30 | the result is the last `limit` entries of the platform's list when the platform is a non-empty name, and of the global list otherwise; being a function it changes nothing, so repeated calls give the same result |
| Store.UnfilteredWindow | Mandates/codefiles/message_store.py:25-30 | with no platform name, a positive limit gives the last min(limit, n) messages in arrival order and limit 0 gives all of them |
| Store.UnknownPlatformEmpty | Mandates/codefiles/message_store.py:26 | a non-empty platform name that was never added gives an empty result, whatever the limit; the name `""` fails `if platform:` and selects the global list instead |
| Store.MessageStore.SearchMessages | Mandates/codefiles/message_store.py:32-37 | the result holds exactly the stored messages whose lower-cased content contains the lower-cased keyword; being a function it changes nothing |
| Store.Matching | Mandates/codefiles/message_store.py:34-37 | the filter keeps only matching messages from the list, and every matching one |
| Store.Mentions | Mandates/codefiles/message_store.py:36 | a message matches exactly when the lower-cased keyword occurs at some position of the lower-cased content |
| Store.MatchingAppend | Mandates/codefiles/message_store.py:34-37 | matching is in arrival order: a new message goes at the end of the result exactly when it matches |
| Store.MatchingEmptyKeyword | Mandates/codefiles/message_store.py:36 | the empty keyword matches every message, so the result is the whole list |
| Store.MatchingIgnoresKeywordCase | Mandates/codefiles/message_store.py:36 | searching for a keyword and for its lower-case form give the same result |
| Text.Lower | Mandates/codefiles/message_store.py:36 | lower-casing keeps the length, maps each character by ASCII case folding, and leaves no upper-case letter |
| Text.LowerIdempotent | Mandates/codefiles/message_store.py:36 | lower-casing twice is lower-casing once |
| Text.Contains | Mandates/codefiles/message_store.py:36 | a needle that starts the haystack is contained in it, and a contained needle is no longer than the haystack; Text.ContainsAt ties the test to positions and Text.ContainsChar to single characters |
| Text.ContainsAt | Mandates/codefiles/message_store.py:36 | the substring test holds exactly when the needle occurs at some position of the haystack |
| Text.ContainsEmpty | Mandates/codefiles/message_store.py:36 | the empty string is contained in every string |
| Text.Split | vox-stitchs/old/codefiles/message_processor.py:17 | `str.split()` yields non-empty words without whitespace, and no more words than characters |
| Text.IsSpace | vox-stitchs/old/codefiles/message_processor.py:17 | the whitespace `str.split()` breaks on in the ASCII range is exactly the code points 9, 10, 11, 12, 13, 28, 29, 30, 31 and 32 |
| Text.WordCountIsWordStarts | vox-stitchs/old/codefiles/message_processor.py:17 | the number of words of `str.split()` equals the number of positions where a non-space follows a space or the start of the string |
| Text.SplitKeepsNonSpace | vox-stitchs/old/codefiles/message_processor.py:17 | the words of `str.split()`, concatenated, are the content with all whitespace removed |
| Text.JoinedWordCount | vox-stitchs/old/codefiles/message_processor.py:17 | joining non-empty words without whitespace by single spaces gives a string with exactly that many word starts, so `split()` gives that many words back |
| Text.ContainsChar | vox-stitchs/old/codefiles/message_processor.py:19 | `"?" in content` holds exactly when the character '?' occurs in the content |
| Processor.Analyze | vox-stitchs/old/codefiles/message_processor.py:16-20 | "word_count" is the number of word starts, which Text.WordCountIsWordStarts equates with `len(content.split())`; "char_count" is the length; "has_question" holds exactly when '?' occurs |
| Processor.AnalysisValue | vox-stitchs/old/codefiles/message_processor.py:16-20 | the stored analysis is a dictionary with exactly the keys "word_count", "char_count" and "has_question", and the statistics loop reads its "word_count" back as the analysed word count |
| Processor.MessageProcessor.constructor | vox-stitchs/old/codefiles/message_processor.py:10-11 | the processor owns a fresh, empty store whose indexes agree |
| Processor.MessageProcessor.ProcessMessage | vox-stitchs/old/codefiles/message_processor.py:13-28 | the returned analysis is the word count, the character count and whether '?' occurs; it is the value now stored under metadata "analysis"; the message becomes the last entry of the global list and of its platform's list; the indexes still agree |
| Processor.MessageProcessor.GetConversationStats | vox-stitchs/old/codefiles/message_processor.py:30-64 | the result is the statistics of the messages that `get_messages()` returns, in their current state |
| Processor.Summarise | vox-stitchs/old/codefiles/message_processor.py:34-62 | the loop gives `{"message_count": 0}` for no messages; otherwise it gives the count, both tallies and the average, or the error the first uncountable message raises |
| Processor.ScanStep | vox-stitchs/old/codefiles/message_processor.py:47-59 | one more message bumps its platform's count and its sender's count, and adds its words to the running total |
| Processor.ScanFails | vox-stitchs/old/codefiles/message_processor.py:59 | a message whose word count cannot be added makes the whole statistics call raise that error |
| Processor.ScanDone | vox-stitchs/old/codefiles/message_processor.py:62 | after the last message, the loop state is the content of the statistics, with the average being the total over the count |
| Processor.Bump | vox-stitchs/old/codefiles/message_processor.py:50-56 | a bump never leaves the tally empty and adds at most one entry; Processor.BumpCounts gives its counts and order |
| Processor.TallyOf | vox-stitchs/old/codefiles/message_processor.py:47-56 | the counts dict built by bumping each name in turn has no more entries than names and is non-empty once a name is seen; Processor.TallyCountsOccurrences and Processor.TallyNamesFirstSeen give its counts and order |
| Processor.PrefixFailure | vox-stitchs/old/codefiles/message_processor.py:59 | once an addition raises, the rest of the loop is never reached and the same error results |
| Processor.WordsOf | vox-stitchs/old/codefiles/message_processor.py:59 | reading one message's word count succeeds exactly when its metadata is countable, and then gives the analysed word count (0 when absent); it raises AttributeError exactly when "analysis" is present and not a dictionary, and TypeError otherwise |
| Processor.AddWords | vox-stitchs/old/codefiles/message_processor.py:59 | `total_words += w` succeeds exactly when the running total and the addend both do, with their sum; otherwise it raises the running total's error if there is one, else the addend's |
| Processor.SumWords | vox-stitchs/old/codefiles/message_processor.py:45-59 | `total_words` starts at 0 and adds each message in turn; an error it ends with was raised by one of the messages. Processor.SumWordsSucceedsIffAll says when it succeeds and Processor.WordTotalIsSum gives its value |
| Processor.ConversationStats | vox-stitchs/old/codefiles/message_processor.py:30-64 | no messages give `{"message_count": 0}`; the statistics succeed exactly when every message's word count can be added (the float overflow of the average is left out); a successful summary of a non-empty window counts its messages |
| Processor.BumpCounts | vox-stitchs/old/codefiles/message_processor.py:50-56 | `d[k] = d.get(k, 0) + 1` adds one to k's count, leaves every other count alone, appends a new key at the end, and adds one to the total |
| Processor.EmptyWindowStats | vox-stitchs/old/codefiles/message_processor.py:34-35 | with no messages the result is `{"message_count": 0}` with no other key |
| Processor.StatsCoverLastTen | vox-stitchs/old/codefiles/message_processor.py:32-39 | the statistics window is the last min(10, n) stored messages, and a successful result's message_count is that size |
| Processor.TallyCountsOccurrences | vox-stitchs/old/codefiles/message_processor.py:47-56 | each platform's (and each sender's) count is its number of occurrences in the window |
| Processor.TallyTotal | vox-stitchs/old/codefiles/message_processor.py:47-56 | the counts add up to the number of messages tallied |
| Processor.TallyNamesFirstSeen | vox-stitchs/old/codefiles/message_processor.py:47-56 | the tally lists each name once, lists exactly the names in the window, and lists them in the order of their first occurrence |
| Processor.FirstSeenExtend | vox-stitchs/old/codefiles/message_processor.py:50-56 | one more name keeps the first-occurrence order: a name not seen before goes at the end |
| Processor.WordTotalSucceedsIffCountable | vox-stitchs/old/codefiles/message_processor.py:45-59 | the running total succeeds exactly when every message's word count can be added |
| Processor.SumWordsSucceedsIffAll | vox-stitchs/old/codefiles/message_processor.py:45-59 | a running total succeeds exactly when every addend does |
| Processor.WordTotalIsSum | vox-stitchs/old/codefiles/message_processor.py:45-59 | when it succeeds, the running total is the sum of the messages' word counts, with 0 for a message without analysis or without "word_count" |
| Processor.SummaryOfWindow | vox-stitchs/old/codefiles/message_processor.py:38-62 | a successful summary has the four keys, message_count equal to the window size, platform and sender counts that sum to message_count and count occurrences, and avg_word_count equal to the word-count sum over message_count |
| Processor.AnalysedWords | vox-stitchs/old/codefiles/message_processor.py:23-59 | a message the processor annotated is countable and contributes exactly its analysed word count |
| Processor.GreetingText | vox-stitchs/old/codefiles/message_processor.py:73 | the first test content, as joined words, is "Hello! How are you?" |
| Processor.ReplyText | vox-stitchs/old/codefiles/message_processor.py:74 | the second test content, as joined words, is "I'm doing well, thanks for asking." |
| Processor.ClosingText | vox-stitchs/old/codefiles/message_processor.py:75 | the third test content, as joined words, is "That's great to hear!" |
| Processor.TestAnalyses | vox-stitchs/old/codefiles/message_processor.py:72-76 | the three test contents analyse to four words, 19 characters and a question; six words, 34 characters and none; four words, 21 characters and none |
| Processor.TallyRepeatThenNew | vox-stitchs/old/codefiles/message_processor.py:50-51 | for two distinct platforms a, a, b tally to a: 2, b: 1, in that order, as chatgpt, chatgpt, claude do in the test |
| Processor.TallyRevisit | vox-stitchs/old/codefiles/message_processor.py:55-56 | for two distinct senders a, b, a tally to a: 2, b: 1, in that order, as User, AI, User do in the test |
| Processor.WindowWords | vox-stitchs/old/codefiles/message_processor.py:45-59 | three processed messages of four, six and four words total fourteen words |
| Processor.WindowStats | vox-stitchs/old/codefiles/message_processor.py:38-64 | three processed messages from User, AI and User on chatgpt, chatgpt and claude, of four, six and four words, summarise to count 3, chatgpt: 2 and claude: 1, User: 2 and AI: 1, and average 14 / 3 |
| Processor.TestStats | vox-stitchs/old/codefiles/message_processor.py:67-86 | the test conversation, processed, gives exactly those statistics |

## Left out

- The command-line menus (`chat_cli.py`, both copies) and `Mandates/chat.py` are not part of this model. They are interactive input/output. The web route in `chat.py` is commented out.
- `datetime.now()` and `isoformat()` are not modelled. The timestamp is a constructor parameter that carries its two renderings, `str(timestamp)` and `timestamp.isoformat()`.
- Processor.Summarise: `avg_word_count` is a mathematical `real`, not an IEEE double, so rounding of the division is not modelled.
- Processor.ConversationStats: does not model the `OverflowError` that `total_words / len(messages)` raises when the average lies beyond the range of a float. Only a hand-written "word_count" far beyond what the processor's own analysis can produce reaches it. The model's real division never fails, so its "succeeds exactly when every word count can be added" is stronger than the source there.
- Text.Lower: folds ASCII letters only. Text.Split: treats only the ASCII whitespace and separator code points as spaces. Full Unicode case mapping and spacing are not modelled.
- Metadata values are limited to strings, ints, bools and nested dictionaries. `Any` values of other kinds are not modelled. A stored "word_count" that is a string or a dictionary is kept, to model the `TypeError` path.
- Messages.ChatMessage.ToDict: returns the metadata as a value. In the source the returned dictionary shares the live metadata dictionary, and that aliasing is not modelled.
- Processor.MessageProcessor.GetConversationStats: the loop runs over the window's message states as read at the call. Nothing runs between the reads, so this matches the source, but the loop is not written over the heap objects themselves.
- Messages.ChatMessage: content, sender, platform and timestamp are constants, because nothing in the core reassigns them. Python code outside the core could.
- The `test_*` functions and their `print` calls are left out. The processor's test data, its three messages and the statistics they give, appears in Processor.TestAnalyses and Processor.TestStats as statements about values; the store's test data does not appear.
- Processor.MessageProcessor.ProcessMessage: returns the analysis as a value. In the source the returned dictionary is the same object as the one stored under metadata "analysis", so a caller that mutates it changes the stored analysis, and nested dictionaries in metadata alias the same way. That aliasing is not modelled.
- Messages.ChatMessage.AddMetadata: metadata is a Dafny map, which has no key order. The insertion order of the keys of the metadata, of the analysis dictionary and of the dictionary `to_dict` builds is not modelled; only the keys and their values are.
- Concurrency is not modelled; the source is single-threaded.
