/**
 * A chat message: content, sender and platform fixed at construction, a
 * timestamp taken from the clock at construction, and a metadata mapping
 * that is updated in place.
 */
module Messages {
  import opened Wrappers

  /** A metadata value. The source allows any Python value; the model keeps
      the kinds the chat core produces or inspects. */
  datatype Value =
    | Str(s: string)
    | Int(i: int)
    | Bool(b: bool)
    | Dict(entries: map<string, Value>)

  type Metadata = map<string, Value>

  /** The construction time, as its two renderings: `str(timestamp)` (used by
      `__str__`) and `timestamp.isoformat()` (used by `to_dict`). */
  datatype Timestamp = Timestamp(display: string, iso: string)

  const DefaultPlatform: string := "unknown"

  /** The observable state of a message at one moment. */
  datatype MessageState = MessageState(
    content: string, sender: string, platform: string, timestamp: Timestamp, metadata: Metadata)

  /** The fields recovered from a `to_dict` mapping. */
  datatype DictFields = DictFields(
    content: string, sender: string, platform: string, timestamp: string, metadata: Metadata)

  const DictKeys: set<string> := {"content", "sender", "platform", "timestamp", "metadata"}

  /** Reads a `to_dict` mapping back; `None` when a key is missing or has the wrong kind. */
  function FromDict(d: map<string, Value>): Option<DictFields> {
    if && "content" in d && d["content"].Str?
       && "sender" in d && d["sender"].Str?
       && "platform" in d && d["platform"].Str?
       && "timestamp" in d && d["timestamp"].Str?
       && "metadata" in d && d["metadata"].Dict?
    then Some(DictFields(d["content"].s, d["sender"].s, d["platform"].s,
                         d["timestamp"].s, d["metadata"].entries))
    else None
  }

  /** Index of the first occurrence of `c` in `s`. */
  function IndexOf(s: string, c: char): (r: Option<nat>)
    ensures r.Some? ==> r.value < |s| && s[r.value] == c && c !in s[..r.value]
    ensures r.None? ==> c !in s
  {
    if s == [] then None
    else if s[0] == c then Some(0)
    else match IndexOf(s[1..], c)
      case None => None
      case Some(i) => assert s[..i + 1] == [s[0]] + s[1..][..i]; Some(i + 1)
  }

  lemma {:induction false} IndexOfJoin(a: string, c: char, b: string)
    requires c !in a
    ensures IndexOf(a + [c] + b, c) == Some(|a|)
  {
    if a != [] {
      IndexOfJoin(a[1..], c, b);
      assert (a + [c] + b)[1..] == a[1..] + [c] + b;
    }
  }

  /** The pieces of a `__str__` line "[time] sender: content": the time up to
      the first ']', the sender up to the first ':' after it. */
  datatype Line = Line(time: string, sender: string, content: string)

  function ParseLine(s: string): Option<Line> {
    if |s| == 0 || s[0] != '[' then None
    else match IndexOf(s[1..], ']')
      case None => None
      case Some(j) => ParseSender(s[1..][..j], s[1..][j + 1..])
  }

  /** The rest of a line after "[time]": " sender: content". */
  function ParseSender(time: string, rest: string): Option<Line> {
    if |rest| == 0 || rest[0] != ' ' then None
    else match IndexOf(rest[1..], ':')
      case None => None
      case Some(k) => ParseContent(time, rest[1..][..k], rest[1..][k + 1..])
  }

  function ParseContent(time: string, sender: string, tail: string): Option<Line> {
    if |tail| == 0 || tail[0] != ' ' then None else Some(Line(time, sender, tail[1..]))
  }

  class ChatMessage {
    const content: string
    const sender: string
    const platform: string
    const timestamp: Timestamp
    var metadata: Metadata

    /** `timestamp` stands for the clock reading taken at construction. */
    constructor (timestamp: Timestamp, content: string, sender: string, platform: string := DefaultPlatform)
      ensures this.content == content && this.sender == sender && this.platform == platform
      ensures this.timestamp == timestamp
      ensures metadata == map[]
    {
      this.content := content;
      this.sender := sender;
      this.platform := platform;
      this.timestamp := timestamp;
      this.metadata := map[];
    }

    function State(): MessageState
      reads this
    {
      MessageState(content, sender, platform, timestamp, metadata)
    }

    /** Sets one metadata key, overwriting an earlier value; content, sender,
        platform and timestamp are constants and so cannot change. */
    method AddMetadata(key: string, value: Value)
      modifies this
      ensures metadata == old(metadata)[key := value]
      ensures key in metadata && metadata[key] == value
      ensures forall k :: k != key ==> (k in metadata <==> k in old(metadata))
      ensures forall k :: k != key && k in metadata ==> metadata[k] == old(metadata)[k]
    {
      metadata := metadata[key := value];
    }

    /** The dictionary form: five keys, from which the current content, sender,
        platform, metadata and ISO timestamp read back unchanged. */
    function ToDict(): (d: map<string, Value>)
      reads this
      ensures d.Keys == DictKeys
      ensures FromDict(d) == Some(DictFields(content, sender, platform, timestamp.iso, metadata))
    {
      map["content" := Str(content), "sender" := Str(sender), "platform" := Str(platform),
          "timestamp" := Str(timestamp.iso), "metadata" := Dict(metadata)]
    }

    /** The line "[time] sender: content": it opens with the bracketed time and
        ends with the content. */
    function ToString(): (s: string)
      ensures |s| == |timestamp.display| + |sender| + |content| + 5
      ensures s[..|timestamp.display| + 3] == "[" + timestamp.display + "] "
      ensures s[|s| - |content|..] == content
      ensures s[|timestamp.display| + 3..|s| - |content|] == sender + ": "
    {
      "[" + timestamp.display + "] " + sender + ": " + content
    }
  }

  /** When the time has no ']' and the sender no ':', a `__str__` line reads
      back as its time, sender and content. */
  lemma ToStringRoundTrip(m: ChatMessage)
    requires ']' !in m.timestamp.display && ':' !in m.sender
    ensures ParseLine(m.ToString()) == Some(Line(m.timestamp.display, m.sender, m.content))
  {
    ParseRendered(m.timestamp.display, m.sender, m.content);
  }

  lemma ParseRendered(t: string, snd: string, c: string)
    requires ']' !in t && ':' !in snd
    ensures ParseLine("[" + t + "] " + snd + ": " + c) == Some(Line(t, snd, c))
  {
    var rest := " " + snd + ": " + c;
    var s := "[" + t + [']'] + rest;
    assert s == "[" + t + "] " + snd + ": " + c;
    assert s[1..] == t + [']'] + rest;
    IndexOfJoin(t, ']', rest);
    assert s[1..][|t| + 1..] == rest;
    assert s[1..][..|t|] == t;
    ParseSenderRendered(t, snd, c);
  }

  lemma ParseSenderRendered(t: string, snd: string, c: string)
    requires ':' !in snd
    ensures ParseSender(t, " " + snd + ": " + c) == Some(Line(t, snd, c))
  {
    var tail := " " + c;
    var rest := " " + snd + [':'] + tail;
    assert rest == " " + snd + ": " + c;
    assert rest[1..] == snd + [':'] + tail;
    IndexOfJoin(snd, ':', tail);
    assert rest[1..][|snd| + 1..] == tail;
    assert rest[1..][..|snd|] == snd;
  }
}
