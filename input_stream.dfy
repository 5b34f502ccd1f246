/** The NDJSON input builder (rust/src/streaming/input_stream.rs): messages collected for a tool's standard input. */
module InputStream {
  import opened Wrappers
  import opened Json
  import opened Ndjson
  import Utf8

  /** `json!({"type": "user_prompt", "content": content})`. */
  function PromptMessage(content: string): (r: Json)
    ensures r.HasType("user_prompt") && r.GetStr("content") == Some(content)
  {
    TypedContent("user_prompt", content)
  }

  /** `json!({"type": "system", "content": content})`. */
  function SystemMessage(content: string): (r: Json)
    ensures r.HasType("system") && r.GetStr("content") == Some(content)
  {
    TypedContent("system", content)
  }

  /**
   * The message `add_config` builds: `{"type": "config"}` with every member
   * of an object `config` inserted, so a `type` in the configuration
   * overrides the default; a non-object configuration adds nothing.
   */
  function ConfigMessage(config: Json): (r: Json)
    ensures r.Obj? && !r.Null?
    ensures !config.Obj? ==> r == Obj([("type", Str("config"))])
  {
    Obj(if config.Obj? then InsertAll([("type", Str("config"))], config.members) else [("type", Str("config"))])
  }

  /** Each key of the configuration keeps its value; the type is `config` unless the configuration sets one. */
  lemma ConfigMessageKeys(config: Json, key: string)
    requires config.Obj? && DistinctKeys(config.members)
    ensures ConfigMessage(config).Get(key) ==
      if HasKey(config.members, key) then config.Get(key)
      else if key == "type" then Some(Str("config")) else None
  {
    LookupInsertAll([("type", Str("config"))], config.members, key);
    var base := [("type", Str("config"))];
    assert Lookup(base, key) == if key == "type" then Some(Str("config")) else Lookup(base[1..], key);
    var m := ConfigMessage(config).members;
    assert ConfigMessage(config).Get(key) == Lookup(m, key);
  }

  /** `JsonInputStream`: the rendering options and the messages added so far. */
  class JsonInputStream {
    const codec: Codec
    const compact: bool
    var messages: seq<Json>

    /** `JsonInputStream::new(compact)`. */
    constructor (codec: Codec, compact: bool)
      ensures this.codec == codec && this.compact == compact && messages == []
    {
      this.codec := codec;
      this.compact := compact;
      messages := [];
    }

    /** `JsonInputStream::default()`: compact rendering. */
    constructor Default(codec: Codec)
      ensures this.codec == codec && compact && messages == []
    {
      this.codec := codec;
      compact := true;
      messages := [];
    }

    /** `from_messages`: the messages are taken as they are, `null`s included. */
    constructor FromMessages(codec: Codec, messages: seq<Json>, compact: bool)
      ensures this.codec == codec && this.compact == compact && this.messages == messages
    {
      this.codec := codec;
      this.compact := compact;
      this.messages := messages;
    }

    /** `add`: a `null` message is ignored, anything else is appended. */
    method Add(message: Json)
      modifies this
      ensures messages == if message.Null? then old(messages) else old(messages) + [message]
    {
      if !message.Null? {
        messages := messages + [message];
      }
    }

    /** `add_prompt`. */
    method AddPrompt(content: string)
      modifies this
      ensures messages == old(messages) + [PromptMessage(content)]
    {
      Add(PromptMessage(content));
    }

    /** `add_system_message`. */
    method AddSystemMessage(content: string)
      modifies this
      ensures messages == old(messages) + [SystemMessage(content)]
    {
      Add(SystemMessage(content));
    }

    /** `add_config`. */
    method AddConfig(config: Json)
      modifies this
      ensures messages == old(messages) + [ConfigMessage(config)]
    {
      Add(ConfigMessage(config));
    }

    /** `clear`. */
    method Clear()
      modifies this
      ensures messages == []
    {
      messages := [];
    }

    /** `size`. */
    function Size(): nat
      reads this
    {
      |messages|
    }

    /** `get_messages`. */
    function GetMessages(): seq<Json>
      reads this
    {
      messages
    }

    /** `to_string`: one NDJSON line per non-null message, in order. */
    function ToString(): string
      reads this
    {
      StringifyAll(codec, messages, compact)
    }

    /** `to_bytes`: the rendered text in UTF-8; decoding the bytes gives the text back. */
    function ToBytes(): (r: seq<Utf8.byte>)
      reads this
      ensures Utf8.Decode(r) == Some(ToString())
      ensures |r| >= |ToString()|
    {
      Utf8.DecodeEncode(ToString());
      Utf8.Encode(ToString())
    }
  }

  /**
   * The builder's output reads back: when the stream renders compactly and
   * the codec round-trips each message, parsing `to_string` gives the
   * messages.
   */
  lemma ToStringReadsBack(s: JsonInputStream)
    requires s.compact
    requires forall i | 0 <= i < |s.messages| :: CompactLineRoundTrips(s.codec, s.messages[i])
    ensures ParseAll(s.codec, s.ToString()) == s.messages
  {
    ParseAllStringifyAll(s.codec, s.messages);
  }

  /** A system message then a prompt render as exactly those two lines, in that order. */
  method SystemThenPrompt(codec: Codec, system: string, prompt: string) returns (text: string, size: nat)
    ensures size == 2
    ensures text == StringifyLine(codec, SystemMessage(system), true) + StringifyLine(codec, PromptMessage(prompt), true)
  {
    var s := new JsonInputStream(codec, true);
    s.AddSystemMessage(system);
    s.AddPrompt(prompt);
    text := s.ToString();
    size := s.Size();
    var a, b := SystemMessage(system), PromptMessage(prompt);
    assert s.messages == [a, b];
    assert [a, b][..1] == [a] && [a][..0] == [];
    assert StringifyAll(codec, [a], true) == StringifyLine(codec, a, true);
  }
}
