/** `LogMessage`: the JSON text of an info-logging message. The messages
    rewriters log are arbitrary objects; `appendValue` renders maps,
    collections, strings, numbers and booleans as JSON and quotes anything
    else by its `toString`. The escaping of `JsonUtils.quoteAsString` is a
    parameter. */
module LogMessages {
  import opened Wrappers
  import opened Collections

  /** An object handed to the logger, as far as `appendValue` tells kinds
      apart. A map's entries and a collection's elements are in their
      iteration order; a number and an other object carry their
      `toString`. */
  datatype LogValue =
    | LNull
    | LMap(entries: seq<(string, LogValue)>)
    | LCollection(items: seq<LogValue>)
    | LString(s: string)
    | LNumber(text: string)
    | LBoolean(b: bool)
    | LOther(text: string)

  /** `JsonUtils.quoteAsString`: the escaped form of a string, without the
      surrounding quotes. */
  type Quote = string -> string

  /** The text `appendValue` appends for `v`. */
  function Json(v: LogValue, quote: Quote): string
    decreases v
  {
    match v
    case LNull => "null"
    case LMap(entries) => "{" + EntriesJson(entries, quote) + "}"
    case LCollection(items) => "[" + ItemsJson(items, quote) + "]"
    case LString(s) => "\"" + quote(s) + "\""
    case LNumber(text) => text
    case LBoolean(b) => if b then "true" else "false"
    case LOther(text) => "\"" + quote(text) + "\""
  }

  /** One map entry: the quoted key, a colon, the value. */
  function EntryJson(entry: (string, LogValue), quote: Quote): string
    decreases entry
  {
    "\"" + quote(entry.0) + "\":" + Json(entry.1, quote)
  }

  /** The entries as the loop appends them: a comma before every entry but
      the first. */
  function EntriesJson(entries: seq<(string, LogValue)>, quote: Quote): string
    decreases entries
  {
    if entries == [] then ""
    else
      EntriesJson(entries[..|entries| - 1], quote) + (if |entries| > 1 then "," else "")
      + EntryJson(entries[|entries| - 1], quote)
  }

  function ItemsJson(items: seq<LogValue>, quote: Quote): string
    decreases items
  {
    if items == [] then ""
    else
      ItemsJson(items[..|items| - 1], quote) + (if |items| > 1 then "," else "")
      + Json(items[|items| - 1], quote)
  }

  lemma EntriesJsonStep(entries: seq<(string, LogValue)>, i: nat, quote: Quote)
    requires i < |entries|
    ensures EntriesJson(entries[..i + 1], quote)
      == EntriesJson(entries[..i], quote) + (if i > 0 then "," else "") + EntryJson(entries[i], quote)
  {
    assert entries[..i + 1][..i] == entries[..i];
  }

  lemma ItemsJsonStep(items: seq<LogValue>, i: nat, quote: Quote)
    requires i < |items|
    ensures ItemsJson(items[..i + 1], quote)
      == ItemsJson(items[..i], quote) + (if i > 0 then "," else "") + Json(items[i], quote)
  {
    assert items[..i + 1][..i] == items[..i];
  }

  /** The parts separated by commas, with no comma before the first or
      after the last. */
  function Join(parts: seq<string>): string {
    if parts == [] then ""
    else if |parts| == 1 then parts[0]
    else parts[0] + "," + Join(parts[1..])
  }

  lemma {:induction false} JoinSnoc(parts: seq<string>, last: string)
    ensures Join(parts + [last]) == (if parts == [] then last else Join(parts) + "," + last)
  {
    if |parts| > 1 {
      assert (parts + [last])[1..] == parts[1..] + [last];
      JoinSnoc(parts[1..], last);
    } else if |parts| == 1 {
      assert (parts + [last])[1..] == [last];
    }
  }

  /** A map is rendered as its entries joined by commas inside braces, an
      empty map as `{}`. */
  lemma {:induction false} MapJsonJoined(entries: seq<(string, LogValue)>, quote: Quote)
    ensures Json(LMap(entries), quote)
      == "{" + Join(seq(|entries|, i requires 0 <= i < |entries| => EntryJson(entries[i], quote))) + "}"
    ensures entries == [] ==> Json(LMap(entries), quote) == "{}"
  {
    EntriesJoined(entries, quote);
  }

  lemma {:induction false} EntriesJoined(entries: seq<(string, LogValue)>, quote: Quote)
    ensures EntriesJson(entries, quote) == Join(seq(|entries|, i requires 0 <= i < |entries| => EntryJson(entries[i], quote)))
  {
    if entries != [] {
      var n := |entries| - 1;
      var init := entries[..n];
      EntriesJoined(init, quote);
      var parts := seq(|entries|, i requires 0 <= i < |entries| => EntryJson(entries[i], quote));
      assert parts == seq(|init|, i requires 0 <= i < |init| => EntryJson(init[i], quote)) + [EntryJson(entries[n], quote)];
      JoinSnoc(seq(|init|, i requires 0 <= i < |init| => EntryJson(init[i], quote)), EntryJson(entries[n], quote));
    }
  }

  /** A collection is rendered as its elements joined by commas inside
      brackets, an empty collection as `[]`. */
  lemma {:induction false} CollectionJsonJoined(items: seq<LogValue>, quote: Quote)
    ensures Json(LCollection(items), quote)
      == "[" + Join(seq(|items|, i requires 0 <= i < |items| => Json(items[i], quote))) + "]"
    ensures items == [] ==> Json(LCollection(items), quote) == "[]"
  {
    ItemsJoined(items, quote);
  }

  lemma {:induction false} ItemsJoined(items: seq<LogValue>, quote: Quote)
    ensures ItemsJson(items, quote) == Join(seq(|items|, i requires 0 <= i < |items| => Json(items[i], quote)))
  {
    if items != [] {
      var n := |items| - 1;
      var init := items[..n];
      ItemsJoined(init, quote);
      var parts := seq(|items|, i requires 0 <= i < |items| => Json(items[i], quote));
      assert parts == seq(|init|, i requires 0 <= i < |init| => Json(init[i], quote)) + [Json(items[n], quote)];
      JoinSnoc(seq(|init|, i requires 0 <= i < |init| => Json(init[i], quote)), Json(items[n], quote));
    }
  }

  /** The messages collected during a request: per rewriter id, in key
      order, the objects it logged, in logging order. */
  type Messages = seq<(string, seq<LogValue>)>

  /** The two kinds of log message, each with the logging spec's id. */
  datatype LogMessage =
    | RewriterIdLogMessage(id: Option<string>, messages: Messages)
    | DetailLogMessage(id: Option<string>, messages: Messages)

  /** The messages as the map object they are. */
  function MessagesValue(messages: Messages): LogValue {
    LMap(seq(|messages|, i requires 0 <= i < |messages| => (messages[i].0, LCollection(messages[i].1))))
  }

  /** The key set of the messages, as a collection of strings. */
  function KeysValue(messages: Messages): LogValue {
    LCollection(seq(|messages|, i requires 0 <= i < |messages| => LString(messages[i].0)))
  }

  /** `formatMessagesTo`: the rewriter ids only, or everything. */
  function Payload(msg: LogMessage): LogValue {
    match msg
    case RewriterIdLogMessage(_, messages) => KeysValue(messages)
    case DetailLogMessage(_, messages) => MessagesValue(messages)
  }

  /** The text of `formatTo`: the id when there is one, then the payload
      under `msg`. */
  function FormattedMessage(msg: LogMessage, quote: Quote): string {
    "{" + IdPart(msg.id, quote) + "\"msg\":" + Json(Payload(msg), quote) + "}"
  }

  /** The id member, with its trailing comma, when there is an id. */
  function IdPart(id: Option<string>, quote: Quote): string {
    if id.Some? then "\"id\":\"" + quote(id.value) + "\"," else ""
  }

  /** A rewriter id message lists the quoted ids, in key order. */
  lemma RewriterIdPayload(id: Option<string>, messages: Messages, quote: Quote)
    ensures Json(Payload(RewriterIdLogMessage(id, messages)), quote)
      == "[" + Join(seq(|messages|, i requires 0 <= i < |messages| => "\"" + quote(messages[i].0) + "\"")) + "]"
  {
    var items := KeysValue(messages).items;
    CollectionJsonJoined(items, quote);
    assert seq(|items|, i requires 0 <= i < |items| => Json(items[i], quote))
      == seq(|messages|, i requires 0 <= i < |messages| => "\"" + quote(messages[i].0) + "\"");
  }

  /** A detail message maps every id to the list of what it logged. */
  lemma DetailPayload(id: Option<string>, messages: Messages, quote: Quote)
    ensures Json(Payload(DetailLogMessage(id, messages)), quote)
      == "{" + Join(seq(|messages|, i requires 0 <= i < |messages| =>
                        "\"" + quote(messages[i].0) + "\":" + Json(LCollection(messages[i].1), quote))) + "}"
  {
    var entries := MessagesValue(messages).entries;
    MapJsonJoined(entries, quote);
    assert seq(|entries|, i requires 0 <= i < |entries| => EntryJson(entries[i], quote))
      == seq(|messages|, i requires 0 <= i < |messages| =>
               "\"" + quote(messages[i].0) + "\":" + Json(LCollection(messages[i].1), quote));
  }

  /** `StringBuilder`, of which only appending is used. */
  class StringBuilder {
    var text: string

    constructor ()
      ensures text == ""
    {
      text := "";
    }

    method Append(s: string)
      modifies this
      ensures text == old(text) + s
    {
      text := text + s;
    }
  }

  /** `appendValue(value, buffer)`. The loops over a map's entries and a
      collection's elements are the two methods after it. */
  method AppendValue(value: LogValue, buffer: StringBuilder, quote: Quote)
    modifies buffer
    ensures buffer.text == old(buffer.text) + Json(value, quote)
    decreases value, 1
  {
    match value
    case LNull =>
      buffer.Append("null");
    case LMap(entries) =>
      buffer.Append("{");
      AppendEntries(entries, buffer, quote);
      buffer.Append("}");
    case LCollection(items) =>
      buffer.Append("[");
      AppendItems(items, buffer, quote);
      buffer.Append("]");
    case LString(s) =>
      buffer.Append("\"" + quote(s) + "\"");
    case LNumber(text) =>
      buffer.Append(text);
    case LBoolean(b) =>
      buffer.Append(if b then "true" else "false");
    case LOther(text) =>
      buffer.Append("\"" + quote(text) + "\"");
  }

  /** The loop over a map's entries, with its `first` flag. */
  method AppendEntries(entries: seq<(string, LogValue)>, buffer: StringBuilder, quote: Quote)
    modifies buffer
    ensures buffer.text == old(buffer.text) + EntriesJson(entries, quote)
    decreases entries, 0
  {
    var first := true;
    for i := 0 to |entries|
      invariant buffer.text == old(buffer.text) + EntriesJson(entries[..i], quote)
      invariant first <==> i == 0
    {
      ghost var before := buffer.text;
      if first {
        first := false;
      } else {
        buffer.Append(",");
      }
      AppendEntry(entries[i], buffer, quote);
      EntriesJsonStep(entries, i, quote);
    }
    assert entries[..|entries|] == entries;
  }

  /** The body of that loop after the comma: the quoted key, a colon and
      the value. */
  method AppendEntry(entry: (string, LogValue), buffer: StringBuilder, quote: Quote)
    modifies buffer
    ensures buffer.text == old(buffer.text) + EntryJson(entry, quote)
    decreases entry, 0
  {
    buffer.Append("\"" + quote(entry.0) + "\":");
    AppendValue(entry.1, buffer, quote);
  }

  /** The loop over a collection's elements, with its `first` flag. */
  method AppendItems(items: seq<LogValue>, buffer: StringBuilder, quote: Quote)
    modifies buffer
    ensures buffer.text == old(buffer.text) + ItemsJson(items, quote)
    decreases items, 0
  {
    var first := true;
    for i := 0 to |items|
      invariant buffer.text == old(buffer.text) + ItemsJson(items[..i], quote)
      invariant first <==> i == 0
    {
      ghost var before := buffer.text;
      if first {
        first := false;
      } else {
        buffer.Append(",");
      }
      AppendValue(items[i], buffer, quote);
      ItemsJsonStep(items, i, quote);
    }
    assert items[..|items|] == items;
  }

  /** `formatMessagesTo(messages, buffer)`: the rewriter ids for a
      rewriter id message, all messages for a detail message. */
  method FormatMessagesTo(msg: LogMessage, buffer: StringBuilder, quote: Quote)
    modifies buffer
    ensures buffer.text == old(buffer.text) + Json(Payload(msg), quote)
  {
    match msg {
      case RewriterIdLogMessage(_, messages) =>
        AppendValue(KeysValue(messages), buffer, quote);
      case DetailLogMessage(_, messages) =>
        AppendValue(MessagesValue(messages), buffer, quote);
    }
  }

  lemma FormattedMessageAppended(before: string, msg: LogMessage, quote: Quote)
    ensures before + FormattedMessage(msg, quote)
      == before + "{" + IdPart(msg.id, quote) + "\"msg\":" + Json(Payload(msg), quote) + "}"
  {
    var a, b, c, d := "{", IdPart(msg.id, quote), "\"msg\":", Json(Payload(msg), quote);
    Associative(before, a + b + c + d, "}");
    Associative(before, a + b + c, d);
    Associative(before, a + b, c);
    Associative(before, a, b);
  }

  /** `formatTo(buffer)`. */
  method FormatTo(msg: LogMessage, buffer: StringBuilder, quote: Quote)
    modifies buffer
    ensures buffer.text == old(buffer.text) + FormattedMessage(msg, quote)
  {
    buffer.Append("{");
    if msg.id.Some? {
      buffer.Append(IdPart(msg.id, quote));
    }
    buffer.Append("\"msg\":");
    FormatMessagesTo(msg, buffer, quote);
    buffer.Append("}");
    FormattedMessageAppended(old(buffer.text), msg, quote);
  }

  /** `getFormattedMessage()`: what `formatTo` appends to an empty
      buffer. */
  method GetFormattedMessage(msg: LogMessage, quote: Quote) returns (text: string)
    ensures text == FormattedMessage(msg, quote)
  {
    var buffer := new StringBuilder();
    FormatTo(msg, buffer, quote);
    text := buffer.text;
  }
}
