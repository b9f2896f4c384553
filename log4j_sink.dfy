/** `Log4jSink`: collects what rewriters log during a request, per
    rewriter id in the request context, and at the end of the request
    writes one log event whose content the logging spec's payload type
    selects. */
module Log4jSinks {
  import opened Wrappers
  import opened JavaLang
  import opened InfoLoggingSpecs
  import opened LogMessages

  /** The `TreeMap` of a request's messages, as its entries in key order. */
  predicate SortedKeys(m: Messages) {
    forall i, j :: 0 <= i < j < |m| ==> Less(m[i].0, m[j].0)
  }

  /** What the entries map each rewriter id to. */
  function AsMap(m: Messages): map<string, seq<LogValue>> {
    if m == [] then map[] else AsMap(m[1..])[m[0].0 := m[0].1]
  }

  lemma {:induction false} AsMapKeys(m: Messages)
    ensures forall k :: k in AsMap(m) <==> exists i :: 0 <= i < |m| && m[i].0 == k
  {
    if m != [] {
      AsMapKeys(m[1..]);
      forall k | k in AsMap(m) ensures exists i :: 0 <= i < |m| && m[i].0 == k {
        if k != m[0].0 {
          assert k in AsMap(m[1..]);
          var i :| 0 <= i < |m[1..]| && m[1..][i].0 == k;
          assert m[i + 1].0 == k;
        }
      }
      forall k | exists i :: 0 <= i < |m| && m[i].0 == k ensures k in AsMap(m) {
        var i :| 0 <= i < |m| && m[i].0 == k;
        if i > 0 {
          assert m[1..][i - 1].0 == k;
        }
      }
    }
  }

  /** `messages.computeIfAbsent(rewriterId, key -> new ArrayList<>()).add(message)`
      on the sorted map. */
  function Logged(m: Messages, rewriterId: string, message: LogValue): (r: Messages)
    ensures forall i :: 0 <= i < |r| ==> r[i].0 == rewriterId || exists j :: 0 <= j < |m| && m[j].0 == r[i].0
  {
    if m == [] then [(rewriterId, [message])]
    else if m[0].0 == rewriterId then [(rewriterId, m[0].1 + [message])] + m[1..]
    else if Less(rewriterId, m[0].0) then [(rewriterId, [message])] + m
    else
      var rest := Logged(m[1..], rewriterId, message);
      assert forall i :: 0 <= i < |rest| ==> rest[i].0 == rewriterId || exists j :: 0 <= j < |m| && m[j].0 == rest[i].0 by {
        forall i | 0 <= i < |rest| && rest[i].0 != rewriterId
          ensures exists j :: 0 <= j < |m| && m[j].0 == rest[i].0
        {
          var j :| 0 <= j < |m[1..]| && m[1..][j].0 == rest[i].0;
          assert m[j + 1].0 == rest[i].0;
        }
      }
      [m[0]] + rest
  }

  /** Logging keeps the map sorted. */
  lemma {:induction false} LoggedSorted(m: Messages, rewriterId: string, message: LogValue)
    requires SortedKeys(m)
    ensures SortedKeys(Logged(m, rewriterId, message))
  {
    if m != [] && m[0].0 != rewriterId {
      if Less(rewriterId, m[0].0) {
        forall j | 0 < j < |m| ensures Less(rewriterId, m[j].0) {
          LessTransitive(rewriterId, m[0].0, m[j].0);
        }
      } else {
        LessTotal(rewriterId, m[0].0);
        LoggedSorted(m[1..], rewriterId, message);
        var rest := Logged(m[1..], rewriterId, message);
        forall i | 0 <= i < |rest| ensures Less(m[0].0, rest[i].0) {
          if rest[i].0 != rewriterId {
            var j :| 0 <= j < |m[1..]| && m[1..][j].0 == rest[i].0;
            assert m[j + 1].0 == rest[i].0;
          }
        }
      }
    }
  }

  /** The list a rewriter id has logged so far, empty when none. */
  function Prior(m: Messages, rewriterId: string): seq<LogValue> {
    if rewriterId in AsMap(m) then AsMap(m)[rewriterId] else []
  }

  /** Logging appends the message to the end of the rewriter's list, which
      is created when the rewriter has logged nothing yet; the lists of the
      other rewriters stay as they are. */
  lemma {:induction false} LoggedContents(m: Messages, rewriterId: string, message: LogValue)
    requires SortedKeys(m)
    ensures AsMap(Logged(m, rewriterId, message)) == AsMap(m)[rewriterId := Prior(m, rewriterId) + [message]]
  {
    if m == [] {
      assert [(rewriterId, [message])][1..] == [];
      assert Prior(m, rewriterId) + [message] == [message];
    } else if m[0].0 == rewriterId {
      LoggedIntoFirst(m, rewriterId, message);
    } else if Less(rewriterId, m[0].0) {
      LoggedBeforeFirst(m, rewriterId, message);
    } else {
      LoggedContents(m[1..], rewriterId, message);
      LoggedAfterFirst(m, rewriterId, message);
    }
  }

  lemma LoggedIntoFirst(m: Messages, rewriterId: string, message: LogValue)
    requires m != [] && m[0].0 == rewriterId
    ensures AsMap(Logged(m, rewriterId, message)) == AsMap(m)[rewriterId := Prior(m, rewriterId) + [message]]
  {
    assert ([(rewriterId, m[0].1 + [message])] + m[1..])[1..] == m[1..];
    assert AsMap(m) == AsMap(m[1..])[rewriterId := m[0].1];
  }

  lemma LoggedBeforeFirst(m: Messages, rewriterId: string, message: LogValue)
    requires SortedKeys(m)
    requires m != [] && Less(rewriterId, m[0].0)
    ensures AsMap(Logged(m, rewriterId, message)) == AsMap(m)[rewriterId := Prior(m, rewriterId) + [message]]
  {
    assert ([(rewriterId, [message])] + m)[1..] == m;
    AsMapKeys(m);
    forall i | 0 <= i < |m| ensures m[i].0 != rewriterId {
      if i > 0 {
        LessTransitive(rewriterId, m[0].0, m[i].0);
      }
      LessIrreflexive(rewriterId);
    }
    assert Prior(m, rewriterId) + [message] == [message];
  }

  lemma LoggedAfterFirst(m: Messages, rewriterId: string, message: LogValue)
    requires m != [] && m[0].0 != rewriterId && !Less(rewriterId, m[0].0)
    requires AsMap(Logged(m[1..], rewriterId, message))
      == AsMap(m[1..])[rewriterId := Prior(m[1..], rewriterId) + [message]]
    ensures AsMap(Logged(m, rewriterId, message)) == AsMap(m)[rewriterId := Prior(m, rewriterId) + [message]]
  {
    var rest := Logged(m[1..], rewriterId, message);
    assert ([m[0]] + rest)[1..] == rest;
    assert AsMap(Logged(m, rewriterId, message)) == AsMap(rest)[m[0].0 := m[0].1];
    assert Prior(m, rewriterId) == Prior(m[1..], rewriterId);
  }

  /** Log4j's markers; both have the parent marker `QUERQY`. */
  datatype Marker = Marker(name: string)

  const MARKER_QUERQY_REWRITER_ID := Marker("REWRITER_ID")
  const MARKER_QUERQY_REWRITER_DETAIL := Marker("DETAIL")

  /** A call of `logger.info(marker, message)`. */
  datatype LogEvent = LogEvent(marker: Marker, message: LogMessage)

  /** What the request adapter offers: it may not provide logging specs at
      all, or provide one or none. */
  datatype SpecSource = NotASpecProvider | SpecProvider(spec: Option<SpecState>)

  /** `DEFAULT_SPEC`, a new `InfoLoggingSpec`. */
  const DEFAULT_SPEC := SpecState(None, NONE, None)

  /** `endOfRequest`: the event written, if any. */
  function EndOfRequest(messages: Option<Messages>, source: SpecSource): (event: Option<LogEvent>)
    ensures var spec := if source.SpecProvider? && source.spec.Some? then source.spec.value else DEFAULT_SPEC;
      && (event.Some? <==>
            messages.Some? && messages.value != [] && source.SpecProvider? && spec.payloadType != NONE)
      && (event.Some? && spec.payloadType == REWRITER_ID ==>
            event.value == LogEvent(MARKER_QUERQY_REWRITER_ID, RewriterIdLogMessage(spec.id, messages.value)))
      && (event.Some? && spec.payloadType == DETAIL ==>
            event.value == LogEvent(MARKER_QUERQY_REWRITER_DETAIL, DetailLogMessage(spec.id, messages.value)))
  {
    if messages.None? || messages.value == [] then None
    else
      match source
      case NotASpecProvider => None
      case SpecProvider(optionalSpec) =>
        var spec := if optionalSpec.Some? then optionalSpec.value else DEFAULT_SPEC;
        match spec.payloadType
        case REWRITER_ID => Some(LogEvent(MARKER_QUERQY_REWRITER_ID, RewriterIdLogMessage(spec.id, messages.value)))
        case DETAIL => Some(LogEvent(MARKER_QUERQY_REWRITER_DETAIL, DetailLogMessage(spec.id, messages.value)))
        case NONE => None
  }

  /** A request whose adapter provides no spec logs nothing: the default
      spec's payload type is `NONE`. */
  lemma MissingSpecLogsNothing(messages: Option<Messages>)
    ensures EndOfRequest(messages, SpecProvider(None)) == None
    ensures EndOfRequest(messages, NotASpecProvider) == None
  {
  }

  /** The part of `SearchEngineRequestAdapter` the sink uses: the messages
      under the sink's key in the request context (`None` before the first
      message), and the logging spec. */
  class RequestAdapter {
    var messages: Option<Messages>
    const specSource: SpecSource

    ghost predicate Valid()
      reads this
    {
      messages.Some? ==> SortedKeys(messages.value)
    }

    /** A new request: nothing logged yet. */
    constructor (specSource: SpecSource)
      ensures Valid()
      ensures messages == None && this.specSource == specSource
    {
      messages := None;
      this.specSource := specSource;
    }
  }

  /** The messages so far, an empty map before the first. */
  function Collected(messages: Option<Messages>): Messages {
    if messages.Some? then messages.value else []
  }

  /** `log(message, rewriterId, adapter)`. */
  method Log(message: LogValue, rewriterId: string, adapter: RequestAdapter)
    requires adapter.Valid()
    modifies adapter
    ensures adapter.Valid()
    ensures adapter.messages == Some(Logged(Collected(old(adapter.messages)), rewriterId, message))
  {
    var messages := if adapter.messages.Some? then adapter.messages.value else [];
    LoggedSorted(messages, rewriterId, message);
    adapter.messages := Some(Logged(messages, rewriterId, message));
  }

  /** After a message was logged, a request whose spec asks for rewriter
      ids writes one event that lists every rewriter that logged, in
      sorted order. */
  lemma LoggedRequestWritesIds(messages: Option<Messages>, rewriterId: string, message: LogValue, spec: SpecState)
    requires messages.Some? ==> SortedKeys(messages.value)
    requires spec.payloadType == REWRITER_ID
    ensures var after := Logged(Collected(messages), rewriterId, message);
      && EndOfRequest(Some(after), SpecProvider(Some(spec)))
           == Some(LogEvent(MARKER_QUERQY_REWRITER_ID, RewriterIdLogMessage(spec.id, after)))
      && SortedKeys(after)
      && rewriterId in AsMap(after)
  {
    var after := Logged(Collected(messages), rewriterId, message);
    LoggedSorted(Collected(messages), rewriterId, message);
    LoggedContents(Collected(messages), rewriterId, message);
  }
}
