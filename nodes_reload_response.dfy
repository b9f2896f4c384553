/** `NodesReloadRewriterResponse`: the answer of every node to a reload
    request, with the exception a node's reload threw, if any. Exceptions
    do not implement `equals`, so equality and hashing go by message. */
module NodesReloadResponses {
  import opened Wrappers
  import opened JavaLang
  import opened Values
  import opened Streams

  /** The node a response comes from: its id and its name. */
  datatype DiscoveryNode = DiscoveryNode(id: string, name: string)

  /** An exception, of which only the message (possibly `null`) is used. */
  datatype ReloadException = ReloadException(message: Option<string>)

  /** `NodeResponse`: the node and the exception its reload threw, `None`
      for success. */
  datatype NodeResponse = NodeResponse(node: DiscoveryNode, reloadException: Option<ReloadException>)

  /** `NodeResponse.equals`. */
  predicate NodeEquals(a: NodeResponse, b: NodeResponse) {
    if a.reloadException.None? then b.reloadException.None?
    else if b.reloadException.None? then false
    else a.reloadException.value.message == b.reloadException.value.message
  }

  /** `NodeResponse.hashCode`: the message's hash, 0 without exception or
      message. */
  function NodeHash(a: NodeResponse): int {
    if a.reloadException.Some? && a.reloadException.value.message.Some?
    then StringHash(a.reloadException.value.message.value)
    else 0
  }

  /** Node responses are equal exactly when neither has an exception, or
      both have one with the same message; which node answered is not
      compared. */
  lemma NodeEqualsCharacterised(a: NodeResponse, b: NodeResponse)
    ensures NodeEquals(a, b) <==>
      (a.reloadException.None? && b.reloadException.None?)
      || (a.reloadException.Some? && b.reloadException.Some?
          && a.reloadException.value.message == b.reloadException.value.message)
    ensures NodeEquals(a, b) <==> NodeEquals(a.(node := b.node), b)
  {
  }

  /** `equals` is an equivalence and `hashCode` agrees with it. */
  lemma NodeEqualsConsistent(a: NodeResponse, b: NodeResponse, c: NodeResponse)
    ensures NodeEquals(a, a)
    ensures NodeEquals(a, b) ==> NodeEquals(b, a)
    ensures NodeEquals(a, b) && NodeEquals(b, c) ==> NodeEquals(a, c)
    ensures NodeEquals(a, b) ==> NodeHash(a) == NodeHash(b)
  {
  }

  /** `NodeResponse.writeTo` after the node's own part: a presence flag,
      then the exception. */
  function WriteNodeResponse(a: NodeResponse): Stream {
    if a.reloadException.Some? then WriteBoolean(true) + WriteException(a.reloadException.value.message)
    else WriteBoolean(false)
  }

  /** `new NodeResponse(in)` after the node's own part. */
  function ReadReloadException(st: Stream): Option<(Option<ReloadException>, Stream)> {
    var (present, st1) :- ReadBoolean(st);
    if !present then Some((None, st1))
    else
      var (message, st2) :- ReadException(st1);
      Some((Some(ReloadException(message)), st2))
  }

  /** Reading restores whether there was an exception and its message, so
      the response read back equals the one written. */
  lemma NodeStreamRoundTrip(a: NodeResponse, rest: Stream)
    ensures ReadReloadException(WriteNodeResponse(a) + rest) == Some((a.reloadException, rest))
    ensures NodeEquals(NodeResponse(a.node, ReadReloadException(WriteNodeResponse(a) + rest).value.0), a)
  {
    if a.reloadException.Some? {
      var e := WriteException(a.reloadException.value.message);
      assert WriteNodeResponse(a) + rest == WriteBoolean(true) + (e + rest);
      BooleanRoundTrip(true, e + rest);
      ExceptionRoundTrip(a.reloadException.value.message, rest);
    } else {
      BooleanRoundTrip(false, rest);
    }
  }

  /** `NodesReloadRewriterResponse`: the cluster name, the node responses
      and the failed nodes (of which only the number matters here), `None`
      for a `null` list. */
  datatype Response = Response(clusterName: string, nodes: seq<NodeResponse>, failures: Option<seq<string>>)

  /** `List.equals` on node responses: the same length and equal elements
      pairwise. */
  predicate NodesEqual(a: seq<NodeResponse>, b: seq<NodeResponse>) {
    |a| == |b| && forall i :: 0 <= i < |a| ==> NodeEquals(a[i], b[i])
  }

  /** `NodesReloadRewriterResponse.equals`: failure lists are compared
      only by being `null` and by size. */
  predicate ResponseEquals(a: Response, b: Response) {
    && (a.failures.None? == b.failures.None?)
    && (a.failures.Some? ==> |a.failures.value| == |b.failures.value|)
    && a.clusterName == b.clusterName
    && NodesEqual(a.nodes, b.nodes)
  }

  /** `List.hashCode`: `h = 31 * h + e.hashCode()` from 1, in `int`
      arithmetic. */
  function NodesHash(nodes: seq<NodeResponse>): int {
    if nodes == [] then 1 else WrapInt32(31 * NodesHash(nodes[..|nodes| - 1]) + NodeHash(nodes[|nodes| - 1]))
  }

  /** `hashCode`, that is `Objects.hash(getNodes())`. */
  function ResponseHash(a: Response): int {
    WrapInt32(31 + NodesHash(a.nodes))
  }

  lemma {:induction false} NodesHashConsistent(a: seq<NodeResponse>, b: seq<NodeResponse>)
    requires NodesEqual(a, b)
    ensures NodesHash(a) == NodesHash(b)
  {
    if a != [] {
      var n := |a| - 1;
      assert NodesEqual(a[..n], b[..n]);
      NodesHashConsistent(a[..n], b[..n]);
      NodeEqualsConsistent(a[n], b[n], b[n]);
    }
  }

  /** Whatever the failures contain, responses that differ only there are
      equal when the lists have the same size; and equal responses have
      equal hashes. */
  lemma ResponseEqualsConsistent(a: Response, b: Response)
    ensures ResponseEquals(a, b) ==> ResponseHash(a) == ResponseHash(b)
    ensures a.failures.Some? && b.failures.Some? && |a.failures.value| == |b.failures.value| ==>
      (ResponseEquals(a, b) <==> ResponseEquals(a.(failures := b.failures), b))
    ensures a.failures.None? != b.failures.None? ==> !ResponseEquals(a, b)
  {
    if ResponseEquals(a, b) {
      NodesHashConsistent(a.nodes, b.nodes);
    }
  }

  /** The object `toXContent` writes for one node: `name`, then
      `reload_exception` when there is one. The exception's own rendering
      (`generateThrowableXContent`) is a parameter. */
  function NodeXContent(a: NodeResponse, throwableXContent: ReloadException -> Value): seq<(string, Value)> {
    [("name", Str(a.node.name))]
    + (if a.reloadException.Some? then [("reload_exception", throwableXContent(a.reloadException.value))] else [])
  }

  /** `toXContent`: the entries of the `nodes` object, one per node
      response in list order, keyed by node id. */
  function ToXContent(r: Response, throwableXContent: ReloadException -> Value): (entries: seq<(string, seq<(string, Value)>)>)
    ensures |entries| == |r.nodes|
    ensures forall i :: 0 <= i < |entries| ==>
      && entries[i].0 == r.nodes[i].node.id
      && |entries[i].1| == (if r.nodes[i].reloadException.Some? then 2 else 1)
      && entries[i].1[0] == ("name", Str(r.nodes[i].node.name))
      && (r.nodes[i].reloadException.Some? ==>
            entries[i].1[1] == ("reload_exception", throwableXContent(r.nodes[i].reloadException.value)))
  {
    seq(|r.nodes|, i requires 0 <= i < |r.nodes| => (r.nodes[i].node.id, NodeXContent(r.nodes[i], throwableXContent)))
  }
}
