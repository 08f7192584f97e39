/** Dump and LoadChain (markov/chain.go): the chain encoded as a JSON document with the
    fields `state_size` and `root_node`, each node with `children` and `occurences`
    (spelled as the source spells it). JSON is kept as an abstract value tree; the
    byte-level text that encoding/json reads and writes is not part of this model. */
module MarkovCodec {
  import opened MarkovTrie

  /** A JSON value. Numbers are integers: the chain only stores integers. */
  datatype Json =
    | JNull
    | JBool(b: bool)
    | JNum(num: int)
    | JStr(str: string)
    | JArr(items: seq<Json>)
    | JObj(fields: map<string, Json>)

  datatype DecodeError = WrongType(field: string) | Missing(field: string) | OutOfRange(field: string)

  datatype Result<T> = Ok(value: T) | Err(error: DecodeError)

  /** The value of a Chain: its state size and the trie below its root. */
  datatype ChainState = ChainState(stateSize: nat, root: Node)

  function EncodeNode(n: Node): Json
  {
    JObj(map[
      "children" := JObj(map k | k in n.children :: EncodeNode(n.children[k])),
      "occurences" := JNum(n.occurrences)])
  }

  /** Dump. */
  function EncodeChain(c: ChainState): Json
  {
    JObj(map["state_size" := JNum(c.stateSize), "root_node" := EncodeNode(c.root)])
  }

  /** An integer field; absent or null leaves Go's zero value. */
  function DecodeInt(fields: map<string, Json>, name: string): Result<int>
  {
    if name !in fields || fields[name] == JNull then Ok(0)
    else if fields[name].JNum? then Ok(fields[name].num)
    else Err(WrongType(name))
  }

  /** A node must be an object; an absent or null `children` reads as no children. */
  function DecodeNode(j: Json): Result<Node>
  {
    if !j.JObj? then Err(WrongType("root_node"))
    else
      var occ := DecodeInt(j.fields, "occurences");
      if occ.Err? then Err(occ.error)
      else if "children" !in j.fields || j.fields["children"] == JNull then Ok(Node(map[], occ.value))
      else if !j.fields["children"].JObj? then Err(WrongType("children"))
      else
        var cs := j.fields["children"].fields;
        if exists k | k in cs :: DecodeNode(cs[k]).Err? then Err(WrongType("children"))
        else Ok(Node(map k | k in cs :: DecodeNode(cs[k]).value, occ.value))
  }

  /** LoadChain. */
  function DecodeChain(j: Json): Result<ChainState>
  {
    match j
    case JObj(fields) =>
      var size := DecodeInt(fields, "state_size");
      if size.Err? then Err(size.error)
      else if size.value < 0 then Err(OutOfRange("state_size"))
      else if "root_node" !in fields || fields["root_node"] == JNull then Err(Missing("root_node"))
      else
        var root := DecodeNode(fields["root_node"]);
        if root.Err? then Err(root.error) else Ok(ChainState(size.value, root.value))
    case _ => Err(WrongType("chain"))
  }

  /** Decoding an encoded node gives back the same node: children, counts and placeholder
      nodes alike. */
  lemma {:induction false} NodeRoundTrip(n: Node)
    ensures DecodeNode(EncodeNode(n)) == Ok(n)
  {
    var j := EncodeNode(n);
    var cs := map k | k in n.children :: EncodeNode(n.children[k]);
    assert j.fields["children"] == JObj(cs);
    assert DecodeInt(j.fields, "occurences") == Ok(n.occurrences);
    forall k | k in cs ensures DecodeNode(cs[k]) == Ok(n.children[k]) {
      NodeRoundTrip(n.children[k]);
    }
    assert !exists k | k in cs :: DecodeNode(cs[k]).Err?;
    var decoded := map k | k in cs :: DecodeNode(cs[k]).value;
    assert decoded == n.children;
    assert DecodeNode(j) == Ok(Node(decoded, n.occurrences));
  }

  /** LoadChain(Dump(c)) restores the state size, the trie shape and every count. */
  lemma ChainRoundTrip(c: ChainState)
    ensures DecodeChain(EncodeChain(c)) == Ok(c)
  {
    NodeRoundTrip(c.root);
  }

  /** A document that is not a well-typed chain is rejected with an error. */
  lemma MalformedRejected(j: Json)
    requires || !j.JObj?
             || ("state_size" in j.fields && !j.fields["state_size"].JNull? && !j.fields["state_size"].JNum?)
             || ("root_node" in j.fields && j.fields["root_node"].JStr?)
    ensures DecodeChain(j).Err?
  {
  }

  /** Whether `path` leads from the node `j` down through its `children` objects. */
  predicate JsonPath(j: Json, path: seq<string>)
    decreases |path|
  {
    || path == []
    || (&& j.JObj? && "children" in j.fields && j.fields["children"].JObj?
        && path[0] in j.fields["children"].fields
        && JsonPath(j.fields["children"].fields[path[0]], path[1..]))
  }

  /** The node that `path` leads to below `j`. */
  function JsonAt(j: Json, path: seq<string>): Json
    requires JsonPath(j, path)
    decreases |path|
  {
    if path == [] then j else JsonAt(j.fields["children"].fields[path[0]], path[1..])
  }

  /** A node that does not decode, at any depth below `j`, makes `j` fail to decode. */
  lemma {:induction false} MalformedBelowRejected(j: Json, path: seq<string>)
    requires JsonPath(j, path) && DecodeNode(JsonAt(j, path)).Err?
    ensures DecodeNode(j).Err?
    decreases |path|
  {
    if path != [] {
      var cs := j.fields["children"].fields;
      MalformedBelowRejected(cs[path[0]], path[1..]);
      assert DecodeNode(cs[path[0]]).Err?;
    }
  }

  /** A node that does not decode, anywhere in the trie, makes the whole load fail. */
  lemma MalformedNodeFailsLoad(doc: Json, path: seq<string>)
    requires doc.JObj? && "root_node" in doc.fields
    requires JsonPath(doc.fields["root_node"], path) && DecodeNode(JsonAt(doc.fields["root_node"], path)).Err?
    ensures DecodeChain(doc).Err?
  {
    MalformedBelowRejected(doc.fields["root_node"], path);
  }

  /** A child whose count is given as a string makes its parent fail to decode. */
  lemma NestedMalformedRejected(j: Json, key: string)
    requires j.JObj? && "children" in j.fields && j.fields["children"].JObj?
    requires key in j.fields["children"].fields
    requires j.fields["children"].fields[key] == JObj(map["occurences" := JStr("1")])
    ensures DecodeNode(j).Err?
  {
    var cs := j.fields["children"].fields;
    assert DecodeNode(cs[key]).Err?;
  }
}
