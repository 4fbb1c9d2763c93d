/** The graph document: built by the graph builder, loaded by the engine. */
module GraphDocuments {
  import opened Graphs
  import opened Json
  import opened Kinds

  // ----- what a builder session declares -----

  datatype Retry = Retry(count: nat, backoff: nat, condition: Option<string>, delay: Option<string>)

  datatype Body =
    | Module(id: nat, config: Option<Json>)
    | System(kind: Kind)

  datatype NodeSpec = NodeSpec(id: string, body: Body, skip: Option<string>, continues: bool, retry: Option<Retry>)

  datatype EdgeSpec = EdgeSpec(source: string, target: string, sourceHandle: string, targetHandle: string,
                               condition: Option<string>)

  function Field(key: string, o: Option<Json>): map<string, Json> {
    if o.Some? then map[key := o.value] else map[]
  }

  function TextOf(o: Option<string>): Option<Json> {
    if o.Some? then Some(Text(o.value)) else None
  }

  function RetryFields(r: Option<Retry>): map<string, Json> {
    if r.None? then map[]
    else
      map["retry_count" := Whole(r.value.count), "retry_backoff_ms" := Whole(r.value.backoff)]
      + Field("retry_condition", TextOf(r.value.condition))
      + Field("retry_delay_expression", TextOf(r.value.delay))
  }

  function BaseFields(c: Uuids, id: string, b: Body): map<string, Json> {
    match b
    case Module(u, config) => map["id" := Text(id), "type" := Text(c.print_(u))] + Field("data", config)
    case System(k) =>
      map["id" := Text(id), "type" := Text("system:" + Name(TagFor(k))), "kind" := Text(Name(TagFor(k))),
          "data" := Data(c, k)]
  }

  function FlagFields(skip: Option<string>, continues: bool): map<string, Json> {
    Field("skip_condition", TextOf(skip)) + Field("continue_on_error", if continues then Some(Bool(true)) else None)
  }

  function NodeJson(c: Uuids, s: NodeSpec): (j: Json)
    ensures j.Object?
  {
    Object(BaseFields(c, s.id, s.body) + FlagFields(s.skip, s.continues) + RetryFields(s.retry))
  }

  function EdgeJson(e: EdgeSpec): Json {
    Object(map["source" := Text(e.source), "target" := Text(e.target),
               "sourceHandle" := Text(e.sourceHandle), "targetHandle" := Text(e.targetHandle)]
           + Field("condition", TextOf(e.condition)))
  }

  // ----- fields of nodes -----

  lemma PutRight<K, V>(a: map<K, V>, b: map<K, V>, k: K, v: V)
    ensures (a + b)[k := v] == a + b[k := v]
  {
  }

  lemma PutLeft<K, V>(a: map<K, V>, b: map<K, V>, k: K, v: V)
    requires k !in b
    ensures (a + b)[k := v] == a[k := v] + b
  {
  }

  lemma RetryKeys(r: Option<Retry>)
    ensures RetryFields(r).Keys <= {"retry_count", "retry_backoff_ms", "retry_condition", "retry_delay_expression"}
  {
  }

  lemma FlagKeys(skip: Option<string>, continues: bool)
    ensures FlagFields(skip, continues).Keys <= {"skip_condition", "continue_on_error"}
  {
  }

  lemma BaseKeys(c: Uuids, id: string, b: Body)
    ensures BaseFields(c, id, b).Keys <= {"id", "type", "kind", "data"}
  {
  }

  lemma PutSkip(c: Uuids, s: NodeSpec, condition: string)
    ensures Object(NodeJson(c, s).fields["skip_condition" := Text(condition)])
            == NodeJson(c, s.(skip := Some(condition)))
  {
    var base, flags, retry := BaseFields(c, s.id, s.body), FlagFields(s.skip, s.continues), RetryFields(s.retry);
    var rest := Field("continue_on_error", if s.continues then Some(Bool(true)) else None);
    assert Field("skip_condition", TextOf(s.skip))["skip_condition" := Text(condition)]
        == Field("skip_condition", TextOf(Some(condition)));
    RetryKeys(s.retry);
    hide BaseFields, RetryFields, Field;
    PutLeft(base + flags, retry, "skip_condition", Text(condition));
    PutRight(base, flags, "skip_condition", Text(condition));
    NotContinue(s.continues);
    PutLeft(Field("skip_condition", TextOf(s.skip)), rest, "skip_condition", Text(condition));
  }

  lemma NotContinue(continues: bool)
    ensures "skip_condition" !in Field("continue_on_error", if continues then Some(Bool(true)) else None)
  {
  }

  lemma PutContinue(c: Uuids, s: NodeSpec)
    ensures Object(NodeJson(c, s).fields["continue_on_error" := Bool(true)]) == NodeJson(c, s.(continues := true))
  {
    var base, flags, retry := BaseFields(c, s.id, s.body), FlagFields(s.skip, s.continues), RetryFields(s.retry);
    var last := Field("continue_on_error", if s.continues then Some(Bool(true)) else None);
    assert last["continue_on_error" := Bool(true)] == Field("continue_on_error", Some(Bool(true)));
    RetryKeys(s.retry);
    hide BaseFields, RetryFields, Field;
    PutLeft(base + flags, retry, "continue_on_error", Bool(true));
    PutRight(base, flags, "continue_on_error", Bool(true));
    PutRight(Field("skip_condition", TextOf(s.skip)), last, "continue_on_error", Bool(true));
  }

  /** What `with_retry` writes into the retry fields. */
  function PutRetryFields(f: map<string, Json>, count: nat, backoff: nat, condition: Option<string>,
                          delay: Option<string>): map<string, Json> {
    var counted := f["retry_count" := Whole(count)]["retry_backoff_ms" := Whole(backoff)];
    var conditioned := if condition.Some? then counted["retry_condition" := Text(condition.value)] else counted;
    if delay.Some? then conditioned["retry_delay_expression" := Text(delay.value)] else conditioned
  }

  lemma PutRetry(c: Uuids, s: NodeSpec, count: nat, backoff: nat, condition: Option<string>, delay: Option<string>)
    ensures Object(PutRetryFields(NodeJson(c, s).fields, count, backoff, condition, delay))
         == NodeJson(c, s.(retry := Some(Redeclare(s.retry, count, backoff, condition, delay))))
  {
    var before, retry := BaseFields(c, s.id, s.body) + FlagFields(s.skip, s.continues), RetryFields(s.retry);
    hide BaseFields, FlagFields, RetryFields, Redeclare, PutRetryFields;
    PutRetryOnly(s.retry, count, backoff, condition, delay);
    PutRetryRight(before, retry, count, backoff, condition, delay);
  }

  lemma PutRetryRight(a: map<string, Json>, b: map<string, Json>, count: nat, backoff: nat,
                      condition: Option<string>, delay: Option<string>)
    ensures PutRetryFields(a + b, count, backoff, condition, delay)
            == a + PutRetryFields(b, count, backoff, condition, delay)
  {
    var counted := b["retry_count" := Whole(count)];
    var both := counted["retry_backoff_ms" := Whole(backoff)];
    PutRight(a, b, "retry_count", Whole(count));
    PutRight(a, counted, "retry_backoff_ms", Whole(backoff));
    var conditioned := if condition.Some? then both["retry_condition" := Text(condition.value)] else both;
    if condition.Some? { PutRight(a, both, "retry_condition", Text(condition.value)); }
    if delay.Some? { PutRight(a, conditioned, "retry_delay_expression", Text(delay.value)); }
  }

  lemma PutRetryOnly(r: Option<Retry>, count: nat, backoff: nat, condition: Option<string>, delay: Option<string>)
    ensures PutRetryFields(RetryFields(r), count, backoff, condition, delay)
         == RetryFields(Some(Redeclare(r, count, backoff, condition, delay)))
  {
    match r
    case None => PutFirstRetry(count, backoff, condition, delay);
    case Some(retry) => PutNextRetry(retry, count, backoff, condition, delay);
  }

  lemma PutFirstRetry(count: nat, backoff: nat, condition: Option<string>, delay: Option<string>)
    ensures PutRetryFields(map[], count, backoff, condition, delay)
            == RetryFields(Some(Retry(count, backoff, condition, delay)))
  {
  }

  lemma PutCounts(r: Retry, count: nat, backoff: nat)
    ensures RetryFields(Some(r))["retry_count" := Whole(count)]["retry_backoff_ms" := Whole(backoff)]
         == RetryFields(Some(r.(count := count, backoff := backoff)))
  {
  }

  lemma PutCondition(r: Retry, condition: string)
    ensures RetryFields(Some(r))["retry_condition" := Text(condition)]
            == RetryFields(Some(r.(condition := Some(condition))))
  {
  }

  lemma PutDelay(r: Retry, delay: string)
    ensures RetryFields(Some(r))["retry_delay_expression" := Text(delay)] == RetryFields(Some(r.(delay := Some(delay))))
  {
  }

  lemma PutNextRetry(r: Retry, count: nat, backoff: nat, condition: Option<string>, delay: Option<string>)
    ensures PutRetryFields(RetryFields(Some(r)), count, backoff, condition, delay)
         == RetryFields(Some(Redeclare(Some(r), count, backoff, condition, delay)))
  {
    hide RetryFields;
    PutCounts(r, count, backoff);
    var counted := r.(count := count, backoff := backoff);
    if condition.Some? { PutCondition(counted, condition.value); }
    var conditioned := if condition.Some? then counted.(condition := condition) else counted;
    if delay.Some? { PutDelay(conditioned, delay.value); }
  }

  lemma NodeId(c: Uuids, s: NodeSpec)
    ensures AsText(Get(NodeJson(c, s), "id")) == Some(s.id)
  {
    BaseLookups(c, s);
    BaseFieldsOf(c, s.id, s.body);
    hide NodeJson, BaseFields, Get;
  }

  // ----- the builder -----

  datatype BuildError = UnknownNode(id: string, caller: string)

  datatype Built = Document(root: Json) | Failed(errors: seq<BuildError>)

  /** The index of the first node with the id, or the number of nodes. */
  function FindSpec(specs: seq<NodeSpec>, id: string): nat {
    if specs == [] then 0 else if specs[0].id == id then 0 else 1 + FindSpec(specs[1..], id)
  }

  lemma {:induction false} FindSpecFinds(specs: seq<NodeSpec>, id: string)
    ensures FindSpec(specs, id) <= |specs|
    ensures forall i | 0 <= i < FindSpec(specs, id) :: specs[i].id != id
    ensures FindSpec(specs, id) < |specs| ==> specs[FindSpec(specs, id)].id == id
  {
    if specs != [] { FindSpecFinds(specs[1..], id); }
  }

  /** A second retry declaration keeps the expressions it does not give. */
  function Redeclare(old_: Option<Retry>, count: nat, backoff: nat, condition: Option<string>,
                     delay: Option<string>): Retry {
    Retry(count, backoff,
          if condition.None? && old_.Some? then old_.value.condition else condition,
          if delay.None? && old_.Some? then old_.value.delay else delay)
  }

  class Builder {
    const codec: Uuids
    var nodes: seq<Json>
    var edges: seq<Json>
    var timeout: Option<nat>
    var errors: seq<BuildError>
    ghost var specs: seq<NodeSpec>
    ghost var links: seq<EdgeSpec>

    ghost predicate Valid()
      reads this
    {
      && |nodes| == |specs| && (forall i | 0 <= i < |nodes| :: nodes[i] == NodeJson(codec, specs[i]))
      && |edges| == |links| && (forall i | 0 <= i < |edges| :: edges[i] == EdgeJson(links[i]))
    }

    constructor (codec: Uuids)
      ensures Valid() && specs == [] && links == [] && errors == [] && timeout == None && this.codec == codec
    {
      this.codec := codec;
      nodes, edges, timeout, errors, specs, links := [], [], None, [], [], [];
    }

    method AddModule(id: string, moduleId: nat, config: Option<Json>)
      requires Valid()
      modifies this
      ensures Valid() && specs == old(specs) + [NodeSpec(id, Module(moduleId, config), None, false, None)]
      ensures links == old(links) && errors == old(errors) && timeout == old(timeout)
    {
      var node := map["id" := Text(id), "type" := Text(codec.print_(moduleId))];
      if config.Some? { node := node["data" := config.value]; }
      nodes := nodes + [Object(node)];
      specs := specs + [NodeSpec(id, Module(moduleId, config), None, false, None)];
      assert node == NodeJson(codec, specs[|specs| - 1]).fields;
    }

    method AddSystemNode(id: string, kind: Kind)
      requires Valid()
      modifies this
      ensures Valid() && specs == old(specs) + [NodeSpec(id, System(kind), None, false, None)]
      ensures links == old(links) && errors == old(errors) && timeout == old(timeout)
    {
      var name := Name(TagFor(kind));
      var node := map["id" := Text(id), "type" := Text("system:" + name), "kind" := Text(name),
                      "data" := Data(codec, kind)];
      nodes := nodes + [Object(node)];
      specs := specs + [NodeSpec(id, System(kind), None, false, None)];
      assert node == NodeJson(codec, specs[|specs| - 1]).fields;
    }

    /** The first node object with the id; |nodes| when there is none. */
    method FindNode(id: string) returns (i: nat)
      requires Valid()
      ensures i == FindSpec(specs, id)
    {
      FindSpecFinds(specs, id);
      hide NodeJson, EdgeJson, FindSpec;
      i := 0;
      while i < |nodes|
        invariant i <= FindSpec(specs, id) <= |nodes|
      {
        NodeId(codec, specs[i]);
        assert nodes[i] == NodeJson(codec, specs[i]);
        if AsText(Get(nodes[i], "id")) == Some(id) { return; }
        i := i + 1;
      }
    }

    method WithSkipCondition(id: string, condition: string)
      requires Valid()
      modifies this
      ensures Valid() && links == old(links) && timeout == old(timeout)
      ensures var i := FindSpec(old(specs), id);
              if i < |old(specs)| then
                specs == old(specs)[i := old(specs)[i].(skip := Some(condition))] && errors == old(errors)
              else specs == old(specs) && errors == old(errors) + [UnknownNode(id, "with_skip_condition")]
    {
      hide NodeJson, EdgeJson, FindSpec;
      var i := FindNode(id);
      if i < |nodes| {
        assert nodes[i] == NodeJson(codec, specs[i]);
        PutSkip(codec, specs[i], condition);
        var node := nodes[i].fields["skip_condition" := Text(condition)];
        nodes := nodes[i := Object(node)];
        specs := specs[i := specs[i].(skip := Some(condition))];
      } else {
        errors := errors + [UnknownNode(id, "with_skip_condition")];
      }
    }

    method WithContinueOnError(id: string)
      requires Valid()
      modifies this
      ensures Valid() && links == old(links) && timeout == old(timeout)
      ensures var i := FindSpec(old(specs), id);
              if i < |old(specs)| then
                specs == old(specs)[i := old(specs)[i].(continues := true)] && errors == old(errors)
              else specs == old(specs) && errors == old(errors) + [UnknownNode(id, "with_continue_on_error")]
    {
      hide NodeJson, EdgeJson, FindSpec;
      var i := FindNode(id);
      if i < |nodes| {
        assert nodes[i] == NodeJson(codec, specs[i]);
        PutContinue(codec, specs[i]);
        var node := nodes[i].fields["continue_on_error" := Bool(true)];
        nodes := nodes[i := Object(node)];
        specs := specs[i := specs[i].(continues := true)];
      } else {
        errors := errors + [UnknownNode(id, "with_continue_on_error")];
      }
    }

    method WithRetry(id: string, count: nat, backoff: nat, condition: Option<string>, delay: Option<string>)
      requires Valid()
      modifies this
      ensures Valid() && links == old(links) && timeout == old(timeout)
      ensures var i := FindSpec(old(specs), id);
              if i < |old(specs)| then
                && specs == old(specs)[i := old(specs)[i].(retry :=
                              Some(Redeclare(old(specs)[i].retry, count, backoff, condition, delay)))]
                && errors == old(errors)
              else specs == old(specs) && errors == old(errors) + [UnknownNode(id, "with_retry")]
    {
      hide NodeJson, EdgeJson, FindSpec;
      var i := FindNode(id);
      if i < |nodes| {
        assert nodes[i] == NodeJson(codec, specs[i]);
        PutRetry(codec, specs[i], count, backoff, condition, delay);
        var node := nodes[i].fields["retry_count" := Whole(count)]["retry_backoff_ms" := Whole(backoff)];
        if condition.Some? { node := node["retry_condition" := Text(condition.value)]; }
        if delay.Some? { node := node["retry_delay_expression" := Text(delay.value)]; }
        nodes := nodes[i := Object(node)];
        specs := specs[i := specs[i].(retry := Some(Redeclare(specs[i].retry, count, backoff, condition, delay)))];
      } else {
        errors := errors + [UnknownNode(id, "with_retry")];
      }
    }

    method EdgeWithHandles(source: string, target: string, sourceHandle: string, targetHandle: string)
      requires Valid()
      modifies this
      ensures Valid() && specs == old(specs) && errors == old(errors) && timeout == old(timeout)
      ensures links == old(links) + [EdgeSpec(source, target, sourceHandle, targetHandle, None)]
    {
      var edge := map["source" := Text(source), "target" := Text(target),
                      "sourceHandle" := Text(sourceHandle), "targetHandle" := Text(targetHandle)];
      edges := edges + [Object(edge)];
      links := links + [EdgeSpec(source, target, sourceHandle, targetHandle, None)];
      assert edge == EdgeJson(links[|links| - 1]).fields;
    }

    method EdgeCondition(source: string, target: string, condition: string)
      requires Valid()
      modifies this
      ensures Valid() && specs == old(specs) && errors == old(errors) && timeout == old(timeout)
      ensures links == old(links) + [EdgeSpec(source, target, "output", "input", Some(condition))]
    {
      EdgeWithHandles(source, target, "output", "input");
      var last := |edges| - 1;
      var edge := edges[last].fields["condition" := Text(condition)];
      edges := edges[last := Object(edge)];
      links := links[last := links[last].(condition := Some(condition))];
      assert edge == EdgeJson(links[last]).fields;
    }

    method Build() returns (built: Built)
      requires Valid()
      ensures if errors != [] then built == Failed(errors)
              else built == Document(Object(map["nodes" := List(nodes), "edges" := List(edges)]
                                            + Field("execution_timeout_secs", if timeout.Some?
                                                    then Some(Whole(timeout.value)) else None)))
    {
      if errors != [] { return Failed(errors); }
      var root := map["nodes" := List(nodes), "edges" := List(edges)];
      if timeout.Some? { root := root["execution_timeout_secs" := Whole(timeout.value)]; }
      assert root == map["nodes" := List(nodes), "edges" := List(edges)]
                     + Field("execution_timeout_secs", if timeout.Some? then Some(Whole(timeout.value)) else None);
      built := Document(Object(root));
    }
  }

  // ----- loading -----

  /** Identifiers: parsed when the text is one, else derived from it by hashing. */
  datatype Ids = Ids(uuids: Uuids, hash: string -> nat)

  function Ident(c: Ids, text: string): nat {
    Or(c.uuids.parse(text), c.hash(text))
  }

  datatype Policy = Policy(maxRetries: nat, backoff: nat, condition: Option<string>, delay: Option<string>)

  datatype Meta = Meta(module_: Option<nat>, retry: Option<Policy>, kind: Option<Kind>)

  /** What one node of the document says for the node's configuration and timeout. */
  datatype Settings = Settings(data: map<string, Json>, skip: Option<string>, continues: bool, timeout: Option<nat>)

  datatype LoadedEdge = LoadedEdge(src: nat, dst: nat, sourceHandle: string, targetHandle: string,
                       condition: Option<string>, edgeType: string)

  function GetIn(j: Option<Json>, key: string): Option<Json> {
    if j.Some? then Get(j.value, key) else None
  }

  /** The node's own field, or the one nested under its data. */
  function OwnOrData(node: Json, key: string): Option<Json> {
    if Get(node, key).Some? then Get(node, key) else GetIn(Get(node, "data"), key)
  }

  const MAX_RETRIES_UNBUDGETED: nat := 3

  function PolicyOf(count: Option<nat>, backoff: Option<nat>, condition: Option<string>,
                    delay: Option<string>): Option<Policy> {
    if count.None? && backoff.None? && condition.None? && delay.None? then None
    else Some(Policy(Or(count, 2) % U32, Or(backoff, 500), condition, delay))
  }

  function ReadRetry(node: Json): Option<Policy> {
    PolicyOf(AsU64(OwnOrData(node, "retry_count")), AsU64(OwnOrData(node, "retry_backoff_ms")),
             AsText(OwnOrData(node, "retry_condition")), AsText(OwnOrData(node, "retry_delay_expression")))
  }

  /** Without an actor budget the retry count is capped. */
  function Capped(p: Option<Policy>, hasActor: bool): Option<Policy> {
    if p.None? || hasActor then p
    else Some(p.value.(maxRetries := AtMost(p.value.maxRetries, MAX_RETRIES_UNBUDGETED)))
  }

  function First(a: Option<string>, b: Option<string>): Option<string> {
    if a.Some? then a else b
  }

  /** The fields of a non-empty object. */
  function FieldsOf(data: Option<Json>): map<string, Json> {
    if data.Some? && data.value.Object? then data.value.fields else map[]
  }

  function ModuleSettings(node: Json): Settings {
    var data, config := Get(node, "data"), Get(node, "config");
    Settings(FieldsOf(data),
             First(AsText(GetIn(data, "skip_condition")),
                   First(AsText(Get(node, "skip_condition")), AsText(GetIn(config, "skip_condition")))),
             (if data.Some? then
                AsBool(GetIn(data, "continue_on_error")) == Some(true)
                    || AsBool(Get(node, "continue_on_error")) == Some(true)
              else
                var own := AsBool(Get(node, "continue_on_error"));
                (if own.Some? then own else AsBool(GetIn(config, "continue_on_error"))) == Some(true)),
             AsU64(if GetIn(data, "timeout_secs").Some? then GetIn(data, "timeout_secs")
                   else Get(node, "timeout_secs")))
  }

  function SystemSettings(node: Json): Settings {
    var data := Get(node, "data");
    if data.None? then Settings(map[], None, false, None)
    else
      Settings(FieldsOf(data),
               First(AsText(GetIn(data, "skip_condition")), AsText(Get(node, "skip_condition"))),
               AsBool(GetIn(data, "continue_on_error")) == Some(true)
                   || AsBool(Get(node, "continue_on_error")) == Some(true),
               None)
  }

  /** The node's configuration: its data, else what it had, with the two reserved keys. */
  function Configured(had: map<string, Json>, s: Settings): map<string, Json> {
    (if s.data != map[] then s.data else had)
    + Field("__skip_condition", TextOf(s.skip))
    + Field("__continue_on_error", if s.continues then Some(Bool(true)) else None)
  }

  predicate IsUuid(c: Ids, text: Option<string>) {
    text.Some? && c.uuids.parse(text.value).Some?
  }

  const SYSTEM: string := "system:"

  /** The kind string of a system node: its kind field, else what follows the type prefix. */
  function KindName(node: Json, type_: string): string
    requires |SYSTEM| <= |type_|
  {
    Or(AsText(Get(node, "kind")), type_[|SYSTEM|..])
  }

  /** What a node of the document becomes; other nodes are passed over. */
  function ParseNode(c: Ids, hasActor: bool, node: Json): Option<(Meta, Settings)> {
    var type_ := AsText(Get(node, "type"));
    var moduleText := if IsUuid(c, type_) then type_ else AsText(GetIn(Get(node, "data"), "moduleId"));
    if moduleText.Some? then
      if IsUuid(c, moduleText) then
        var kind := AsText(Get(node, "kind"));
        Some((Meta(c.uuids.parse(moduleText.value), Capped(ReadRetry(node), hasActor),
                   if kind.Some? then Decode(c.uuids, kind.value, Get(node, "data")) else None),
              ModuleSettings(node)))
      else None
    else if type_.Some? && SYSTEM <= type_.value then
      Some((Meta(None, None, Decode(c.uuids, KindName(node, type_.value), Get(node, "data"))), SystemSettings(node)))
    else None
  }

  /** A node without a configuration has none of its own: the empty one. */
  datatype Loaded = Loaded(order: seq<nat>, meta: map<nat, Meta>, configs: map<nat, map<string, Json>>,
                           timeouts: map<nat, nat>,
                           index: map<string, nat>, edges: seq<LoadedEdge>)

  const NOTHING := Loaded([], map[], map[], map[], map[], [])

  function ConfigOf(l: Loaded, id: nat): map<string, Json> {
    if id in l.configs then l.configs[id] else map[]
  }

  function TimeoutOf(l: Loaded, id: nat): Option<nat> {
    if id in l.timeouts then Some(l.timeouts[id]) else None
  }

  /** The node's configuration and timeout, on top of what an earlier node with the id left. */
  function Configure(l: Loaded, id: nat, settings: Settings): Loaded {
    var config := Configured(ConfigOf(l, id), settings);
    l.(configs := if config == map[] then l.configs else l.configs[id := config],
       timeouts := if settings.timeout.None? then l.timeouts else l.timeouts[id := settings.timeout.value])
  }

  datatype Setup = Setup(ids: Ids, hasActor: bool, maxNodes: nat)

  /** Past the node cap a node is dropped from the graph, though its text is still known. */
  function LoadNode(s: Setup, l: Loaded, node: Json): Loaded {
    var parsed := ParseNode(s.ids, s.hasActor, node);
    if parsed.None? then l
    else
      var text := Or(AsText(Get(node, "id")), "");
      var id := Ident(s.ids, text);
      var known := Configure(l.(index := l.index[text := id]), id, parsed.value.1);
      if |l.order| >= s.maxNodes then known
      else known.(order := l.order + [id], meta := l.meta[id := parsed.value.0])
  }

  function LoadNodes(s: Setup, nodes: seq<Json>): Loaded {
    if nodes == [] then NOTHING else LoadNode(s, LoadNodes(s, nodes[..|nodes| - 1]), nodes[|nodes| - 1])
  }

  function EdgeOf(l: Loaded, edge: Json): Option<LoadedEdge> {
    var source, target := Or(AsText(Get(edge, "source")), ""), Or(AsText(Get(edge, "target")), "");
    if source !in l.index || target !in l.index then None
    else if l.index[source] !in l.meta || l.index[target] !in l.meta then None
    else
      Some(LoadedEdge(l.index[source], l.index[target],
                Or(AsText(Get(edge, "sourceHandle")), "output"), Or(AsText(Get(edge, "targetHandle")), "input"),
                AsText(Get(edge, "condition")), Or(AsText(Get(edge, "edge_type")), "default")))
  }

  /** Edges with an endpoint that is not in the graph are passed over. */
  function LoadEdge(l: Loaded, edge: Json): Loaded {
    if EdgeOf(l, edge).Some? then l.(edges := l.edges + [EdgeOf(l, edge).value]) else l
  }

  function LoadEdges(l: Loaded, edges: seq<Json>): Loaded {
    if edges == [] then l else LoadEdge(LoadEdges(l, edges[..|edges| - 1]), edges[|edges| - 1])
  }

  function ItemsOf(j: Option<Json>): seq<Json> {
    if j.Some? && j.value.List? then j.value.items else []
  }

  /** An engine loading one document into an empty graph. */
  class Loader {
    const setup: Setup
    var loaded: Loaded
    var timeout: nat

    constructor (setup: Setup, timeout: nat)
      ensures this.setup == setup && loaded == NOTHING && this.timeout == timeout
    {
      this.setup := setup;
      this.timeout := timeout;
      loaded := NOTHING;
    }

    /** False when there is nothing to run. */
    method ParseGraphDocument(document: Json) returns (ok: bool)
      requires loaded == NOTHING
      modifies this
      ensures ok <==> ItemsOf(Get(document, "nodes")) != []
      ensures loaded == LoadEdges(LoadNodes(setup, ItemsOf(Get(document, "nodes"))),
                                  if ok then ItemsOf(Get(document, "edges")) else [])
      ensures timeout == if ok then Or(AsU64(Get(document, "execution_timeout_secs")), old(timeout)) else old(timeout)
    {
      hide LoadNode, LoadEdge;
      var nodes, edges := ItemsOf(Get(document, "nodes")), ItemsOf(Get(document, "edges"));
      if nodes == [] { return false; }
      var declared := AsU64(Get(document, "execution_timeout_secs"));
      if declared.Some? { timeout := declared.value; }
      for i := 0 to |nodes|
        invariant loaded == LoadNodes(setup, nodes[..i])
        invariant timeout == Or(declared, old(timeout))
      {
        assert nodes[..i + 1][..i] == nodes[..i];
        loaded := LoadNode(setup, loaded, nodes[i]);
      }
      assert nodes[..|nodes|] == nodes;
      ghost var l := loaded;
      for i := 0 to |edges|
        invariant loaded == LoadEdges(l, edges[..i])
        invariant timeout == Or(declared, old(timeout))
      {
        assert edges[..i + 1][..i] == edges[..i];
        loaded := LoadEdge(loaded, edges[i]);
      }
      assert edges[..|edges|] == edges;
      ok := true;
    }
  }

  // ----- the round trip -----

  ghost predicate LawfulIds(c: Ids) {
    && Lawful(c.uuids)
    && forall name :: c.uuids.parse(SYSTEM + name) == None
  }

  predicate SizedSpec(s: NodeSpec) {
    && (s.retry.Some? ==> s.retry.value.count < U32 && s.retry.value.backoff < U64)
    && (s.body.System? ==> Sized(s.body.kind))
  }

  /** A declared retry policy; what it leaves open is read from the module's config. */
  function Effective(r: Option<Retry>, config: Option<Json>): Option<Policy> {
    if r.None? then
      PolicyOf(AsU64(GetIn(config, "retry_count")), AsU64(GetIn(config, "retry_backoff_ms")),
               AsText(GetIn(config, "retry_condition")), AsText(GetIn(config, "retry_delay_expression")))
    else
      Some(Policy(r.value.count, r.value.backoff,
                  First(r.value.condition, AsText(GetIn(config, "retry_condition"))),
                  First(r.value.delay, AsText(GetIn(config, "retry_delay_expression")))))
  }

  function AsDeclared(r: Retry): Policy {
    Policy(r.count, r.backoff, r.condition, r.delay)
  }

  /** Whether a declared policy is the loaded one: the counts always are, and each expression is
      unless it is left open and the module's config has one of the same name. */
  lemma DeclaredRetryIsEffectiveIff(r: Retry, config: Option<Json>)
    ensures Effective(Some(r), config) == Some(AsDeclared(r))
            <==> (r.condition.Some? || AsText(GetIn(config, "retry_condition")).None?)
                 && (r.delay.Some? || AsText(GetIn(config, "retry_delay_expression")).None?)
    ensures Effective(Some(r), config).value.maxRetries == r.count
            && Effective(Some(r), config).value.backoff == r.backoff
  {
  }

  /** A config that makes its way into a declared policy. */
  lemma ConfigCanChangeDeclaredRetry()
    ensures var r, config := Retry(1, 100, None, None), Some(Object(map["retry_condition" := Text("never")]));
            Effective(Some(r), config) != Some(AsDeclared(r))
  {
    assert GetIn(Some(Object(map["retry_condition" := Text("never")])), "retry_condition") == Some(Text("never"));
  }

  function ExpectedMeta(s: NodeSpec, hasActor: bool): Meta {
    match s.body
    case Module(u, config) => Meta(Some(u), Capped(Effective(s.retry, config), hasActor), None)
    case System(k) => Meta(None, None, if Rejected(k) then None else Some(Clamp(k)))
  }

  function ExpectedSettings(c: Uuids, s: NodeSpec): Settings {
    match s.body
    case Module(_, config) =>
      Settings(FieldsOf(config), First(AsText(GetIn(config, "skip_condition")), s.skip),
               AsBool(GetIn(config, "continue_on_error")) == Some(true)
               || s.continues,
               AsU64(GetIn(config, "timeout_secs")))
    case System(k) => Settings(FieldsOf(Some(Data(c, k))), s.skip, s.continues, None)
  }

  lemma BaseLookups(c: Uuids, s: NodeSpec)
    ensures var node, base := NodeJson(c, s), Object(BaseFields(c, s.id, s.body));
            && Get(node, "id") == Get(base, "id") && Get(node, "type") == Get(base, "type")
            && Get(node, "kind") == Get(base, "kind") && Get(node, "data") == Get(base, "data")
            && Get(node, "config") == Get(base, "config")
  {
    RetryKeys(s.retry);
    FlagKeys(s.skip, s.continues);
    hide RetryFields, FlagFields, BaseFields;
  }

  lemma BaseFieldsOf(c: Uuids, id: string, b: Body)
    ensures var base := Object(BaseFields(c, id, b));
            && Get(base, "id") == Some(Text(id)) && Get(base, "config") == None
            && match b
               case Module(u, config) =>
                 Get(base, "type") == Some(Text(c.print_(u))) && Get(base, "kind") == None
                     && Get(base, "data") == config
               case System(k) =>
                 && Get(base, "type") == Some(Text(SYSTEM + Name(TagFor(k))))
                 && Get(base, "kind") == Some(Text(Name(TagFor(k)))) && Get(base, "data") == Some(Data(c, k))
  {
    hide Name, TagFor, Data;
  }

  lemma FlagLookups(c: Uuids, s: NodeSpec)
    ensures Get(NodeJson(c, s), "skip_condition") == TextOf(s.skip)
    ensures Get(NodeJson(c, s), "continue_on_error") == if s.continues then Some(Bool(true)) else None
    ensures Get(NodeJson(c, s), "timeout_secs") == None
  {
    RetryKeys(s.retry);
    BaseKeys(c, s.id, s.body);
    hide RetryFields, BaseFields;
  }

  lemma RetryLookups(c: Uuids, s: NodeSpec)
    ensures var node := NodeJson(c, s);
            && Get(node, "retry_count") == (if s.retry.Some? then Some(Whole(s.retry.value.count)) else None)
            && Get(node, "retry_backoff_ms") == (if s.retry.Some? then Some(Whole(s.retry.value.backoff)) else None)
  {
    BaseKeys(c, s.id, s.body);
    FlagKeys(s.skip, s.continues);
    hide BaseFields, FlagFields;
  }

  lemma RetryExpressionLookups(c: Uuids, s: NodeSpec)
    ensures var node := NodeJson(c, s);
            && Get(node, "retry_condition") == (if s.retry.Some? then TextOf(s.retry.value.condition) else None)
            && Get(node, "retry_delay_expression") == (if s.retry.Some? then TextOf(s.retry.value.delay) else None)
  {
    BaseKeys(c, s.id, s.body);
    FlagKeys(s.skip, s.continues);
    hide BaseFields, FlagFields;
  }

  /** No kind writes a field the loader reads from `data` for another purpose. */
  lemma DataHasNoModule(c: Uuids, k: Kind)
    ensures Get(Data(c, k), "moduleId") == None
  {
    hide JoinJson, Texts, RoutesJson, UuidOrNull, RealOrNull, TextOrNull;
  }

  lemma DataHasNoSkip(c: Uuids, k: Kind)
    ensures Get(Data(c, k), "skip_condition") == None
  {
    hide JoinJson, Texts, RoutesJson, UuidOrNull, RealOrNull, TextOrNull;
  }

  lemma DataHasNoContinue(c: Uuids, k: Kind)
    ensures Get(Data(c, k), "continue_on_error") == None
  {
    hide JoinJson, Texts, RoutesJson, UuidOrNull, RealOrNull, TextOrNull;
  }

  lemma ModuleRoundTrip(c: Ids, hasActor: bool, s: NodeSpec)
    requires LawfulIds(c) && SizedSpec(s) && s.body.Module?
    ensures ParseNode(c, hasActor, NodeJson(c.uuids, s))
            == Some((ExpectedMeta(s, hasActor), ExpectedSettings(c.uuids, s)))
  {
    BaseLookups(c.uuids, s);
    BaseFieldsOf(c.uuids, s.id, s.body);
    FlagLookups(c.uuids, s);
    RetryLookups(c.uuids, s);
    RetryExpressionLookups(c.uuids, s);
    hide NodeJson, BaseFields, Get, Decode;
  }

  lemma SystemRoundTrip(c: Ids, hasActor: bool, s: NodeSpec)
    requires LawfulIds(c) && SizedSpec(s) && s.body.System?
    ensures ParseNode(c, hasActor, NodeJson(c.uuids, s))
            == Some((ExpectedMeta(s, hasActor), ExpectedSettings(c.uuids, s)))
  {
    hide NodeJson, BaseFields, Get, Decode, Data, Name, TagFor, Clamp, Sized, SystemSettings;
    hide ExpectedSettings, ReadRetry;
    BaseLookups(c.uuids, s);
    BaseFieldsOf(c.uuids, s.id, s.body);
    DataHasNoModule(c.uuids, s.body.kind);
    KindRoundTrip(c.uuids, s.body.kind);
    SystemSettingsRoundTrip(c.uuids, s);
  }

  lemma SystemSettingsRoundTrip(c: Uuids, s: NodeSpec)
    requires s.body.System?
    ensures SystemSettings(NodeJson(c, s)) == ExpectedSettings(c, s)
  {
    hide NodeJson, BaseFields, Get, Data, Name, TagFor;
    BaseLookups(c, s);
    BaseFieldsOf(c, s.id, s.body);
    FlagLookups(c, s);
    DataHasNoSkip(c, s.body.kind);
    DataHasNoContinue(c, s.body.kind);
  }

  /** One node: built and loaded, it has its module or its clamped kind, its retry policy, its
      configuration with the reserved keys, and its timeout. */
  lemma NodeRoundTrip(c: Ids, hasActor: bool, s: NodeSpec)
    requires LawfulIds(c) && SizedSpec(s)
    ensures ParseNode(c, hasActor, NodeJson(c.uuids, s))
            == Some((ExpectedMeta(s, hasActor), ExpectedSettings(c.uuids, s)))
    ensures AsText(Get(NodeJson(c.uuids, s), "id")) == Some(s.id)
  {
    NodeId(c.uuids, s);
    if s.body.Module? { ModuleRoundTrip(c, hasActor, s); } else { SystemRoundTrip(c, hasActor, s); }
  }

  // ----- whole documents -----

  function NodeJsons(c: Uuids, specs: seq<NodeSpec>): seq<Json> {
    if specs == [] then [] else NodeJsons(c, specs[..|specs| - 1]) + [NodeJson(c, specs[|specs| - 1])]
  }

  function EdgeJsons(links: seq<EdgeSpec>): seq<Json> {
    if links == [] then [] else EdgeJsons(links[..|links| - 1]) + [EdgeJson(links[|links| - 1])]
  }

  ghost predicate Separated(c: Ids, specs: seq<NodeSpec>) {
    forall i, j | 0 <= i < j < |specs| :: Ident(c, specs[i].id) != Ident(c, specs[j].id)
  }

  /** The node loaded at position i is the declared one. */
  ghost predicate Held(s: Setup, l: Loaded, spec: NodeSpec, i: nat) {
    var id := Ident(s.ids, spec.id);
    && i < |l.order| && l.order[i] == id
    && spec.id in l.index && l.index[spec.id] == id
    && id in l.meta && l.meta[id] == ExpectedMeta(spec, s.hasActor)
    && ConfigOf(l, id) == Configured(map[], ExpectedSettings(s.ids.uuids, spec))
    && TimeoutOf(l, id) == ExpectedSettings(s.ids.uuids, spec).timeout
  }

  /** The loaded nodes are the declared ones, in order. */
  ghost predicate Holds(s: Setup, l: Loaded, specs: seq<NodeSpec>) {
    |l.order| == |specs| && forall i | 0 <= i < |specs| :: Held(s, l, specs[i], i)
  }

  /** What a node that is declared for the first time adds. */
  function WithNode(s: Setup, l: Loaded, spec: NodeSpec): Loaded {
    var id := Ident(s.ids, spec.id);
    Configure(l.(order := l.order + [id], meta := l.meta[id := ExpectedMeta(spec, s.hasActor)],
                 index := l.index[spec.id := id]),
              id, ExpectedSettings(s.ids.uuids, spec))
  }

  lemma NodeIsLoaded(s: Setup, l: Loaded, spec: NodeSpec)
    requires LawfulIds(s.ids) && SizedSpec(spec) && |l.order| < s.maxNodes
    ensures LoadNode(s, l, NodeJson(s.ids.uuids, spec)) == WithNode(s, l, spec)
  {
    NodeRoundTrip(s.ids, s.hasActor, spec);
    hide NodeJson, ParseNode, ExpectedMeta, ExpectedSettings, Ident, SizedSpec, LawfulIds, Get, Configured;
  }

  /** Configuring one node leaves the others alone. */
  lemma ConfigureAt(l: Loaded, id: nat, settings: Settings, other: nat)
    ensures var l' := Configure(l, id, settings);
            && l'.order == l.order && l'.meta == l.meta && l'.index == l.index && l'.edges == l.edges
            && l'.configs.Keys <= l.configs.Keys + {id} && l'.timeouts.Keys <= l.timeouts.Keys + {id}
            && (other != id ==>
                  ConfigOf(l', other) == ConfigOf(l, other) && TimeoutOf(l', other) == TimeoutOf(l, other))
            && (id !in l.configs && id !in l.timeouts ==>
                  ConfigOf(l', id) == Configured(map[], settings) && TimeoutOf(l', id) == settings.timeout)
  {
    hide Configured;
  }

  lemma HeldStays(s: Setup, l: Loaded, spec: NodeSpec, i: nat, more: NodeSpec)
    requires Held(s, l, spec, i) && Ident(s.ids, more.id) != Ident(s.ids, spec.id)
    ensures Held(s, WithNode(s, l, more), spec, i)
  {
    var id := Ident(s.ids, more.id);
    var l1 := l.(order := l.order + [id], meta := l.meta[id := ExpectedMeta(more, s.hasActor)],
                 index := l.index[more.id := id]);
    assert spec.id != more.id && ConfigOf(l1, Ident(s.ids, spec.id)) == ConfigOf(l, Ident(s.ids, spec.id));
    hide Ident, ExpectedMeta, ExpectedSettings, Configure, Configured;
    ConfigureAt(l1, id, ExpectedSettings(s.ids.uuids, more), Ident(s.ids, spec.id));
  }

  /** Nothing is configured but what has been declared. */
  ghost predicate OnlyKnown(s: Setup, l: Loaded, specs: seq<NodeSpec>) {
    forall id | id in l.configs || id in l.timeouts :: exists i | 0 <= i < |specs| :: Ident(s.ids, specs[i].id) == id
  }

  lemma NewIsHeld(s: Setup, l: Loaded, specs: seq<NodeSpec>, spec: NodeSpec)
    requires Separated(s.ids, specs + [spec]) && OnlyKnown(s, l, specs) && |l.order| == |specs|
    ensures Held(s, WithNode(s, l, spec), spec, |specs|) && OnlyKnown(s, WithNode(s, l, spec), specs + [spec])
    ensures WithNode(s, l, spec).edges == l.edges && |WithNode(s, l, spec).order| == |specs| + 1
  {
    var id, more := Ident(s.ids, spec.id), specs + [spec];
    var l1 := l.(order := l.order + [id], meta := l.meta[id := ExpectedMeta(spec, s.hasActor)],
                 index := l.index[spec.id := id]);
    forall i | 0 <= i < |specs| ensures Ident(s.ids, specs[i].id) != id {
      assert more[i] == specs[i] && more[|specs|] == spec;
    }
    hide Ident, ExpectedMeta, ExpectedSettings, Configure, Configured;
    ConfigureAt(l1, id, ExpectedSettings(s.ids.uuids, spec), id);
    assert l1.configs == l.configs && l1.timeouts == l.timeouts && id !in l.configs && id !in l.timeouts;
    forall id' | id' in WithNode(s, l, spec).configs || id' in WithNode(s, l, spec).timeouts
      ensures exists i | 0 <= i < |more| :: Ident(s.ids, more[i].id) == id'
    {
      if id' == id {
        assert more[|specs|] == spec;
      } else {
        var i :| 0 <= i < |specs| && Ident(s.ids, specs[i].id) == id';
        assert more[i] == specs[i];
      }
    }
  }

  lemma HoldsOneMore(s: Setup, l: Loaded, specs: seq<NodeSpec>, spec: NodeSpec)
    requires LawfulIds(s.ids) && SizedSpec(spec) && Separated(s.ids, specs + [spec])
    requires Holds(s, l, specs) && OnlyKnown(s, l, specs) && |specs| < s.maxNodes
    ensures var l' := LoadNode(s, l, NodeJson(s.ids.uuids, spec));
            Holds(s, l', specs + [spec]) && OnlyKnown(s, l', specs + [spec]) && l'.edges == l.edges
  {
    hide NodeJson, LoadNode, WithNode, Held, OnlyKnown, Ident, SizedSpec, LawfulIds;
    NodeIsLoaded(s, l, spec);
    NewIsHeld(s, l, specs, spec);
    var more := specs + [spec];
    forall i | 0 <= i < |specs| ensures Held(s, WithNode(s, l, spec), more[i], i) {
      assert more[i] == specs[i] && more[|specs|] == spec && Ident(s.ids, more[i].id) != Ident(s.ids, more[|specs|].id);
      HeldStays(s, l, specs[i], i, spec);
    }
  }

  lemma {:induction false} NodesRoundTrip(s: Setup, specs: seq<NodeSpec>)
    requires LawfulIds(s.ids) && Separated(s.ids, specs) && |specs| <= s.maxNodes
    requires forall i | 0 <= i < |specs| :: SizedSpec(specs[i])
    ensures Holds(s, LoadNodes(s, NodeJsons(s.ids.uuids, specs)), specs)
    ensures LoadNodes(s, NodeJsons(s.ids.uuids, specs)).edges == []
    ensures OnlyKnown(s, LoadNodes(s, NodeJsons(s.ids.uuids, specs)), specs)
  {
    if specs != [] {
      var before, last := specs[..|specs| - 1], specs[|specs| - 1];
      assert before + [last] == specs;
      assert forall i | 0 <= i < |before| :: before[i] == specs[i];
      hide LoadNode, Holds, OnlyKnown, LawfulIds, SizedSpec, NodeJson, Ident;
      NodesRoundTrip(s, before);
      HoldsOneMore(s, LoadNodes(s, NodeJsons(s.ids.uuids, before)), before, last);
      LoadedInOrder(s, specs);
    }
  }

  lemma LoadedInOrder(s: Setup, specs: seq<NodeSpec>)
    requires specs != []
    ensures LoadNodes(s, NodeJsons(s.ids.uuids, specs))
         == LoadNode(s, LoadNodes(s, NodeJsons(s.ids.uuids, specs[..|specs| - 1])),
                     NodeJson(s.ids.uuids, specs[|specs| - 1]))
  {
    hide LoadNode, NodeJson;
    var nodes := NodeJsons(s.ids.uuids, specs);
    assert nodes[..|nodes| - 1] == NodeJsons(s.ids.uuids, specs[..|specs| - 1]);
  }

  predicate Known(specs: seq<NodeSpec>, id: string) {
    exists i | 0 <= i < |specs| :: specs[i].id == id
  }

  function LoadedLink(c: Ids, e: EdgeSpec): LoadedEdge {
    LoadedEdge(Ident(c, e.source), Ident(c, e.target), e.sourceHandle, e.targetHandle, e.condition, "default")
  }

  lemma EdgeLookups(e: EdgeSpec)
    ensures var edge := EdgeJson(e);
            && AsText(Get(edge, "source")) == Some(e.source) && AsText(Get(edge, "target")) == Some(e.target)
            && AsText(Get(edge, "sourceHandle")) == Some(e.sourceHandle)
            && AsText(Get(edge, "targetHandle")) == Some(e.targetHandle)
            && AsText(Get(edge, "condition")) == e.condition && Get(edge, "edge_type") == None
  {
  }

  lemma EdgeRoundTrip(s: Setup, l: Loaded, specs: seq<NodeSpec>, e: EdgeSpec)
    requires Holds(s, l, specs) && Known(specs, e.source) && Known(specs, e.target)
    ensures EdgeOf(l, EdgeJson(e)) == Some(LoadedLink(s.ids, e))
  {
    EdgeLookups(e);
    hide EdgeJson, Get, Ident, ExpectedMeta, ExpectedSettings, Configured;
    var i :| 0 <= i < |specs| && specs[i].id == e.source;
    var j :| 0 <= j < |specs| && specs[j].id == e.target;
    assert Held(s, l, specs[i], i) && Held(s, l, specs[j], j);
  }

  lemma EdgesKeepNodes(s: Setup, l: Loaded, specs: seq<NodeSpec>, edges: seq<LoadedEdge>)
    requires Holds(s, l, specs)
    ensures Holds(s, l.(edges := edges), specs)
  {
    hide Ident, ExpectedMeta, ExpectedSettings, Configured;
    forall i | 0 <= i < |specs| ensures Held(s, l.(edges := edges), specs[i], i) {
      assert Held(s, l, specs[i], i);
    }
  }

  lemma EdgesInOrder(l: Loaded, links: seq<EdgeSpec>)
    requires links != []
    ensures LoadEdges(l, EdgeJsons(links))
         == LoadEdge(LoadEdges(l, EdgeJsons(links[..|links| - 1])), EdgeJson(links[|links| - 1]))
  {
    hide LoadEdge, EdgeJson;
    var edges := EdgeJsons(links);
    assert edges[..|edges| - 1] == EdgeJsons(links[..|links| - 1]);
  }

  lemma {:induction false} EdgesRoundTrip(s: Setup, l: Loaded, specs: seq<NodeSpec>, links: seq<EdgeSpec>)
    requires Holds(s, l, specs) && l.edges == []
    requires forall i | 0 <= i < |links| :: Known(specs, links[i].source) && Known(specs, links[i].target)
    ensures var loaded := LoadEdges(l, EdgeJsons(links));
            && loaded == l.(edges := loaded.edges)
            && |loaded.edges| == |links|
            && forall i | 0 <= i < |links| :: loaded.edges[i] == LoadedLink(s.ids, links[i])
  {
    hide EdgeJson, EdgeOf, Holds, Known, LoadedLink;
    if links != [] {
      var before, last := links[..|links| - 1], links[|links| - 1];
      assert forall i | 0 <= i < |before| :: before[i] == links[i];
      EdgesRoundTrip(s, l, specs, before);
      var so := LoadEdges(l, EdgeJsons(before));
      EdgesKeepNodes(s, l, specs, so.edges);
      EdgeRoundTrip(s, so, specs, last);
      EdgesInOrder(l, links);
    }
  }

  lemma {:induction false} NodeJsonsAre(c: Uuids, specs: seq<NodeSpec>, nodes: seq<Json>)
    requires |nodes| == |specs| && forall i | 0 <= i < |nodes| :: nodes[i] == NodeJson(c, specs[i])
    ensures nodes == NodeJsons(c, specs)
  {
    hide NodeJson;
    if specs != [] { NodeJsonsAre(c, specs[..|specs| - 1], nodes[..|nodes| - 1]); }
  }

  lemma {:induction false} EdgeJsonsAre(links: seq<EdgeSpec>, edges: seq<Json>)
    requires |edges| == |links| && forall i | 0 <= i < |edges| :: edges[i] == EdgeJson(links[i])
    ensures edges == EdgeJsons(links)
  {
    hide EdgeJson;
    if links != [] { EdgeJsonsAre(links[..|links| - 1], edges[..|edges| - 1]); }
  }

  /** Build, then load: the same nodes in the same order, each with its module, its clamped
      kind, its retry policy, configuration and timeout, and the same edges with handles and conditions. */
  method BuildAndLoad(builder: Builder, setup: Setup) returns (loaded: Loaded, ok: bool)
    requires builder.Valid() && builder.errors == [] && setup.ids.uuids == builder.codec
    requires LawfulIds(setup.ids) && Separated(setup.ids, builder.specs) && |builder.specs| <= setup.maxNodes
    requires forall i | 0 <= i < |builder.specs| :: SizedSpec(builder.specs[i])
    requires forall i | 0 <= i < |builder.links| ::
               Known(builder.specs, builder.links[i].source) && Known(builder.specs, builder.links[i].target)
    ensures ok <==> builder.specs != []
    ensures ok ==>
              && Holds(setup, loaded, builder.specs)
              && |loaded.edges| == |builder.links|
              && forall i | 0 <= i < |builder.links| :: loaded.edges[i] == LoadedLink(setup.ids, builder.links[i])
  {
    hide NodeJson, EdgeJson, LoadNodes, LoadEdges, Holds, SizedSpec, LawfulIds, Known, NodeJsons, EdgeJsons;
    ghost var specs, links := builder.specs, builder.links;
    NodeJsonsAre(setup.ids.uuids, specs, builder.nodes);
    EdgeJsonsAre(links, builder.edges);
    NodesRoundTrip(setup, specs);
    EdgesRoundTrip(setup, LoadNodes(setup, builder.nodes), specs, links);
    EdgesKeepNodes(setup, LoadNodes(setup, builder.nodes), specs,
                   LoadEdges(LoadNodes(setup, builder.nodes), builder.edges).edges);
    var built := builder.Build();
    DocumentLookups(builder.nodes, builder.edges, builder.timeout);
    var loader := new Loader(setup, 0);
    ok := loader.ParseGraphDocument(built.root);
    loaded := loader.loaded;
  }

  lemma DocumentLookups(nodes: seq<Json>, edges: seq<Json>, timeout: Option<nat>)
    ensures var root := Object(map["nodes" := List(nodes), "edges" := List(edges)]
                               + Field("execution_timeout_secs", if timeout.Some? then Some(Whole(timeout.value))
                                       else None));
            && ItemsOf(Get(root, "nodes")) == nodes && ItemsOf(Get(root, "edges")) == edges
  {
  }
}
