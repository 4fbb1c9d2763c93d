/** System node kinds: their serialisation by the graph builder and their decoding by the
    graph parser. */
module Kinds {
  import opened Graphs
  import opened FanIn
  import opened Json

  datatype Kind =
    | Wait(message: Option<string>)
    | WhileLoop(condition: string, maxIterations: nat)
    | RepeatLoop(count: nat)
    | ErrorHandler(errorPattern: Option<string>)
    | FanInKind(joinMode: JoinMode, aggregation: Option<string>)
    | SubWorkflow(workflow: nat, timeout: nat)
    | Loop(maxIterations: nat, condition: string)
    | Collect
    | Synthesize(expression: Option<string>)
    | Verify(condition: string, checkLabel: Option<string>, onFailure: string)
    | DynamicDispatch(dispatch: string, timeout: nat)
    | CapabilityDispatch(capabilities: seq<string>, fallback: Option<nat>, timeout: nat)
    | AgentLoop(body: nat, maxIterations: nat, injectHistory: bool, timeout: nat)
    | Judge(judge: nat, rubric: string, threshold: Option<real>, onFailure: string, timeout: nat)
    | InlineJudge(verdict: string, threshold: Option<real>, onFailure: string)
    | Ensemble(child: nat, count: nat, consensus: string, scorer: Option<nat>, timeout: nat)
    | ConfidenceGate(level: real, path: string, onLow: string)
    | ReActLoop(body: nat, maxIterations: nat, injectHistory: bool, timeout: nat)
    | ReflectiveRetry(child: nat, reflection: nat, maxRetries: nat, timeout: nat)
    | LlmDispatch(classifier: nat, routes: map<string, nat>, fallback: Option<nat>, timeout: nat)

  datatype Tag =
    | WaitTag | SubWorkflowTag | LoopTag | WhileLoopTag | RepeatLoopTag | FanInTag | ErrorHandlerTag
    | CollectTag | SynthesizeTag | VerifyTag | DispatchTag | CapabilityTag | AgentLoopTag
    | JudgeTag | InlineJudgeTag | EnsembleTag | GateTag | ReflectiveTag | LlmDispatchTag | ReActTag

  /** The numbers fit the source's 32- and 64-bit fields. */
  predicate Sized(k: Kind) {
    match k
    case WhileLoop(_, m) => m < U32
    case RepeatLoop(c) => c < U32
    case FanInKind(j, _) => j.AtLeast? ==> j.n < U32
    case SubWorkflow(_, t) => t < U64
    case Loop(m, _) => m < U32
    case DynamicDispatch(_, t) => t < U64
    case CapabilityDispatch(_, _, t) => t < U64
    case AgentLoop(_, m, _, t) => m < U32 && t < U64
    case Judge(_, _, _, _, t) => t < U64
    case Ensemble(_, c, _, _, t) => c < U32 && t < U64
    case ReActLoop(_, m, _, t) => m < U32 && t < U64
    case ReflectiveRetry(_, _, m, t) => m < U32 && t < U64
    case LlmDispatch(_, _, _, t) => t < U64
    case _ => true
  }

  // ----- encoding -----

  function JoinJson(j: JoinMode): Json {
    match j
    case All => Text("All")
    case Any => Text("Any")
    case Majority => Text("Majority")
    case AtLeast(n) => Object(map["N" := Whole(n)])
  }

  function OptionalField(key: string, o: Option<string>): Json {
    if o.Some? then Object(map[key := Text(o.value)]) else Object(map[])
  }

  function TagFor(k: Kind): Tag {
    match k
    case Wait(_) => WaitTag
    case SubWorkflow(_, _) => SubWorkflowTag
    case Loop(_, _) => LoopTag
    case WhileLoop(_, _) => WhileLoopTag
    case RepeatLoop(_) => RepeatLoopTag
    case FanInKind(_, _) => FanInTag
    case ErrorHandler(_) => ErrorHandlerTag
    case Collect => CollectTag
    case Synthesize(_) => SynthesizeTag
    case Verify(_, _, _) => VerifyTag
    case DynamicDispatch(_, _) => DispatchTag
    case CapabilityDispatch(_, _, _) => CapabilityTag
    case AgentLoop(_, _, _, _) => AgentLoopTag
    case Judge(_, _, _, _, _) => JudgeTag
    case InlineJudge(_, _, _) => InlineJudgeTag
    case Ensemble(_, _, _, _, _) => EnsembleTag
    case ConfidenceGate(_, _, _) => GateTag
    case ReflectiveRetry(_, _, _, _) => ReflectiveTag
    case LlmDispatch(_, _, _, _) => LlmDispatchTag
    case ReActLoop(_, _, _, _) => ReActTag
  }

  /** The kind string the builder writes. */
  function Name(tag: Tag): string {
    match tag
    case WaitTag => "wait"
    case SubWorkflowTag => "sub_workflow"
    case LoopTag => "loop"
    case WhileLoopTag => "while_loop"
    case RepeatLoopTag => "repeat_loop"
    case FanInTag => "fan_in"
    case ErrorHandlerTag => "error_handler"
    case CollectTag => "collect"
    case SynthesizeTag => "synthesize"
    case VerifyTag => "verify"
    case DispatchTag => "dispatch"
    case CapabilityTag => "capability_dispatch"
    case AgentLoopTag => "agent_loop"
    case JudgeTag => "judge"
    case InlineJudgeTag => "inline_judge"
    case EnsembleTag => "ensemble"
    case GateTag => "confidence_gate"
    case ReflectiveTag => "reflective_retry"
    case LlmDispatchTag => "llm_dispatch"
    case ReActTag => "react_loop"
  }

  function Data(c: Uuids, k: Kind): Json {
    match k
    case Wait(m) => OptionalField("message", m)
    case WhileLoop(cond, m) => Object(map["condition" := Text(cond), "max_iterations" := Whole(m)])
    case RepeatLoop(n) => Object(map["count" := Whole(n)])
    case ErrorHandler(p) => OptionalField("error_pattern", p)
    case FanInKind(j, a) =>
      if a.Some? then Object(map["join_mode" := JoinJson(j), "aggregation_expr" := Text(a.value)])
      else Object(map["join_mode" := JoinJson(j)])
    case SubWorkflow(u, t) => Object(map["sub_workflow_id" := Text(c.print_(u)), "timeout_secs" := Whole(t)])
    case Loop(m, cond) => Object(map["max_iterations" := Whole(m), "condition" := Text(cond)])
    case Collect => Object(map[])
    case Synthesize(e) => OptionalField("synthesis_expr", e)
    case Verify(cond, l, f) =>
      Object(map["condition" := Text(cond), "check_label" := TextOrNull(l), "on_failure" := Text(f)])
    case DynamicDispatch(d, t) => Object(map["dispatch_expression" := Text(d), "timeout_secs" := Whole(t)])
    case CapabilityDispatch(caps, f, t) =>
      Object(map["required_capabilities" := List(Texts(caps)),
                 "fallback_workflow_id" := UuidOrNull(c, f), "timeout_secs" := Whole(t)])
    case AgentLoop(b, m, h, t) => LoopData(c, b, m, h, t)
    case Judge(j, r, p, f, t) =>
      Object(map["judge_workflow_id" := Text(c.print_(j)), "rubric" := Text(r), "pass_threshold" := RealOrNull(p),
                 "on_failure" := Text(f), "timeout_secs" := Whole(t)])
    case InlineJudge(v, p, f) =>
      Object(map["verdict_expr" := Text(v), "pass_threshold" := RealOrNull(p), "on_failure" := Text(f)])
    case Ensemble(u, n, s, j, t) =>
      Object(map["child_workflow_id" := Text(c.print_(u)), "count" := Whole(n), "consensus" := Text(s),
                 "judge_workflow_id" := UuidOrNull(c, j), "timeout_secs" := Whole(t)])
    case ConfidenceGate(l, p, o) =>
      Object(map["threshold" := Real(l), "confidence_path" := Text(p), "on_low_confidence" := Text(o)])
    case ReActLoop(b, m, h, t) => LoopData(c, b, m, h, t)
    case ReflectiveRetry(u, r, m, t) =>
      Object(map["child_workflow_id" := Text(c.print_(u)), "reflection_workflow_id" := Text(c.print_(r)),
                 "max_retries" := Whole(m), "timeout_secs" := Whole(t)])
    case LlmDispatch(u, routes, f, t) =>
      Object(map["classifier_workflow_id" := Text(c.print_(u)), "routes" := RoutesJson(c, routes),
                 "fallback_workflow_id" := UuidOrNull(c, f), "timeout_secs" := Whole(t)])
  }

  function LoopData(c: Uuids, body: nat, iterations: nat, history: bool, timeout: nat): Json {
    Object(map["body_workflow_id" := Text(c.print_(body)), "max_iterations" := Whole(iterations),
               "inject_history" := Bool(history), "timeout_secs" := Whole(timeout)])
  }

  function Texts(s: seq<string>): seq<Json> {
    if s == [] then [] else [Text(s[0])] + Texts(s[1..])
  }

  function RoutesJson(c: Uuids, routes: map<string, nat>): Json {
    Object(map r | r in routes :: Text(c.print_(routes[r])))
  }

  // ----- decoding -----

  /** The derived decoder of `JoinMode`: a bare name, or an object with one variant. */
  function JoinFrom(j: Json): Option<JoinMode> {
    match j
    case Text(s) => UnitMode(s)
    case Object(fields) =>
      if |fields| != 1 then None
      else if "N" in fields then
        (if fields["N"].Whole? && fields["N"].n < U32 then Some(AtLeast(fields["N"].n)) else None)
      else if "All" in fields then (if fields["All"].Null? then Some(All) else None)
      else if "Any" in fields then (if fields["Any"].Null? then Some(Any) else None)
      else if "Majority" in fields then (if fields["Majority"].Null? then Some(Majority) else None)
      else None
    case _ => None
  }

  function UnitMode(s: string): Option<JoinMode> {
    if s == "All" then Some(All) else if s == "Any" then Some(Any) else if s == "Majority" then Some(Majority) else None
  }

  function JoinOf(j: Option<Json>): JoinMode {
    if j.None? then All else Or(JoinFrom(j.value), All)
  }

  /** The strings of a list; anything else in it is dropped. */
  function Strings(items: seq<Json>): seq<string> {
    if items == [] then []
    else (if items[0].Text? then [items[0].s] else []) + Strings(items[1..])
  }

  function RoutesFrom(c: Uuids, j: Option<Json>): map<string, nat> {
    if j.Some? && j.value.Object? then
      map r | r in j.value.fields && AsUuid(c, Some(j.value.fields[r])).Some? ::
          AsUuid(c, Some(j.value.fields[r])).value
    else map[]
  }

  /** `data.get(key)?.as_u64()` with a default. */
  function Number(d: Json, key: string, default: nat): nat {
    Or(AsU64(Get(d, key)), default)
  }

  function TextField(d: Json, key: string, default: string): string {
    Or(AsText(Get(d, key)), default)
  }

  /** An identifier with the nil identifier as its default. */
  function UuidField(c: Uuids, d: Json, key: string): nat {
    Or(AsUuid(c, Get(d, key)), NIL)
  }

  /** The branch of the decoder a kind string selects; an unknown string selects none. */
  function TagOf(name: string): Option<Tag> {
    if name == "wait" then Some(WaitTag)
    else if name == "sub_workflow" then Some(SubWorkflowTag)
    else if name == "loop" then Some(LoopTag)
    else if name == "while_loop" then Some(WhileLoopTag)
    else if name == "repeat_loop" then Some(RepeatLoopTag)
    else if name == "fan_in" then Some(FanInTag)
    else if name == "error_handler" then Some(ErrorHandlerTag)
    else if name == "collect" then Some(CollectTag)
    else if name == "synthesize" then Some(SynthesizeTag)
    else if name == "verify" then Some(VerifyTag)
    else if name == "dispatch" then Some(DispatchTag)
    else if name == "capability_dispatch" then Some(CapabilityTag)
    else AgentTagOf(name)
  }

  function AgentTagOf(name: string): Option<Tag> {
    if name == "agent_loop" then Some(AgentLoopTag)
    else if name == "judge" then Some(JudgeTag)
    else if name == "inline_judge" then Some(InlineJudgeTag)
    else if name == "ensemble" then Some(EnsembleTag)
    else if name == "confidence_gate" then Some(GateTag)
    else if name == "reflective_retry" then Some(ReflectiveTag)
    else if name == "llm_dispatch" then Some(LlmDispatchTag)
    else if name == "react_loop" then Some(ReActTag)
    else None
  }

  /** Decode kind `name` from a node's `data`, which is None when the node has none. */
  function Decode(c: Uuids, name: string, data: Option<Json>): Option<Kind> {
    var tag := TagOf(name);
    if tag.None? then None else DecodeAs(c, tag.value, Or(data, Null))
  }

  function DecodeAs(c: Uuids, tag: Tag, d: Json): Option<Kind> {
    match tag
    case WaitTag => Some(Wait(AsText(Get(d, "message"))))
    case SubWorkflowTag =>
      var u := AsUuid(c, Get(d, "sub_workflow_id"));
      if u.None? then None else Some(SubWorkflow(u.value, Number(d, "timeout_secs", 30)))
    case LoopTag =>
      var cond := AsText(Get(d, "condition"));
      if cond.None? then None else Some(Loop(AtMost(Number(d, "max_iterations", 10), 100), cond.value))
    case WhileLoopTag =>
      var cond := AsText(Get(d, "condition"));
      if cond.None? then None else Some(WhileLoop(cond.value, AtMost(Number(d, "max_iterations", 10), 100)))
    case RepeatLoopTag => Some(RepeatLoop(AtMost(Number(d, "count", 1), U32 - 1)))
    case FanInTag => Some(FanInKind(JoinOf(Get(d, "join_mode")), AsText(Get(d, "aggregation_expr"))))
    case ErrorHandlerTag => Some(ErrorHandler(AsText(Get(d, "error_pattern"))))
    case CollectTag => Some(Collect)
    case SynthesizeTag => Some(Synthesize(AsText(Get(d, "synthesis_expr"))))
    case VerifyTag =>
      var cond := AsText(Get(d, "condition"));
      if cond.None? then None
      else Some(Verify(cond.value, AsText(Get(d, "check_label")), TextField(d, "on_failure", "error")))
    case DispatchTag =>
      var e := AsText(Get(d, "dispatch_expression"));
      if e.None? then None else Some(DynamicDispatch(e.value, Number(d, "timeout_secs", 30)))
    case CapabilityTag =>
      var list := Get(d, "required_capabilities");
      if list.None? || !list.value.List? || Strings(list.value.items) == [] then None
      else Some(CapabilityDispatch(Strings(list.value.items), AsUuid(c, Get(d, "fallback_workflow_id")),
                                   Number(d, "timeout_secs", 30)))
    case AgentLoopTag =>
      var b := AsUuid(c, Get(d, "body_workflow_id"));
      if b.None? then None
      else Some(AgentLoop(b.value, AtMost(Number(d, "max_iterations", 10), 50),
                          Or(AsBool(Get(d, "inject_history")), true), Number(d, "timeout_secs", 60)))
    case JudgeTag =>
      Some(Judge(UuidField(c, d, "judge_workflow_id"), TextField(d, "rubric", ""),
                 AsReal(Get(d, "pass_threshold")), TextField(d, "on_failure", "error"), Number(d, "timeout_secs", 60)))
    case InlineJudgeTag =>
      var v := TextField(d, "verdict_expr", "");
      if v == "" then None
      else Some(InlineJudge(v, AsReal(Get(d, "pass_threshold")), TextField(d, "on_failure", "error")))
    case EnsembleTag =>
      Some(Ensemble(UuidField(c, d, "child_workflow_id"), Between(Number(d, "count", 3), 2, 10),
                    TextField(d, "consensus", "majority_vote"), AsUuid(c, Get(d, "judge_workflow_id")),
                    Number(d, "timeout_secs", 60)))
    case GateTag =>
      Some(ConfidenceGate(UnitInterval(Or(AsReal(Get(d, "threshold")), 0.7)),
                          TextField(d, "confidence_path", "__confidence__"),
                          TextField(d, "on_low_confidence", "pause")))
    case ReflectiveTag =>
      Some(ReflectiveRetry(UuidField(c, d, "child_workflow_id"), UuidField(c, d, "reflection_workflow_id"),
                           Between(Number(d, "max_retries", 2), 1, 5), Number(d, "timeout_secs", 60)))
    case LlmDispatchTag =>
      Some(LlmDispatch(UuidField(c, d, "classifier_workflow_id"), RoutesFrom(c, Get(d, "routes")),
                       AsUuid(c, Get(d, "fallback_workflow_id")), Number(d, "timeout_secs", 60)))
    case ReActTag =>
      var b := AsUuid(c, Get(d, "body_workflow_id"));
      if b.None? then None
      else Some(ReActLoop(b.value, AtMost(Number(d, "max_iterations", 10), 50),
                          Or(AsBool(Get(d, "inject_history")), true), Number(d, "timeout_secs", 60)))
  }

  // ----- the round trip -----

  /** The fields as the decoder bounds them. */
  function Clamp(k: Kind): Kind {
    match k
    case WhileLoop(cond, m) => WhileLoop(cond, AtMost(m, 100))
    case Loop(m, cond) => Loop(AtMost(m, 100), cond)
    case AgentLoop(b, m, h, t) => AgentLoop(b, AtMost(m, 50), h, t)
    case ReActLoop(b, m, h, t) => ReActLoop(b, AtMost(m, 50), h, t)
    case Ensemble(u, n, s, j, t) => Ensemble(u, Between(n, 2, 10), s, j, t)
    case ReflectiveRetry(u, r, m, t) => ReflectiveRetry(u, r, Between(m, 1, 5), t)
    case ConfidenceGate(l, p, o) => ConfidenceGate(UnitInterval(l), p, o)
    case _ => k
  }

  /** The two kinds the decoder turns away. */
  predicate Rejected(k: Kind) {
    || (k.CapabilityDispatch? && k.capabilities == [])
    || (k.InlineJudge? && k.verdict == "")
  }

  lemma {:induction false} StringsOfTexts(s: seq<string>)
    ensures Strings(Texts(s)) == s
  {
    if s != [] { StringsOfTexts(s[1..]); }
  }

  lemma JoinRoundTrip(j: JoinMode)
    requires j.AtLeast? ==> j.n < U32
    ensures JoinOf(Some(JoinJson(j))) == j
  {
  }

  lemma RoutesRoundTrip(c: Uuids, routes: map<string, nat>)
    requires Lawful(c)
    ensures RoutesFrom(c, Some(RoutesJson(c, routes))) == routes
  {
  }

  predicate IsAgentTag(tag: Tag) {
    || tag.AgentLoopTag? || tag.ReActTag? || tag.JudgeTag? || tag.InlineJudgeTag? || tag.EnsembleTag?
    || tag.GateTag? || tag.ReflectiveTag? || tag.LlmDispatchTag?
  }

  lemma AgentTagOfName(tag: Tag)
    requires IsAgentTag(tag)
    ensures AgentTagOf(Name(tag)) == Some(tag)
  {
  }

  lemma AgentNameIsNoCoreName(tag: Tag)
    requires IsAgentTag(tag)
    ensures TagOf(Name(tag)) == AgentTagOf(Name(tag))
  {
    hide AgentTagOf;
  }

  lemma CoreTagOfName(tag: Tag)
    requires !IsAgentTag(tag)
    ensures TagOf(Name(tag)) == Some(tag)
  {
    hide AgentTagOf;
  }

  lemma TagOfName(tag: Tag)
    ensures TagOf(Name(tag)) == Some(tag)
  {
    hide TagOf, AgentTagOf, Name;
    if IsAgentTag(tag) {
      AgentTagOfName(tag);
      AgentNameIsNoCoreName(tag);
    } else {
      CoreTagOfName(tag);
    }
  }

  lemma NameOfAgentTag(name: string)
    ensures AgentTagOf(name).Some? ==> Name(AgentTagOf(name).value) == name
  {
  }

  lemma NameOfTag(name: string)
    ensures TagOf(name).Some? ==> Name(TagOf(name).value) == name
  {
    NameOfAgentTag(name);
    hide AgentTagOf;
  }

  predicate IsControl(k: Kind) {
    k.Wait? || k.RepeatLoop? || k.ErrorHandler? || k.Collect? || k.Synthesize?
  }

  predicate IsLoop(k: Kind) {
    k.WhileLoop? || k.Loop? || k.FanInKind?
  }

  predicate IsCheck(k: Kind) {
    k.Verify? || k.DynamicDispatch? || k.ConfidenceGate?
  }

  lemma ControlRoundTrip(c: Uuids, k: Kind)
    requires Sized(k) && IsControl(k)
    ensures DecodeAs(c, TagFor(k), Data(c, k)) == Some(Clamp(k))
  {
  }

  lemma LoopRoundTrip(c: Uuids, k: Kind)
    requires Sized(k) && IsLoop(k)
    ensures DecodeAs(c, TagFor(k), Data(c, k)) == Some(Clamp(k))
  {
    match k
    case FanInKind(j, _) => JoinRoundTrip(j);
    case _ =>
  }

  lemma CheckRoundTrip(c: Uuids, k: Kind)
    requires Sized(k) && IsCheck(k)
    ensures DecodeAs(c, TagFor(k), Data(c, k)) == Some(Clamp(k))
  {
    hide Strings, Texts, RoutesFrom, RoutesJson, JoinOf, JoinJson, JoinFrom;
  }

  lemma JudgeRoundTrip(c: Uuids, k: Kind)
    requires Lawful(c) && Sized(k) && k.Judge?
    ensures DecodeAs(c, TagFor(k), Data(c, k)) == Some(Clamp(k))
  {
    hide Strings, Texts, RoutesFrom, RoutesJson, JoinOf, JoinJson, JoinFrom;
  }

  lemma InlineJudgeRoundTrip(c: Uuids, k: Kind)
    requires Sized(k) && k.InlineJudge?
    ensures DecodeAs(c, TagFor(k), Data(c, k)) == if Rejected(k) then None else Some(Clamp(k))
  {
    hide Strings, Texts, RoutesFrom, RoutesJson, JoinOf, JoinJson, JoinFrom;
  }

  lemma SubWorkflowRoundTrip(c: Uuids, k: Kind)
    requires Lawful(c) && Sized(k) && k.SubWorkflow?
    ensures DecodeAs(c, TagFor(k), Data(c, k)) == Some(Clamp(k))
  {
    hide Strings, Texts, RoutesFrom, RoutesJson, JoinOf, JoinJson, JoinFrom;
  }

  lemma BodyRoundTrip(c: Uuids, k: Kind)
    requires Lawful(c) && Sized(k) && (k.AgentLoop? || k.ReActLoop?)
    ensures DecodeAs(c, TagFor(k), Data(c, k)) == Some(Clamp(k))
  {
    hide Strings, Texts, RoutesFrom, RoutesJson, JoinOf, JoinJson, JoinFrom;
  }

  lemma EnsembleRoundTrip(c: Uuids, k: Kind)
    requires Lawful(c) && Sized(k) && k.Ensemble?
    ensures DecodeAs(c, TagFor(k), Data(c, k)) == Some(Clamp(k))
  {
    hide Strings, Texts, RoutesFrom, RoutesJson, JoinOf, JoinJson, JoinFrom;
  }

  lemma ReflectiveRoundTrip(c: Uuids, k: Kind)
    requires Lawful(c) && Sized(k) && k.ReflectiveRetry?
    ensures DecodeAs(c, TagFor(k), Data(c, k)) == Some(Clamp(k))
  {
    hide Strings, Texts, RoutesFrom, RoutesJson, JoinOf, JoinJson, JoinFrom;
  }

  lemma CapabilityRoundTrip(c: Uuids, k: Kind)
    requires Lawful(c) && Sized(k) && k.CapabilityDispatch?
    ensures DecodeAs(c, TagFor(k), Data(c, k)) == if Rejected(k) then None else Some(Clamp(k))
  {
    StringsOfTexts(k.capabilities);
    hide Strings, Texts, RoutesFrom, RoutesJson, JoinOf, JoinJson, JoinFrom;
  }

  lemma RouterRoundTrip(c: Uuids, k: Kind)
    requires Lawful(c) && Sized(k) && k.LlmDispatch?
    ensures DecodeAs(c, TagFor(k), Data(c, k)) == Some(Clamp(k))
  {
    RoutesRoundTrip(c, k.routes);
    hide Strings, Texts, RoutesFrom, RoutesJson, JoinOf, JoinJson, JoinFrom;
  }

  /** Encoding a kind and decoding the result gives the kind back with its fields clamped; it
      gives nothing exactly for an empty capability list and an empty verdict expression. */
  lemma KindRoundTrip(c: Uuids, k: Kind)
    requires Lawful(c) && Sized(k)
    ensures Decode(c, Name(TagFor(k)), Some(Data(c, k))) == if Rejected(k) then None else Some(Clamp(k))
  {
    hide DecodeAs, Data, Clamp, Sized, Name, TagOf;
    TagOfName(TagFor(k));
    if IsControl(k) { ControlRoundTrip(c, k); }
    else if IsLoop(k) { LoopRoundTrip(c, k); }
    else if IsCheck(k) { CheckRoundTrip(c, k); }
    else if k.CapabilityDispatch? { CapabilityRoundTrip(c, k); }
    else if k.LlmDispatch? { RouterRoundTrip(c, k); }
    else if k.Judge? { JudgeRoundTrip(c, k); }
    else if k.InlineJudge? { InlineJudgeRoundTrip(c, k); }
    else if k.SubWorkflow? { SubWorkflowRoundTrip(c, k); }
    else if k.AgentLoop? || k.ReActLoop? { BodyRoundTrip(c, k); }
    else if k.Ensemble? { EnsembleRoundTrip(c, k); }
    else { ReflectiveRoundTrip(c, k); }
  }

  ghost predicate InBounds(k: Option<Kind>, tag: Tag) {
    k.Some? ==> Sized(k.value) && !Rejected(k.value) && Clamp(k.value) == k.value && TagFor(k.value) == tag
  }

  lemma DecodedDispatchIsClamped(c: Uuids, tag: Tag, d: Json)
    requires tag.GateTag? || tag.ReflectiveTag? || tag.LlmDispatchTag? || tag.EnsembleTag?
    ensures InBounds(DecodeAs(c, tag, d), tag)
  {
    NumbersFit(d);
    hide Get, AsText, AsUuid, AsReal, AsBool, Number, Strings, RoutesFrom, UuidField;
  }

  lemma DecodedAgentIsClamped(c: Uuids, tag: Tag, d: Json)
    requires tag.AgentLoopTag? || tag.ReActTag? || tag.JudgeTag? || tag.InlineJudgeTag?
    ensures InBounds(DecodeAs(c, tag, d), tag)
  {
    NumbersFit(d);
    hide Get, AsText, AsUuid, AsReal, AsBool, Number, Strings, RoutesFrom, UuidField;
  }

  lemma DecodedCoreIsClamped(c: Uuids, tag: Tag, d: Json)
    requires !IsAgentTag(tag)
    ensures InBounds(DecodeAs(c, tag, d), tag)
  {
    NumbersFit(d);
    JoinFits(Get(d, "join_mode"));
    hide Get, AsText, AsUuid, AsReal, AsBool, Number, Strings, RoutesFrom, JoinOf;
  }

  /** What the decoder produces is sized and within its own bounds. */
  lemma DecodedIsClamped(c: Uuids, tag: Tag, d: Json)
    ensures InBounds(DecodeAs(c, tag, d), tag)
  {
    hide DecodeAs, InBounds;
    if !IsAgentTag(tag) { DecodedCoreIsClamped(c, tag, d); }
    else if tag.GateTag? || tag.ReflectiveTag? || tag.LlmDispatchTag? || tag.EnsembleTag? {
      DecodedDispatchIsClamped(c, tag, d);
    } else { DecodedAgentIsClamped(c, tag, d); }
  }

  lemma NumbersFit(d: Json)
    ensures forall key, default: nat | default < U64 :: Number(d, key, default) < U64
  {
  }

  lemma JoinFits(j: Option<Json>)
    ensures JoinOf(j).AtLeast? ==> JoinOf(j).n < U32
  {
  }

  /** On everything the decoder can produce, encoding and decoding again changes nothing. */
  lemma DecodeEncodeIsIdentity(c: Uuids, name: string, data: Option<Json>)
    requires Lawful(c) && Decode(c, name, data).Some?
    ensures var k := Decode(c, name, data).value;
            Name(TagFor(k)) == name && Decode(c, name, Some(Data(c, k))) == Some(k)
  {
    hide DecodeAs, Data, Clamp, Sized, Name, TagOf, TagFor;
    NameOfTag(name);
    DecodedIsClamped(c, TagOf(name).value, Or(data, Null));
    KindRoundTrip(c, Decode(c, name, data).value);
  }
}
