/** What a node's `data` says about its system node kind, field by field, and that the decoder
    reads exactly that. */
module KindFields {
  import opened Graphs
  import opened FanIn
  import opened Json
  import opened Kinds

  // ----- fields -----

  /** The field `key` of d is v. */
  predicate Says(d: Json, key: string, v: Json) {
    d.Object? && key in d.fields && d.fields[key] == v
  }

  ghost predicate TextAt(d: Json, key: string, o: Option<string>) {
    forall s :: o == Some(s) <==> Says(d, key, Text(s))
  }

  ghost predicate TextOr(d: Json, key: string, default: string, t: string) {
    Says(d, key, Text(t)) || (t == default && forall s :: !Says(d, key, Text(s)))
  }

  ghost predicate NumberOr(d: Json, key: string, default: nat, n: nat) {
    || (Says(d, key, Whole(n)) && n <= 18_446_744_073_709_551_615)
    || (n == default && forall m: nat | m <= 18_446_744_073_709_551_615 :: !Says(d, key, Whole(m)))
  }

  ghost predicate FlagOr(d: Json, key: string, default: bool, b: bool) {
    Says(d, key, Bool(b)) || (b == default && !Says(d, key, Bool(!b)))
  }

  /** The field is a number with the value r, whole or not. */
  ghost predicate IsReal(d: Json, key: string, r: real) {
    Says(d, key, Real(r)) || exists n: nat :: n as real == r && Says(d, key, Whole(n))
  }

  ghost predicate RealAt(d: Json, key: string, o: Option<real>) {
    forall r :: o == Some(r) <==> IsReal(d, key, r)
  }

  ghost predicate RealOr(d: Json, key: string, default: real, r: real) {
    IsReal(d, key, r) || (r == default && forall x :: !IsReal(d, key, x))
  }

  /** The field is a text that parses to the identifier u. */
  ghost predicate IsId(c: Uuids, d: Json, key: string, u: nat) {
    exists s :: Says(d, key, Text(s)) && c.parse(s) == Some(u)
  }

  ghost predicate IdAt(c: Uuids, d: Json, key: string, o: Option<nat>) {
    forall u: nat :: o == Some(u) <==> IsId(c, d, key, u)
  }

  ghost predicate IdOrNil(c: Uuids, d: Json, key: string, u: nat) {
    IsId(c, d, key, u) || (u == 0 && forall x: nat :: !IsId(c, d, key, x))
  }

  /** m is n if n lies between the two bounds, and else the bound on its side. */
  ghost predicate Nearest(n: nat, low: nat, high: nat, m: nat) {
    low <= m <= high && (low <= n <= high ==> m == n) && (n < low ==> m == low) && (n > high ==> m == high)
  }

  /** The number of the field, or the default, brought between the two bounds. */
  ghost predicate NearestAt(d: Json, key: string, default: nat, low: nat, high: nat, m: nat) {
    exists n: nat :: NumberOr(d, key, default, n) && Nearest(n, low, high, m)
  }

  /** `texts` are the texts of the list, in order. */
  ghost predicate TextsOf(items: seq<Json>, texts: seq<string>, at: seq<nat>) {
    && |at| == |texts|
    && (forall i, j | 0 <= i < j < |at| :: at[i] < at[j])
    && (forall i | 0 <= i < |at| :: at[i] < |items| && items[at[i]] == Text(texts[i]))
    && forall k | 0 <= k < |items| && items[k].Text? :: k in at
  }

  ghost predicate CapabilitiesAt(d: Json, caps: seq<string>) {
    exists items, at :: Says(d, "required_capabilities", List(items)) && TextsOf(items, caps, at)
  }

  ghost predicate IsRoute(c: Uuids, d: Json, r: string, u: nat) {
    exists f, s :: Says(d, "routes", Object(f)) && r in f && f[r] == Text(s) && c.parse(s) == Some(u)
  }

  ghost predicate RoutesAt(c: Uuids, d: Json, routes: map<string, nat>) {
    forall r, u: nat :: (r in routes && routes[r] == u) <==> IsRoute(c, d, r, u)
  }

  /** A join mode by its name alone, or as the one key of an object. */
  predicate NamesJoin(d: Json, j: JoinMode) {
    match j
    case Any => Says(d, "join_mode", Text("Any")) || Says(d, "join_mode", Object(map["Any" := Null]))
    case Majority => Says(d, "join_mode", Text("Majority")) || Says(d, "join_mode", Object(map["Majority" := Null]))
    case AtLeast(n) => n <= 4_294_967_295 && Says(d, "join_mode", Object(map["N" := Whole(n)]))
    case All => Says(d, "join_mode", Text("All")) || Says(d, "join_mode", Object(map["All" := Null]))
  }

  /** What names no join mode is read as "All". */
  ghost predicate JoinAt(d: Json, j: JoinMode) {
    NamesJoin(d, j) || (j.All? && forall other :: !NamesJoin(d, other))
  }

  // ----- kinds -----

  /** A kind string and data that describe the kind k. */
  ghost predicate Describes(c: Uuids, name: string, d: Json, k: Kind) {
    match k
    case Wait(m) => name == "wait" && TextAt(d, "message", m)
    case WhileLoop(cond, m) =>
      name == "while_loop" && Says(d, "condition", Text(cond)) && IterationsAt(d, 100, m)
    case Loop(m, cond) =>
      name == "loop" && Says(d, "condition", Text(cond)) && IterationsAt(d, 100, m)
    case RepeatLoop(m) =>
      name == "repeat_loop" && NearestAt(d, "count", 1, 0, 4_294_967_295, m)
    case ErrorHandler(p) => name == "error_handler" && TextAt(d, "error_pattern", p)
    case FanInKind(j, a) => name == "fan_in" && JoinAt(d, j) && TextAt(d, "aggregation_expr", a)
    case SubWorkflow(u, t) => name == "sub_workflow" && IsId(c, d, "sub_workflow_id", u) && TimeoutAt(d, 30, t)
    case Collect => name == "collect"
    case Synthesize(e) => name == "synthesize" && TextAt(d, "synthesis_expr", e)
    case Verify(cond, l, f) =>
      && name == "verify" && Says(d, "condition", Text(cond)) && TextAt(d, "check_label", l)
      && TextOr(d, "on_failure", "error", f)
    case DynamicDispatch(e, t) =>
      name == "dispatch" && Says(d, "dispatch_expression", Text(e)) && TimeoutAt(d, 30, t)
    case CapabilityDispatch(caps, f, t) =>
      && name == "capability_dispatch" && caps != [] && CapabilitiesAt(d, caps)
      && IdAt(c, d, "fallback_workflow_id", f) && TimeoutAt(d, 30, t)
    case AgentLoop(b, m, h, t) => name == "agent_loop" && BodyAt(c, d, b, m, h, t)
    case ReActLoop(b, m, h, t) => name == "react_loop" && BodyAt(c, d, b, m, h, t)
    case Judge(j, r, p, f, t) =>
      && name == "judge" && IdOrNil(c, d, "judge_workflow_id", j) && TextOr(d, "rubric", "", r)
      && RealAt(d, "pass_threshold", p) && TextOr(d, "on_failure", "error", f) && TimeoutAt(d, 60, t)
    case InlineJudge(v, p, f) =>
      && name == "inline_judge" && v != "" && Says(d, "verdict_expr", Text(v))
      && RealAt(d, "pass_threshold", p) && TextOr(d, "on_failure", "error", f)
    case Ensemble(u, m, s, j, t) =>
      && name == "ensemble" && IdOrNil(c, d, "child_workflow_id", u)
      && NearestAt(d, "count", 3, 2, 10, m)
      && TextOr(d, "consensus", "majority_vote", s) && IdAt(c, d, "judge_workflow_id", j) && TimeoutAt(d, 60, t)
    case ConfidenceGate(l, p, o) =>
      && name == "confidence_gate" && LevelAt(d, l)
      && TextOr(d, "confidence_path", "__confidence__", p) && TextOr(d, "on_low_confidence", "pause", o)
    case ReflectiveRetry(u, r, m, t) =>
      && name == "reflective_retry" && IdOrNil(c, d, "child_workflow_id", u)
      && IdOrNil(c, d, "reflection_workflow_id", r)
      && NearestAt(d, "max_retries", 2, 1, 5, m) && TimeoutAt(d, 60, t)
    case LlmDispatch(u, routes, f, t) =>
      && name == "llm_dispatch" && IdOrNil(c, d, "classifier_workflow_id", u) && RoutesAt(c, d, routes)
      && IdAt(c, d, "fallback_workflow_id", f) && TimeoutAt(d, 60, t)
  }

  ghost predicate TimeoutAt(d: Json, default: nat, t: nat) {
    NumberOr(d, "timeout_secs", default, t)
  }

  /** Ten iterations unless the field says otherwise, and no more than the cap. */
  ghost predicate IterationsAt(d: Json, cap: nat, m: nat) {
    NearestAt(d, "max_iterations", 10, 0, cap, m)
  }

  ghost predicate BodyAt(c: Uuids, d: Json, b: nat, m: nat, h: bool, t: nat) {
    && IsId(c, d, "body_workflow_id", b) && IterationsAt(d, 50, m) && FlagOr(d, "inject_history", true, h)
    && TimeoutAt(d, 60, t)
  }

  /** Seven tenths unless the field says otherwise, and between zero and one. */
  ghost predicate LevelAt(d: Json, l: real) {
    exists r ::
      && RealOr(d, "threshold", 0.7, r) && 0.0 <= l <= 1.0
      && (0.0 <= r <= 1.0 ==> l == r) && (r < 0.0 ==> l == 0.0) && (r > 1.0 ==> l == 1.0)
  }

  // ----- the decoder reads fields -----

  lemma TextReads(d: Json, key: string, o: Option<string>)
    ensures TextAt(d, key, o) <==> o == AsText(Get(d, key))
  {
    var text := AsText(Get(d, key));
    assert forall s :: text == Some(s) <==> Says(d, key, Text(s));
  }

  lemma RequiredReads(d: Json, key: string, t: string)
    ensures Says(d, key, Text(t)) <==> AsText(Get(d, key)) == Some(t)
  {
  }

  lemma TextOrReads(d: Json, key: string, default: string, t: string)
    ensures TextOr(d, key, default, t) <==> t == TextField(d, key, default)
  {
    assert forall s :: AsText(Get(d, key)) == Some(s) <==> Says(d, key, Text(s));
  }

  lemma NumberReads(d: Json, key: string, default: nat, n: nat)
    ensures NumberOr(d, key, default, n) <==> n == Number(d, key, default)
  {
    assert forall m: nat :: AsU64(Get(d, key)) == Some(m) <==> Says(d, key, Whole(m)) && m < U64;
  }

  lemma FlagReads(d: Json, key: string, default: bool, b: bool)
    ensures FlagOr(d, key, default, b) <==> b == Or(AsBool(Get(d, key)), default)
  {
  }

  lemma RealIs(d: Json, key: string, r: real)
    ensures IsReal(d, key, r) <==> AsReal(Get(d, key)) == Some(r)
  {
    var j := Get(d, key);
    if j.Some? && j.value.Whole? && AsReal(j) == Some(r) { assert Says(d, key, Whole(j.value.n)); }
  }

  lemma RealReads(d: Json, key: string, o: Option<real>)
    ensures RealAt(d, key, o) <==> o == AsReal(Get(d, key))
  {
    hide IsReal;
    var number := AsReal(Get(d, key));
    forall r ensures IsReal(d, key, r) <==> number == Some(r) { RealIs(d, key, r); }
    if o.Some? { assert IsReal(d, key, o.value) <==> number == o; }
  }

  lemma LevelReads(d: Json, l: real)
    ensures LevelAt(d, l) <==> l == UnitInterval(Or(AsReal(Get(d, "threshold")), 0.7))
  {
    hide IsReal;
    forall r { RealIs(d, "threshold", r); }
    hide Get, AsReal;
    var read := Or(AsReal(Get(d, "threshold")), 0.7);
    assert RealOr(d, "threshold", 0.7, read);
  }

  lemma IdIs(c: Uuids, d: Json, key: string, u: nat)
    ensures IsId(c, d, key, u) <==> AsUuid(c, Get(d, key)) == Some(u)
  {
    var j := Get(d, key);
    if j.Some? && j.value.Text? { assert Says(d, key, Text(j.value.s)); }
  }

  lemma IdReads(c: Uuids, d: Json, key: string, o: Option<nat>)
    ensures IdAt(c, d, key, o) <==> o == AsUuid(c, Get(d, key))
  {
    hide IsId;
    var id := AsUuid(c, Get(d, key));
    forall u: nat { IdIs(c, d, key, u); }
  }

  lemma IdOrNilReads(c: Uuids, d: Json, key: string, u: nat)
    ensures IdOrNil(c, d, key, u) <==> u == UuidField(c, d, key)
  {
    hide IsId;
    forall x: nat { IdIs(c, d, key, x); }
  }

  lemma BetweenIsNearest(n: nat, low: nat, high: nat, m: nat)
    requires low <= high
    ensures Nearest(n, low, high, m) <==> m == Between(n, low, high)
    ensures low == 0 ==> Between(n, low, high) == AtMost(n, high)
  {
  }

  lemma NearestReads(d: Json, key: string, default: nat, low: nat, high: nat, m: nat)
    requires low <= high
    ensures NearestAt(d, key, default, low, high, m) <==> m == Between(Number(d, key, default), low, high)
    ensures low == 0 ==> Between(Number(d, key, default), low, high) == AtMost(Number(d, key, default), high)
  {
    var n := Number(d, key, default);
    BetweenIsNearest(n, low, high, m);
    NumberReads(d, key, default, n);
    forall n': nat ensures NumberOr(d, key, default, n') <==> n' == n { NumberReads(d, key, default, n'); }
    hide NumberOr, Nearest, Between, Number, AtMost;
  }

  lemma BodyReads(c: Uuids, d: Json, b: nat, m: nat, h: bool, t: nat)
    ensures BodyAt(c, d, b, m, h, t)
            <==> && AsUuid(c, Get(d, "body_workflow_id")) == Some(b)
                 && m == AtMost(Number(d, "max_iterations", 10), 50)
                 && h == Or(AsBool(Get(d, "inject_history")), true)
                 && t == Number(d, "timeout_secs", 60)
  {
    IdIs(c, d, "body_workflow_id", b);
    NearestReads(d, "max_iterations", 10, 0, 50, m);
    FlagReads(d, "inject_history", true, h);
    NumberReads(d, "timeout_secs", 60, t);
    hide IsId, NearestAt, FlagOr, Between, NumberOr, Number, AtMost, AsUuid, AsBool, Get;
  }

  lemma {:induction false} StringsAreTexts(items: seq<Json>) returns (at: seq<nat>)
    ensures TextsOf(items, Strings(items), at)
  {
    hide TextsOf;
    if items == [] {
      at := [];
      NoTexts();
    } else {
      var rest := StringsAreTexts(items[1..]);
      assert items == [items[0]] + items[1..];
      var later := Later(items[0], items[1..], Strings(items[1..]), rest);
      if items[0].Text? {
        at := [0] + later;
        FirstText(items, Strings(items[1..]), later);
      } else {
        at := later;
        assert [] + Strings(items[1..]) == Strings(items[1..]);
        NoFirstText(items, Strings(items[1..]), later);
      }
    }
  }

  lemma NoFirstText(items: seq<Json>, texts: seq<string>, later: seq<nat>)
    requires items != [] && !items[0].Text? && TextsBehind(items, texts, later)
    ensures TextsOf(items, texts, later)
  {
  }

  lemma NoTexts()
    ensures TextsOf([], [], [])
  {
  }

  /** `texts` are the texts of the list behind its first item. */
  ghost predicate TextsBehind(items: seq<Json>, texts: seq<string>, at: seq<nat>) {
    && |at| == |texts|
    && (forall i, j | 0 <= i < j < |at| :: at[i] < at[j])
    && (forall i | 0 <= i < |at| :: 1 <= at[i] < |items| && items[at[i]] == Text(texts[i]))
    && forall k | 1 <= k < |items| && items[k].Text? :: k in at
  }

  lemma Later(item: Json, items: seq<Json>, texts: seq<string>, at: seq<nat>) returns (later: seq<nat>)
    requires TextsOf(items, texts, at)
    ensures TextsBehind([item] + items, texts, later)
  {
    later := seq(|at|, i requires 0 <= i < |at| => at[i] + 1);
    var all := [item] + items;
    forall k | 1 <= k < |all| && all[k].Text? ensures k in later {
      assert all[k] == items[k - 1];
      var i :| 0 <= i < |at| && at[i] == k - 1;
      assert later[i] == k;
    }
    forall i | 0 <= i < |later| ensures 1 <= later[i] < |all| && all[later[i]] == Text(texts[i]) {
      assert all[later[i]] == items[at[i]];
    }
  }

  lemma FirstText(items: seq<Json>, texts: seq<string>, later: seq<nat>)
    requires items != [] && items[0].Text? && TextsBehind(items, texts, later)
    ensures TextsOf(items, [items[0].s] + texts, [0] + later)
  {
    var at := [0] + later;
    forall k | 0 <= k < |items| && items[k].Text? ensures k in at {
      assert at[0] == 0 && (k > 0 ==> k in later);
    }
  }

  /** A list has its texts in one order only. */
  lemma {:induction false} TextsAreUnique(items: seq<Json>, a: seq<string>, at: seq<nat>, b: seq<string>, at': seq<nat>)
    requires TextsOf(items, a, at) && TextsOf(items, b, at')
    ensures a == b
  {
    IncreasingAgree(at, at');
  }

  lemma {:induction false} IncreasingAgree(a: seq<nat>, b: seq<nat>)
    requires forall i, j | 0 <= i < j < |a| :: a[i] < a[j]
    requires forall i, j | 0 <= i < j < |b| :: b[i] < b[j]
    requires forall k :: k in a <==> k in b
    ensures a == b
  {
    if a == [] {
      if b != [] { FirstIsIn(b); }
    } else if b == [] {
      FirstIsIn(a);
    } else {
      assert a[0] in b && b[0] in a;
      assert a[0] == b[0];
      forall k ensures k in a[1..] <==> k in b[1..] {
        TailHolds(a, b, k);
        TailHolds(b, a, k);
      }
      IncreasingAgree(a[1..], b[1..]);
    }
  }

  lemma FirstIsIn(s: seq<nat>)
    requires s != []
    ensures s[0] in s
  {
  }

  lemma TailHolds(a: seq<nat>, b: seq<nat>, k: nat)
    requires a != [] && b != [] && a[0] == b[0]
    requires forall i, j | 0 <= i < j < |a| :: a[i] < a[j]
    requires forall k :: k in a ==> k in b
    ensures k in a[1..] ==> k in b[1..]
  {
    if k in a[1..] {
      var i :| 0 <= i < |a[1..]| && a[1..][i] == k;
      assert a[i + 1] == k && a[0] < k && k in a;
      var j :| 0 <= j < |b| && b[j] == k;
      assert b[1..][j - 1] == k;
    }
  }

  lemma CapabilitiesRead(d: Json, caps: seq<string>)
    ensures var list := Get(d, "required_capabilities");
            CapabilitiesAt(d, caps) <==> list.Some? && list.value.List? && caps == Strings(list.value.items)
  {
    hide TextsOf;
    var list := Get(d, "required_capabilities");
    if list.Some? && list.value.List? {
      var items := list.value.items;
      var at := StringsAreTexts(items);
      assert Says(d, "required_capabilities", List(items));
      forall a | TextsOf(items, caps, a) ensures caps == Strings(items) {
        TextsAreUnique(items, caps, a, Strings(items), at);
      }
    }
  }

  lemma RouteIs(c: Uuids, d: Json, r: string, u: nat)
    ensures var routes := RoutesFrom(c, Get(d, "routes")); IsRoute(c, d, r, u) <==> r in routes && routes[r] == u
  {
    var j := Get(d, "routes");
    if j.Some? && j.value.Object? && r in j.value.fields && j.value.fields[r].Text? {
      assert Says(d, "routes", Object(j.value.fields)) && j.value.fields[r] == Text(j.value.fields[r].s);
    }
  }

  lemma RoutesRead(c: Uuids, d: Json, routes: map<string, nat>)
    ensures RoutesAt(c, d, routes) <==> routes == RoutesFrom(c, Get(d, "routes"))
  {
    hide IsRoute, RoutesFrom, Get;
    var read := RoutesFrom(c, Get(d, "routes"));
    forall r, u: nat { RouteIs(c, d, r, u); }
    if RoutesAt(c, d, routes) {
      forall r ensures r in routes <==> r in read {
        if r in routes { assert IsRoute(c, d, r, routes[r]); }
        if r in read { assert IsRoute(c, d, r, read[r]); }
      }
      forall r | r in routes ensures routes[r] == read[r] {
        assert IsRoute(c, d, r, routes[r]);
      }
      assert routes == read;
    }
  }

  lemma SingletonMap(f: map<string, Json>, key: string, v: Json)
    ensures f == map[key := v] <==> |f| == 1 && key in f && f[key] == v
  {
    if |f| == 1 && key in f && f[key] == v {
      assert f.Keys == {key} by {
        assert |f.Keys - {key}| == 0;
      }
    }
    if f == map[key := v] { assert f.Keys == {key}; }
  }

  lemma JoinReads(d: Json, j: JoinMode)
    ensures JoinAt(d, j) <==> j == JoinOf(Get(d, "join_mode"))
  {
    forall other ensures NamesJoin(d, other) <==> NamedJoin(d) == Some(other) { NamedReads(d, other); }
    hide NamesJoin, JoinFrom;
  }

  function NamedJoin(d: Json): Option<JoinMode> {
    var mode := Get(d, "join_mode");
    if mode.None? then None else JoinFrom(mode.value)
  }

  lemma NamedReads(d: Json, j: JoinMode)
    ensures NamesJoin(d, j) <==> NamedJoin(d) == Some(j)
  {
    var mode := Get(d, "join_mode");
    if mode.Some? && mode.value.Object? {
      var f := mode.value.fields;
      SingletonMap(f, "Any", Null);
      SingletonMap(f, "All", Null);
      SingletonMap(f, "Majority", Null);
      if j.AtLeast? { SingletonMap(f, "N", Whole(j.n)); }
      OneKey(f, "N", "Any");
      OneKey(f, "N", "All");
      OneKey(f, "N", "Majority");
      OneKey(f, "Any", "Majority");
      OneKey(f, "All", "Any");
      OneKey(f, "All", "Majority");
    }
  }

  lemma OneKey(f: map<string, Json>, a: string, b: string)
    requires a != b
    ensures |f| == 1 ==> !(a in f && b in f)
  {
    if |f| == 1 && a in f && b in f { Graphs.SubsetSize({a, b}, f.Keys); }
  }

  // ----- the decoder -----

  /** The decoder finds the kind that the data describes, and none when the data describes none. */
  lemma DecodesWhatIsDescribed(c: Uuids, name: string, data: Option<Json>, k: Kind)
    ensures Decode(c, name, data) == Some(k) <==> Describes(c, name, Or(data, Null), k)
  {
    hide Decode, Describes, Name;
    var d := Or(data, Null);
    NamedAs(c, name, data, k);
    if name == Name(TagFor(k)) {
      if k.Wait? || k.ErrorHandler? || k.Collect? || k.Synthesize? || k.Verify? { ReadsTexts(c, d, k); }
      else if k.WhileLoop? || k.Loop? || k.RepeatLoop? || k.FanInKind? || k.ConfidenceGate? { ReadsLoops(c, d, k); }
      else if k.SubWorkflow? || k.DynamicDispatch? || k.CapabilityDispatch? { ReadsDispatches(c, d, k); }
      else if k.AgentLoop? || k.ReActLoop? { ReadsBodies(c, d, k); }
      else if k.Judge? || k.InlineJudge? { ReadsJudges(c, d, k); }
      else if k.Ensemble? { ReadsEnsembles(c, d, k); }
      else { ReadsRouters(c, d, k); }
    }
  }

  lemma NamedAs(c: Uuids, name: string, data: Option<Json>, k: Kind)
    ensures Describes(c, name, Or(data, Null), k) ==> name == Name(TagFor(k))
    ensures Decode(c, name, data) == Some(k) ==> name == Name(TagFor(k))
    ensures name == Name(TagFor(k)) ==> Decode(c, name, data) == DecodeAs(c, TagFor(k), Or(data, Null))
  {
    DescribesNames(c, name, Or(data, Null), k);
    hide Describes, DecodeAs, Name, TagFor, TagOf;
    NameOfTag(name);
    TagOfName(TagFor(k));
    if TagOf(name).Some? { DecodesTag(c, TagOf(name).value, Or(data, Null)); }
  }

  lemma DescribesNames(c: Uuids, name: string, d: Json, k: Kind)
    ensures Describes(c, name, d, k) ==> name == Name(TagFor(k))
  {
    hide TextAt, TextOr, NumberOr, IdAt, IdOrNil, IsId, RealAt, NearestAt, CapabilitiesAt, RoutesAt, JoinAt, BodyAt;
    hide LevelAt, Says;
  }

  lemma DecodesTag(c: Uuids, tag: Tag, d: Json)
    ensures DecodeAs(c, tag, d).Some? ==> TagFor(DecodeAs(c, tag, d).value) == tag
  {
    DecodedIsClamped(c, tag, d);
    hide DecodeAs, Clamp, Sized, Rejected;
  }

  lemma ReadsTexts(c: Uuids, d: Json, k: Kind)
    requires k.Wait? || k.ErrorHandler? || k.Collect? || k.Synthesize? || k.Verify?
    ensures DecodeAs(c, TagFor(k), d) == Some(k) <==> Describes(c, Name(TagFor(k)), d, k)
  {
    hide TextAt, TextOr, Says, Get, AsText, TextField;
    match k
    case Wait(m) => TextReads(d, "message", m);
    case ErrorHandler(p) => TextReads(d, "error_pattern", p);
    case Synthesize(e) => TextReads(d, "synthesis_expr", e);
    case Verify(cond, l, f) =>
      RequiredReads(d, "condition", cond);
      TextReads(d, "check_label", l);
      TextOrReads(d, "on_failure", "error", f);
    case _ =>
  }

  lemma ReadsLoops(c: Uuids, d: Json, k: Kind)
    requires k.WhileLoop? || k.Loop? || k.RepeatLoop? || k.FanInKind? || k.ConfidenceGate?
    ensures DecodeAs(c, TagFor(k), d) == Some(k) <==> Describes(c, Name(TagFor(k)), d, k)
  {
    hide TextAt, TextOr, Says, Get, AsText, TextField, NearestAt, Between, AtMost, Number, JoinAt, JoinOf, LevelAt;
    hide UnitInterval, AsReal;
    match k
    case WhileLoop(cond, m) =>
      RequiredReads(d, "condition", cond);
      NearestReads(d, "max_iterations", 10, 0, 100, m);
    case Loop(m, cond) =>
      RequiredReads(d, "condition", cond);
      NearestReads(d, "max_iterations", 10, 0, 100, m);
    case RepeatLoop(m) => NearestReads(d, "count", 1, 0, U32 - 1, m);
    case FanInKind(j, a) =>
      JoinReads(d, j);
      TextReads(d, "aggregation_expr", a);
    case ConfidenceGate(l, p, o) =>
      LevelReads(d, l);
      TextOrReads(d, "confidence_path", "__confidence__", p);
      TextOrReads(d, "on_low_confidence", "pause", o);
  }

  lemma ReadsDispatches(c: Uuids, d: Json, k: Kind)
    requires k.SubWorkflow? || k.DynamicDispatch? || k.CapabilityDispatch?
    ensures DecodeAs(c, TagFor(k), d) == Some(k) <==> Describes(c, Name(TagFor(k)), d, k)
  {
    hide Says, Get, AsText, AsUuid, Number, NumberOr, IsId, IdAt, CapabilitiesAt, Strings;
    match k
    case SubWorkflow(u, t) =>
      IdIs(c, d, "sub_workflow_id", u);
      NumberReads(d, "timeout_secs", 30, t);
    case DynamicDispatch(e, t) =>
      RequiredReads(d, "dispatch_expression", e);
      NumberReads(d, "timeout_secs", 30, t);
    case CapabilityDispatch(caps, f, t) =>
      CapabilitiesRead(d, caps);
      IdReads(c, d, "fallback_workflow_id", f);
      NumberReads(d, "timeout_secs", 30, t);
  }

  lemma ReadsBodies(c: Uuids, d: Json, k: Kind)
    requires k.AgentLoop? || k.ReActLoop?
    ensures DecodeAs(c, TagFor(k), d) == Some(k) <==> Describes(c, Name(TagFor(k)), d, k)
  {
    hide BodyAt, Get, AsUuid, AsBool, AtMost, Number;
    match k
    case AgentLoop(b, m, h, t) => BodyReads(c, d, b, m, h, t);
    case ReActLoop(b, m, h, t) => BodyReads(c, d, b, m, h, t);
  }

  lemma ReadsJudges(c: Uuids, d: Json, k: Kind)
    requires k.Judge? || k.InlineJudge?
    ensures DecodeAs(c, TagFor(k), d) == Some(k) <==> Describes(c, Name(TagFor(k)), d, k)
  {
    hide TextOr, Says, Get, AsText, AsReal, Number, NumberOr, IdOrNil, UuidField, RealAt;
    match k
    case Judge(j, r, p, f, t) =>
      IdOrNilReads(c, d, "judge_workflow_id", j);
      TextOrReads(d, "rubric", "", r);
      RealReads(d, "pass_threshold", p);
      TextOrReads(d, "on_failure", "error", f);
      NumberReads(d, "timeout_secs", 60, t);
    case InlineJudge(v, p, f) =>
      RequiredReads(d, "verdict_expr", v);
      RealReads(d, "pass_threshold", p);
      TextOrReads(d, "on_failure", "error", f);
  }

  lemma ReadsEnsembles(c: Uuids, d: Json, k: Kind)
    requires k.Ensemble?
    ensures DecodeAs(c, TagFor(k), d) == Some(k) <==> Describes(c, Name(TagFor(k)), d, k)
  {
    hide TextOr, Get, AsUuid, TextField, Number, NumberOr, NearestAt, Between, IdOrNil, UuidField, IdAt;
    IdOrNilReads(c, d, "child_workflow_id", k.child);
    NearestReads(d, "count", 3, 2, 10, k.count);
    TextOrReads(d, "consensus", "majority_vote", k.consensus);
    IdReads(c, d, "judge_workflow_id", k.scorer);
    NumberReads(d, "timeout_secs", 60, k.timeout);
  }

  lemma ReadsRouters(c: Uuids, d: Json, k: Kind)
    requires k.ReflectiveRetry? || k.LlmDispatch?
    ensures DecodeAs(c, TagFor(k), d) == Some(k) <==> Describes(c, Name(TagFor(k)), d, k)
  {
    hide Get, AsUuid, Number, NumberOr, NearestAt, Between, IdOrNil, UuidField, IdAt, RoutesAt, RoutesFrom;
    NumberReads(d, "timeout_secs", 60, k.timeout);
    match k
    case ReflectiveRetry(u, r, m, _) =>
      IdOrNilReads(c, d, "child_workflow_id", u);
      IdOrNilReads(c, d, "reflection_workflow_id", r);
      NearestReads(d, "max_retries", 2, 1, 5, m);
    case LlmDispatch(u, routes, f, _) =>
      IdOrNilReads(c, d, "classifier_workflow_id", u);
      RoutesRead(c, d, routes);
      IdReads(c, d, "fallback_workflow_id", f);
  }

  // ----- what an encoded kind comes back as -----

  /** k' is k with its bounded fields brought within their bounds. */
  ghost predicate Bounds(k: Kind, k': Kind) {
    match k
    case WhileLoop(cond, n) => k'.WhileLoop? && k'.condition == cond && Nearest(n, 0, 100, k'.maxIterations)
    case Loop(n, cond) => k'.Loop? && k'.condition == cond && Nearest(n, 0, 100, k'.maxIterations)
    case AgentLoop(b, n, h, t) =>
      && k'.AgentLoop? && k'.body == b && k'.injectHistory == h && k'.timeout == t
      && Nearest(n, 0, 50, k'.maxIterations)
    case ReActLoop(b, n, h, t) =>
      && k'.ReActLoop? && k'.body == b && k'.injectHistory == h && k'.timeout == t
      && Nearest(n, 0, 50, k'.maxIterations)
    case Ensemble(u, n, s, j, t) =>
      && k'.Ensemble? && k'.child == u && k'.consensus == s && k'.scorer == j && k'.timeout == t
      && Nearest(n, 2, 10, k'.count)
    case ReflectiveRetry(u, r, n, t) =>
      && k'.ReflectiveRetry? && k'.child == u && k'.reflection == r && k'.timeout == t
      && Nearest(n, 1, 5, k'.maxRetries)
    case ConfidenceGate(r, p, o) =>
      && k'.ConfidenceGate? && k'.path == p && k'.onLow == o && 0.0 <= k'.level <= 1.0
      && (0.0 <= r <= 1.0 ==> k'.level == r) && (r < 0.0 ==> k'.level == 0.0) && (r > 1.0 ==> k'.level == 1.0)
    case _ => k' == k
  }

  /** An encoded kind is decoded as itself with every bounded field at the value nearest to its own
      that the bounds allow. */
  lemma EncodedComesBackBounded(c: Uuids, k: Kind)
    requires Lawful(c) && Sized(k)
    ensures var read := Decode(c, Name(TagFor(k)), Some(Data(c, k)));
            if (k.CapabilityDispatch? && k.capabilities == []) || (k.InlineJudge? && k.verdict == "") then read.None?
            else read.Some? && Bounds(k, read.value)
  {
    hide Decode, Data, Name, TagFor, Sized, Clamp, Bounds;
    KindRoundTrip(c, k);
    ClampBounds(k);
  }

  lemma ClampBounds(k: Kind)
    ensures Bounds(k, Clamp(k))
  {
  }
}
