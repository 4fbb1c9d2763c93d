/** What a graph document says about its nodes and edges, field by field, and that the loader reads
    exactly that. */
module DocumentFields {
  import opened Graphs
  import opened Json
  import opened Kinds
  import opened KindFields
  import opened GraphDocuments

  // ----- fields of a node -----

  /** The field `key` of the object in the field `outer` is v. */
  ghost predicate Within(node: Json, outer: string, key: string, v: Json) {
    exists d :: Says(node, outer, d) && Says(d, key, v)
  }

  ghost predicate Lacks(node: Json, key: string) {
    forall v :: !Says(node, key, v)
  }

  /** The node's own field is v, or it has none and the one under its data is v. */
  ghost predicate Finds(node: Json, key: string, v: Json) {
    Says(node, key, v) || (Lacks(node, key) && Within(node, "data", key, v))
  }

  ghost predicate FindsNumber(node: Json, key: string, n: nat) {
    n <= 18_446_744_073_709_551_615 && Finds(node, key, Whole(n))
  }

  ghost predicate FindsText(node: Json, key: string, o: Option<string>) {
    forall s :: o == Some(s) <==> Finds(node, key, Text(s))
  }

  ghost predicate FindsNumberOr(node: Json, key: string, default: nat, n: nat) {
    FindsNumber(node, key, n) || (n == default && forall m: nat :: !FindsNumber(node, key, m))
  }

  /** A policy is read as soon as one of its four fields is there; the count is cut to 32 bits, and
      to at most three retries without an actor. */
  ghost predicate SaysPolicy(node: Json, hasActor: bool, o: Option<Policy>) {
    match o
    case None => SaysNoPolicy(node)
    case Some(p) =>
      && !SaysNoPolicy(node)
      && (exists n: nat :: FindsNumberOr(node, "retry_count", 2, n) && CountKept(n, hasActor, p.maxRetries))
      && FindsNumberOr(node, "retry_backoff_ms", 500, p.backoff)
      && FindsText(node, "retry_condition", p.condition) && FindsText(node, "retry_delay_expression", p.delay)
  }

  ghost predicate SaysNoPolicy(node: Json) {
    && (forall n: nat :: !FindsNumber(node, "retry_count", n) && !FindsNumber(node, "retry_backoff_ms", n))
    && FindsText(node, "retry_condition", None) && FindsText(node, "retry_delay_expression", None)
  }

  predicate CountKept(n: nat, hasActor: bool, m: nat) {
    var low := n % 0x1_0000_0000;
    m == if hasActor || low <= 3 then low else 3
  }

  // ----- which node it is -----

  /** The module of a module node: its type, or the one its data names. */
  ghost predicate SaysModule(c: Uuids, node: Json, u: nat) {
    || IsId(c, node, "type", u)
    || ((forall x: nat :: !IsId(c, node, "type", x)) && exists d :: Says(node, "data", d) && IsId(c, d, "moduleId", u))
  }

  /** A node that is no module node, for want of an identifier and of a text in its place. */
  ghost predicate SaysNoModule(c: Uuids, node: Json) {
    (forall x: nat :: !IsId(c, node, "type", x)) && forall s :: !Within(node, "data", "moduleId", Text(s))
  }

  ghost predicate SaysSystem(node: Json) {
    exists name :: Says(node, "type", Text("system:" + name))
  }

  ghost predicate DataIs(node: Json, d: Json) {
    Says(node, "data", d) || (d == Null && Lacks(node, "data"))
  }

  /** The kind string: the kind field, or for a system node what follows the prefix of its type. */
  ghost predicate SaysKindName(node: Json, system: bool, name: string) {
    || Says(node, "kind", Text(name))
    || (system && (forall s :: !Says(node, "kind", Text(s))) && Says(node, "type", Text("system:" + name)))
  }

  ghost predicate SaysKind(c: Uuids, node: Json, system: bool, o: Option<Kind>) {
    forall k :: o == Some(k) <==> SaysThisKind(c, node, system, k)
  }

  ghost predicate SaysThisKind(c: Uuids, node: Json, system: bool, k: Kind) {
    exists name, d :: SaysKindName(node, system, name) && DataIs(node, d) && Describes(c, name, d, k)
  }

  // ----- its settings -----

  ghost predicate SaysData(node: Json, data: map<string, Json>) {
    forall key, v :: (key in data && data[key] == v) <==> Within(node, "data", key, v)
  }

  /** The data's own skip condition comes first, then the node's, then that of a module node's config;
      a system node without data has none. */
  ghost predicate SaysSkip(node: Json, system: bool, o: Option<string>) {
    forall s :: o == Some(s) <==>
                || Within(node, "data", "skip_condition", Text(s))
                || (NoSkipInData(node) && Says(node, "skip_condition", Text(s)) && !(system && Lacks(node, "data")))
                || (!system && NoSkipInData(node) && (forall t :: !Says(node, "skip_condition", Text(t)))
                    && Within(node, "config", "skip_condition", Text(s)))
  }

  ghost predicate NoSkipInData(node: Json) {
    forall t :: !Within(node, "data", "skip_condition", Text(t))
  }

  /** A node continues on error when its data or the node itself says so; a module node without data,
      when its config does and the node itself says nothing. */
  ghost predicate SaysContinue(node: Json, system: bool) {
    if Lacks(node, "data") then
      && !system
      && (|| Says(node, "continue_on_error", Bool(true))
          || (!Says(node, "continue_on_error", Bool(false)) && Within(node, "config", "continue_on_error", Bool(true))))
    else Within(node, "data", "continue_on_error", Bool(true)) || Says(node, "continue_on_error", Bool(true))
  }

  /** The timeout of a module node: its data's, or its own if the data has no such field. */
  ghost predicate SaysTimeout(node: Json, o: Option<nat>) {
    forall n: nat :: o == Some(n) <==>
                     && n <= 18_446_744_073_709_551_615
                     && (|| Within(node, "data", "timeout_secs", Whole(n))
                         || ((forall v :: !Within(node, "data", "timeout_secs", v))
                             && Says(node, "timeout_secs", Whole(n))))
  }

  ghost predicate SaysSettings(node: Json, system: bool, s: Settings) {
    && SaysData(node, s.data) && SaysSkip(node, system, s.skip) && (s.continues <==> SaysContinue(node, system))
    && if system then s.timeout.None? else SaysTimeout(node, s.timeout)
  }

  /** A module node, or a system node that is no module node. */
  ghost predicate DescribesNode(c: Uuids, hasActor: bool, node: Json, meta: Meta, s: Settings) {
    match meta.module_
    case Some(u) =>
      && SaysModule(c, node, u) && SaysPolicy(node, hasActor, meta.retry) && SaysKind(c, node, false, meta.kind)
      && SaysSettings(node, false, s)
    case None =>
      && SaysNoModule(c, node) && SaysSystem(node) && meta.retry.None? && SaysKind(c, node, true, meta.kind)
      && SaysSettings(node, true, s)
  }

  // ----- the loader reads fields -----

  lemma GetSays(d: Json, key: string, v: Json)
    ensures Says(d, key, v) <==> Get(d, key) == Some(v)
  {
  }

  lemma LacksSays(d: Json, key: string)
    ensures Lacks(d, key) <==> Get(d, key).None?
  {
    if Get(d, key).Some? { assert Says(d, key, Get(d, key).value); }
  }

  lemma WithinReads(node: Json, outer: string, key: string, v: Json)
    ensures Within(node, outer, key, v) <==> GetIn(Get(node, outer), key) == Some(v)
  {
    var d := Get(node, outer);
    if d.Some? { assert Says(node, outer, d.value); }
  }

  lemma FindsReads(node: Json, key: string, v: Json)
    ensures Finds(node, key, v) <==> OwnOrData(node, key) == Some(v)
  {
    GetSays(node, key, v);
    LacksSays(node, key);
    WithinReads(node, "data", key, v);
    hide Says, Lacks, Within, Get, GetIn;
  }

  lemma FindsNumberReads(node: Json, key: string, n: nat)
    ensures FindsNumber(node, key, n) <==> AsU64(OwnOrData(node, key)) == Some(n)
  {
    FindsReads(node, key, Whole(n));
    hide Finds, OwnOrData;
  }

  lemma FindsNumberOrReads(node: Json, key: string, default: nat, n: nat)
    ensures FindsNumberOr(node, key, default, n) <==> n == Or(AsU64(OwnOrData(node, key)), default)
  {
    forall m: nat ensures FindsNumber(node, key, m) <==> AsU64(OwnOrData(node, key)) == Some(m) {
      FindsNumberReads(node, key, m);
    }
    hide FindsNumber, OwnOrData, AsU64;
  }

  lemma FindsTextReads(node: Json, key: string, o: Option<string>)
    ensures FindsText(node, key, o) <==> o == AsText(OwnOrData(node, key))
  {
    forall s ensures Finds(node, key, Text(s)) <==> AsText(OwnOrData(node, key)) == Some(s) {
      FindsReads(node, key, Text(s));
    }
    hide Finds, OwnOrData, AsText;
    if o.Some? { assert Finds(node, key, Text(o.value)) <==> AsText(OwnOrData(node, key)) == o; }
  }

  lemma NoPolicyReads(node: Json)
    ensures SaysNoPolicy(node) <==> ReadRetry(node).None?
  {
    var count, backoff := AsU64(OwnOrData(node, "retry_count")), AsU64(OwnOrData(node, "retry_backoff_ms"));
    forall n: nat ensures FindsNumber(node, "retry_count", n) <==> count == Some(n) {
      FindsNumberReads(node, "retry_count", n);
    }
    forall n: nat ensures FindsNumber(node, "retry_backoff_ms", n) <==> backoff == Some(n) {
      FindsNumberReads(node, "retry_backoff_ms", n);
    }
    FindsTextReads(node, "retry_condition", None);
    FindsTextReads(node, "retry_delay_expression", None);
    hide FindsNumber, FindsText, OwnOrData, AsU64, AsText;
    if count.Some? { assert FindsNumber(node, "retry_count", count.value); }
    if backoff.Some? { assert FindsNumber(node, "retry_backoff_ms", backoff.value); }
  }

  lemma PolicyReads(node: Json, hasActor: bool, o: Option<Policy>)
    ensures SaysPolicy(node, hasActor, o) <==> o == Capped(ReadRetry(node), hasActor)
  {
    NoPolicyReads(node);
    if o.Some? {
      FindsTextReads(node, "retry_condition", o.value.condition);
      FindsTextReads(node, "retry_delay_expression", o.value.delay);
      FindsNumberOrReads(node, "retry_backoff_ms", 500, o.value.backoff);
      CountReads(node, hasActor, o.value.maxRetries);
      hide SaysNoPolicy, FindsNumberOr, FindsText, OwnOrData, AsU64, AsText;
    }
  }

  lemma CountReads(node: Json, hasActor: bool, m: nat)
    ensures (exists n: nat :: FindsNumberOr(node, "retry_count", 2, n) && CountKept(n, hasActor, m))
            <==> var low := Or(AsU64(OwnOrData(node, "retry_count")), 2) % U32;
                 m == if hasActor then low else AtMost(low, MAX_RETRIES_UNBUDGETED)
  {
    var count := Or(AsU64(OwnOrData(node, "retry_count")), 2);
    forall n: nat ensures FindsNumberOr(node, "retry_count", 2, n) <==> n == count {
      FindsNumberOrReads(node, "retry_count", 2, n);
    }
    hide FindsNumberOr, OwnOrData, AsU64;
    assert FindsNumberOr(node, "retry_count", 2, count);
  }

  lemma ModuleReads(c: Uuids, node: Json, u: nat)
    ensures SaysModule(c, node, u) <==> ReadsModule(c, node, u)
  {
    forall x: nat ensures IsId(c, node, "type", x) <==> AsUuid(c, Get(node, "type")) == Some(x) {
      IdIs(c, node, "type", x);
    }
    var data := Get(node, "data");
    if data.Some? {
      assert Says(node, "data", data.value);
      IdIs(c, data.value, "moduleId", u);
    }
    hide IsId, AsUuid;
    assert forall d :: Says(node, "data", d) ==> data == Some(d);
  }

  lemma NoModuleReads(c: Uuids, node: Json)
    ensures SaysNoModule(c, node)
            <==> AsUuid(c, Get(node, "type")).None? && AsText(GetIn(Get(node, "data"), "moduleId")).None?
  {
    forall x: nat ensures IsId(c, node, "type", x) <==> AsUuid(c, Get(node, "type")) == Some(x) {
      IdIs(c, node, "type", x);
    }
    var module_ := GetIn(Get(node, "data"), "moduleId");
    forall s ensures Within(node, "data", "moduleId", Text(s)) <==> AsText(module_) == Some(s) {
      WithinReads(node, "data", "moduleId", Text(s));
    }
    hide IsId, AsUuid, Within, GetIn, Get;
    if AsText(module_).Some? { assert Within(node, "data", "moduleId", Text(AsText(module_).value)); }
    if AsUuid(c, Get(node, "type")).Some? { assert IsId(c, node, "type", AsUuid(c, Get(node, "type")).value); }
  }

  lemma SystemReads(node: Json)
    ensures SaysSystem(node) <==> SystemTyped(node)
  {
    var type_ := AsText(Get(node, "type"));
    if type_.Some? && SYSTEM <= type_.value {
      assert type_.value == "system:" + type_.value[|SYSTEM|..];
      assert Says(node, "type", Text("system:" + type_.value[|SYSTEM|..]));
    }
  }

  lemma DataReads(node: Json, data: map<string, Json>)
    ensures SaysData(node, data) <==> data == FieldsOf(Get(node, "data"))
  {
    var fields := FieldsOf(Get(node, "data"));
    forall key, v ensures Within(node, "data", key, v) <==> key in fields && fields[key] == v {
      WithinReads(node, "data", key, v);
    }
    hide Within, FieldsOf, Get;
    if SaysData(node, data) {
      forall key ensures key in data <==> key in fields {
        if key in data { assert Within(node, "data", key, data[key]); }
        if key in fields { assert Within(node, "data", key, fields[key]); }
      }
      forall key | key in data ensures data[key] == fields[key] {
        assert Within(node, "data", key, data[key]);
      }
      assert data == fields;
    }
  }

  lemma SkipReads(node: Json, system: bool, o: Option<string>)
    ensures SaysSkip(node, system, o) <==> o == (if system then SystemSettings(node) else ModuleSettings(node)).skip
  {
    var data, own, config := AsText(GetIn(Get(node, "data"), "skip_condition")), AsText(Get(node, "skip_condition")),
                             AsText(GetIn(Get(node, "config"), "skip_condition"));
    forall s ensures Within(node, "data", "skip_condition", Text(s)) <==> data == Some(s) {
      WithinReads(node, "data", "skip_condition", Text(s));
    }
    forall s ensures Within(node, "config", "skip_condition", Text(s)) <==> config == Some(s) {
      WithinReads(node, "config", "skip_condition", Text(s));
    }
    forall s ensures Says(node, "skip_condition", Text(s)) <==> own == Some(s) {
      GetSays(node, "skip_condition", Text(s));
    }
    LacksSays(node, "data");
    var read := if system && Get(node, "data").None? then None
                else First(data, First(own, if system then None else config));
    assert read == (if system then SystemSettings(node) else ModuleSettings(node)).skip;
    SkipOrder(node, system, data, own, config, read);
    hide SaysSkip, SystemSettings, ModuleSettings;
    if SaysSkip(node, system, o) { SkipIsUnique(node, system, o, read); }
  }

  lemma SkipOrder(node: Json, system: bool, data: Option<string>, own: Option<string>, config: Option<string>,
                  read: Option<string>)
    requires forall s :: Within(node, "data", "skip_condition", Text(s)) <==> data == Some(s)
    requires forall s :: Within(node, "config", "skip_condition", Text(s)) <==> config == Some(s)
    requires forall s :: Says(node, "skip_condition", Text(s)) <==> own == Some(s)
    requires Lacks(node, "data") ==> data.None?
    requires read == if system && Lacks(node, "data") then None
                     else First(data, First(own, if system then None else config))
    ensures SaysSkip(node, system, read)
  {
    hide Within, Says, Lacks;
    if data.Some? { assert Within(node, "data", "skip_condition", Text(data.value)); }
    if own.Some? { assert Says(node, "skip_condition", Text(own.value)); }
  }

  lemma SkipIsUnique(node: Json, system: bool, a: Option<string>, b: Option<string>)
    requires SaysSkip(node, system, a) && SaysSkip(node, system, b)
    ensures a == b
  {
    hide Within, Says, Lacks, NoSkipInData;
    if a.Some? { assert a == Some(a.value) <==> b == Some(a.value); }
    if b.Some? { assert a == Some(b.value) <==> b == Some(b.value); }
  }

  lemma ContinueReads(node: Json, system: bool)
    ensures SaysContinue(node, system)
            <==> (if system then SystemSettings(node) else ModuleSettings(node)).continues
  {
    WithinReads(node, "data", "continue_on_error", Bool(true));
    WithinReads(node, "config", "continue_on_error", Bool(true));
    GetSays(node, "continue_on_error", Bool(true));
    GetSays(node, "continue_on_error", Bool(false));
    LacksSays(node, "data");
    hide Within, Says, Lacks, Get, GetIn;
  }

  lemma TimeoutReads(node: Json, o: Option<nat>)
    ensures SaysTimeout(node, o) <==> o == ModuleSettings(node).timeout
  {
    var data, own := GetIn(Get(node, "data"), "timeout_secs"), Get(node, "timeout_secs");
    forall v ensures Within(node, "data", "timeout_secs", v) <==> data == Some(v) {
      WithinReads(node, "data", "timeout_secs", v);
    }
    forall v ensures Says(node, "timeout_secs", v) <==> own == Some(v) { GetSays(node, "timeout_secs", v); }
    hide Within, Says, Get, GetIn;
    var read := AsU64(if data.Some? then data else own);
    if data.Some? { assert Within(node, "data", "timeout_secs", data.value); }
    assert SaysTimeout(node, read);
    if o.Some? { assert SaysTimeout(node, o) ==> read == o; }
  }

  lemma SettingsRead(node: Json, system: bool, s: Settings)
    ensures SaysSettings(node, system, s) <==> s == if system then SystemSettings(node) else ModuleSettings(node)
  {
    DataReads(node, s.data);
    SkipReads(node, system, s.skip);
    ContinueReads(node, system);
    TimeoutReads(node, s.timeout);
    DataOfSettings(node);
    hide SaysData, SaysSkip, SaysContinue, SaysTimeout, FieldsOf, Get, SystemSettings, ModuleSettings;
  }

  lemma DataOfSettings(node: Json)
    ensures ModuleSettings(node).data == SystemSettings(node).data == FieldsOf(Get(node, "data"))
    ensures SystemSettings(node).timeout.None?
  {
  }

  /** The kind string the loader takes. */
  function KindText(node: Json, system: bool): Option<string> {
    var kind, type_ := AsText(Get(node, "kind")), AsText(Get(node, "type"));
    if kind.Some? then kind
    else if system && type_.Some? && SYSTEM <= type_.value then Some(KindName(node, type_.value))
    else None
  }

  lemma KindNameReads(node: Json, system: bool, name: string)
    ensures SaysKindName(node, system, name) <==> KindText(node, system) == Some(name)
  {
    var kind, type_ := AsText(Get(node, "kind")), AsText(Get(node, "type"));
    forall s ensures Says(node, "kind", Text(s)) <==> kind == Some(s) { GetSays(node, "kind", Text(s)); }
    GetSays(node, "type", Text("system:" + name));
    hide Says, Get;
    if kind.Some? { assert Says(node, "kind", Text(kind.value)); }
    if type_.Some? && SYSTEM <= type_.value { assert type_.value == "system:" + type_.value[|SYSTEM|..]; }
  }

  lemma DataIsRead(node: Json, d: Json)
    ensures DataIs(node, d) <==> d == Or(Get(node, "data"), Null)
  {
    GetSays(node, "data", d);
    LacksSays(node, "data");
    hide Says, Lacks, Get;
  }

  lemma KindReads(c: Uuids, node: Json, system: bool, o: Option<Kind>)
    ensures var name := KindText(node, system);
            SaysKind(c, node, system, o)
            <==> o == if name.Some? then Decode(c, name.value, Get(node, "data")) else None
  {
    var name, data := KindText(node, system), Get(node, "data");
    var read := if name.Some? then Decode(c, name.value, data) else None;
    forall k ensures SaysThisKind(c, node, system, k) <==> read == Some(k) {
      ThisKindReads(c, node, system, k);
    }
    hide SaysThisKind, KindText, Decode, Get;
    assert SaysKind(c, node, system, o) <==> forall k :: o == Some(k) <==> SaysThisKind(c, node, system, k);
    if read.Some? { assert SaysThisKind(c, node, system, read.value); }
    if o.Some? { assert SaysThisKind(c, node, system, o.value) <==> read == o; }
  }

  lemma ThisKindReads(c: Uuids, node: Json, system: bool, k: Kind)
    ensures var name := KindText(node, system);
            SaysThisKind(c, node, system, k) <==> name.Some? && Decode(c, name.value, Get(node, "data")) == Some(k)
  {
    var text, data := KindText(node, system), Get(node, "data");
    forall name ensures SaysKindName(node, system, name) <==> text == Some(name) {
      KindNameReads(node, system, name);
    }
    forall d ensures DataIs(node, d) <==> d == Or(data, Null) { DataIsRead(node, d); }
    if text.Some? { DecodesWhatIsDescribed(c, text.value, data, k); }
    hide *;
    ThisKindIs(c, node, system, k, text, Or(data, Null));
  }

  lemma ThisKindIs(c: Uuids, node: Json, system: bool, k: Kind, text: Option<string>, data: Json)
    requires forall name :: SaysKindName(node, system, name) <==> text == Some(name)
    requires forall d :: DataIs(node, d) <==> d == data
    ensures SaysThisKind(c, node, system, k) <==> text.Some? && Describes(c, text.value, data, k)
  {
    ThisKindMeans(c, node, system, k);
    hide *;
    assert DataIs(node, data);
    if text.Some? { assert SaysKindName(node, system, text.value); }
  }

  lemma ThisKindMeans(c: Uuids, node: Json, system: bool, k: Kind)
    ensures SaysThisKind(c, node, system, k)
            <==> exists name, d :: SaysKindName(node, system, name) && DataIs(node, d) && Describes(c, name, d, k)
  {
    hide SaysKindName, DataIs, Describes;
  }

  lemma NodeReads(c: Ids, hasActor: bool, node: Json, meta: Meta, s: Settings)
    ensures ParseNode(c, hasActor, node) == Some((meta, s))
            <==> var system := meta.module_.None?;
                 && (if system then
                       && AsUuid(c.uuids, Get(node, "type")).None?
                       && AsText(GetIn(Get(node, "data"), "moduleId")).None?
                       && SystemTyped(node) && meta.retry.None?
                     else ReadsModule(c.uuids, node, meta.module_.value)
                          && meta.retry == Capped(ReadRetry(node), hasActor))
                 && (meta.kind == var name := KindText(node, system);
                                  if name.Some? then Decode(c.uuids, name.value, Get(node, "data")) else None)
                 && s == if system then SystemSettings(node) else ModuleSettings(node)
  {
    hide Decode, ReadRetry, Capped, SystemSettings, ModuleSettings, Get;
  }

  predicate SystemTyped(node: Json) {
    var type_ := AsText(Get(node, "type"));
    type_.Some? && SYSTEM <= type_.value
  }

  predicate ReadsModule(c: Uuids, node: Json, u: nat) {
    || AsUuid(c, Get(node, "type")) == Some(u)
    || (AsUuid(c, Get(node, "type")).None? && AsUuid(c, GetIn(Get(node, "data"), "moduleId")) == Some(u))
  }

  /** The loader makes of a node what the node describes, and passes over a node that describes
      nothing. */
  lemma ParsesWhatIsDescribed(c: Ids, hasActor: bool, node: Json, meta: Meta, s: Settings)
    ensures ParseNode(c, hasActor, node) == Some((meta, s)) <==> DescribesNode(c.uuids, hasActor, node, meta, s)
  {
    hide *;
    var system := meta.module_.None?;
    NodeReads(c, hasActor, node, meta, s);
    NodeMeans(c.uuids, hasActor, node, meta, s);
    if system {
      NoModuleReads(c.uuids, node);
      SystemReads(node);
    } else {
      ModuleReads(c.uuids, node, meta.module_.value);
      PolicyReads(node, hasActor, meta.retry);
    }
    KindReads(c.uuids, node, system, meta.kind);
    SettingsRead(node, system, s);
  }

  lemma NodeMeans(c: Uuids, hasActor: bool, node: Json, meta: Meta, s: Settings)
    ensures DescribesNode(c, hasActor, node, meta, s)
            <==> && (if meta.module_.Some? then
                       SaysModule(c, node, meta.module_.value) && SaysPolicy(node, hasActor, meta.retry)
                     else SaysNoModule(c, node) && SaysSystem(node) && meta.retry.None?)
                 && SaysKind(c, node, meta.module_.None?, meta.kind)
                 && SaysSettings(node, meta.module_.None?, s)
  {
    hide SaysModule, SaysNoModule, SaysSystem, SaysPolicy, SaysKind, SaysSettings;
  }

  // ----- what one node adds -----

  ghost predicate IsIdent(c: Ids, text: string, id: nat) {
    c.uuids.parse(text) == Some(id) || (c.uuids.parse(text).None? && id == c.hash(text))
  }

  /** The configuration holds the two reserved keys as the settings say, and else the fields of the
      data, or what was there before if the data has none. */
  ghost predicate IsConfig(had: map<string, Json>, s: Settings, config: map<string, Json>) {
    var base := if s.data == map[] then had else s.data;
    && (forall key :: key in config
                      <==> || key in base || (key == "__skip_condition" && s.skip.Some?)
                           || (key == "__continue_on_error" && s.continues))
    && forall key | key in config ::
         if key == "__skip_condition" && s.skip.Some? then config[key] == Text(s.skip.value)
         else if key == "__continue_on_error" && s.continues then config[key] == Bool(true)
         else key in base && config[key] == base[key]
  }

  /** The text of the node is known from now on, and configured; the node itself is in the graph
      unless the graph is full. */
  ghost predicate Adds(s: Setup, l: Loaded, text: string, id: nat, meta: Meta, settings: Settings, l': Loaded) {
    && l'.index == l.index[text := id] && l'.edges == l.edges
    && (if |l.order| < s.maxNodes then l'.order == l.order + [id] && l'.meta == l.meta[id := meta]
        else l'.order == l.order && l'.meta == l.meta)
    && (forall other | other != id ::
          ConfigOf(l', other) == ConfigOf(l, other) && TimeoutOf(l', other) == TimeoutOf(l, other))
    && IsConfig(ConfigOf(l, id), settings, ConfigOf(l', id))
    && TimeoutOf(l', id) == if settings.timeout.Some? then settings.timeout else TimeoutOf(l, id)
  }

  lemma ConfiguredIs(had: map<string, Json>, s: Settings)
    ensures IsConfig(had, s, Configured(had, s))
  {
  }

  lemma ConfigureAdds(l: Loaded, id: nat, settings: Settings)
    ensures var l' := Configure(l, id, settings);
            && l' == l.(configs := l'.configs, timeouts := l'.timeouts)
            && (forall other | other != id ::
                  ConfigOf(l', other) == ConfigOf(l, other) && TimeoutOf(l', other) == TimeoutOf(l, other))
            && ConfigOf(l', id) == Configured(ConfigOf(l, id), settings)
            && TimeoutOf(l', id) == if settings.timeout.Some? then settings.timeout else TimeoutOf(l, id)
  {
    hide Configured;
    assert id in l.configs && Configured(ConfigOf(l, id), settings) == map[] ==> l.configs[id] == map[] by {
      KeepsSomething(ConfigOf(l, id), settings);
    }
  }

  lemma KeepsSomething(had: map<string, Json>, s: Settings)
    ensures Configured(had, s) == map[] ==> had == map[] && s.data == map[]
  {
    ConfiguredIs(had, s);
    hide Configured;
    var base := if s.data == map[] then had else s.data;
    if base != map[] {
      var key :| key in base;
      assert key in Configured(had, s);
    }
  }

  /** The loader adds a node as it is described, under the identifier its text is or hashes to, and
      skips a node that describes nothing. */
  lemma LoadsWhatIsDescribed(s: Setup, l: Loaded, node: Json)
    ensures forall meta, settings :: DescribesNode(s.ids.uuids, s.hasActor, node, meta, settings) ==>
              exists text, id :: TextOr(node, "id", "", text) && IsIdent(s.ids, text, id)
                                 && Adds(s, l, text, id, meta, settings, LoadNode(s, l, node))
    ensures (forall meta, settings :: !DescribesNode(s.ids.uuids, s.hasActor, node, meta, settings)) ==>
              LoadNode(s, l, node) == l
  {
    var parsed := ParseNode(s.ids, s.hasActor, node);
    forall meta, settings
      ensures DescribesNode(s.ids.uuids, s.hasActor, node, meta, settings) <==> parsed == Some((meta, settings))
    {
      ParsesWhatIsDescribed(s.ids, s.hasActor, node, meta, settings);
    }
    hide DescribesNode, ParseNode, TextOr, Adds;
    if parsed.Some? {
      assert DescribesNode(s.ids.uuids, s.hasActor, node, parsed.value.0, parsed.value.1);
      var text := TextField(node, "id", "");
      var id := Ident(s.ids, text);
      TextOrReads(node, "id", "", text);
      LoadAdds(s, l, node, text, id, parsed.value.0, parsed.value.1);
      assert IsIdent(s.ids, text, id);
    }
  }

  lemma LoadAdds(s: Setup, l: Loaded, node: Json, text: string, id: nat, meta: Meta, settings: Settings)
    requires ParseNode(s.ids, s.hasActor, node) == Some((meta, settings))
    requires text == TextField(node, "id", "") && id == Ident(s.ids, text)
    ensures Adds(s, l, text, id, meta, settings, LoadNode(s, l, node))
  {
    hide ParseNode, Ident, Configure, Configured, IsConfig;
    var known := l.(index := l.index[text := id]);
    ConfigureAdds(known, id, settings);
    ConfiguredIs(ConfigOf(l, id), settings);
    forall other
      ensures ConfigOf(known, other) == ConfigOf(l, other) && TimeoutOf(known, other) == TimeoutOf(l, other)
      ensures ConfigOf(LoadNode(s, l, node), other) == ConfigOf(Configure(known, id, settings), other)
              && TimeoutOf(LoadNode(s, l, node), other) == TimeoutOf(Configure(known, id, settings), other)
    {
    }
  }

  // ----- edges -----

  /** An edge between two nodes of the graph, with the handles, condition and type it gives. */
  ghost predicate DescribesEdge(l: Loaded, edge: Json, e: LoadedEdge) {
    && EndpointIs(l, edge, "source", e.src) && EndpointIs(l, edge, "target", e.dst)
    && TextOr(edge, "sourceHandle", "output", e.sourceHandle)
    && TextOr(edge, "targetHandle", "input", e.targetHandle)
    && TextAt(edge, "condition", e.condition) && TextOr(edge, "edge_type", "default", e.edgeType)
  }

  ghost predicate EndpointIs(l: Loaded, edge: Json, key: string, id: nat) {
    exists text :: TextOr(edge, key, "", text) && text in l.index && l.index[text] == id && id in l.meta
  }

  lemma EndpointReads(l: Loaded, edge: Json, key: string, id: nat)
    ensures var text := TextField(edge, key, "");
            EndpointIs(l, edge, key, id) <==> text in l.index && l.index[text] == id && id in l.meta
  {
    forall text ensures TextOr(edge, key, "", text) <==> text == TextField(edge, key, "") {
      TextOrReads(edge, key, "", text);
    }
    hide TextOr, TextField;
    assert TextOr(edge, key, "", TextField(edge, key, ""));
  }

  /** The loader adds the edge that is described, and passes over one that is not. */
  lemma EdgesAreReadAsDescribed(l: Loaded, edge: Json, e: LoadedEdge)
    ensures EdgeOf(l, edge) == Some(e) <==> DescribesEdge(l, edge, e)
    ensures DescribesEdge(l, edge, e) ==> LoadEdge(l, edge) == l.(edges := l.edges + [e])
    ensures (forall e' :: !DescribesEdge(l, edge, e')) ==> LoadEdge(l, edge) == l
  {
    forall e' ensures EdgeOf(l, edge) == Some(e') <==> DescribesEdge(l, edge, e') { EdgeIsRead(l, edge, e'); }
    hide DescribesEdge, EdgeOf;
    if EdgeOf(l, edge).Some? { assert DescribesEdge(l, edge, EdgeOf(l, edge).value); }
  }

  lemma EdgeIsRead(l: Loaded, edge: Json, e: LoadedEdge)
    ensures EdgeOf(l, edge) == Some(e) <==> DescribesEdge(l, edge, e)
  {
    EndpointReads(l, edge, "source", e.src);
    EndpointReads(l, edge, "target", e.dst);
    TextOrReads(edge, "sourceHandle", "output", e.sourceHandle);
    TextOrReads(edge, "targetHandle", "input", e.targetHandle);
    TextReads(edge, "condition", e.condition);
    TextOrReads(edge, "edge_type", "default", e.edgeType);
    hide EndpointIs, TextOr, TextAt, Get, AsText;
  }

  /** An edge of type "error" is loaded as one; an edge that gives nothing but its endpoints gets the
      default handles and type, and no condition. */
  lemma ErrorEdgesStayErrorEdges(l: Loaded, a: nat, b: nat)
    requires "a" in l.index && "b" in l.index && l.index["a"] == a && l.index["b"] == b && a in l.meta && b in l.meta
    ensures EdgeOf(l, Object(map["source" := Text("a"), "target" := Text("b"), "edge_type" := Text("error")]))
            == Some(LoadedEdge(a, b, "output", "input", None, "error"))
    ensures EdgeOf(l, Object(map["source" := Text("a"), "target" := Text("b")]))
            == Some(LoadedEdge(a, b, "output", "input", None, "default"))
  {
    var plain: map<string, Json> := map["source" := Text("a"), "target" := Text("b")];
    var error := plain["edge_type" := Text("error")];
    PlainFields(plain);
    assert error == map["source" := Text("a"), "target" := Text("b"), "edge_type" := Text("error")];
    EdgeIsRead(l, Object(plain), LoadedEdge(a, b, "output", "input", None, "default"));
    EdgeIsRead(l, Object(error), LoadedEdge(a, b, "output", "input", None, "error"));
  }

  lemma PlainFields(fields: map<string, Json>)
    requires fields == map["source" := Text("a"), "target" := Text("b")]
    ensures Says(Object(fields), "source", Text("a")) && Says(Object(fields), "target", Text("b"))
  {
  }
}
