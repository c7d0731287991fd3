/** What the configuration service computes, as functions of the tables. */
module ConfigSpec {
  import opened Options
  import opened Model

  /** The configuration with a given status. The invariant proves there is at
      most one active and at most one pending row, so the choice is forced. */
  ghost function Current(configs: map<Version, Config>, status: Status): (r: Option<Version>)
    ensures r.Some? ==> r.value in configs && configs[r.value].status == status
    ensures r.None? ==> forall v :: v in configs ==> configs[v].status != status
  {
    if exists v :: v in configs && configs[v].status == status then
      var v :| v in configs && configs[v].status == status;
      Some(v)
    else None
  }

  /** The configuration that an edit starts from: pending when there is one, else active. */
  ghost function Base(configs: map<Version, Config>): Option<Version> {
    var pending := Current(configs, Pending);
    if pending.Some? then pending else Current(configs, Active)
  }

  // ---------------------------------------------------------------------
  // Digests of a request

  function DesiredHash(request: ConfigRequest): ConfigHash {
    var m := ByKey(request.categories);
    ConfigHash(request.basis, map k | k in m :: RuleHash(k, m[k].rule))
  }

  function EditOfRequest(request: ConfigRequest): EditPayload {
    var m := ByKey(request.categories);
    EditPayload(request.basis, map k | k in m :: CategoryEdit(m[k].show, m[k].rule))
  }

  // ---------------------------------------------------------------------
  // Digests and snapshots of a stored configuration

  /** The inner join of a configuration's links with rules and categories. */
  function Join(c: Catalog, links: map<Key, Version>): map<Key, RuleVersion> {
    map k | k in links && k in c.categories && RuleRef(k, links[k]) in c.rules ::
      RuleVersion(links[k], c.rules[RuleRef(k, links[k])])
  }

  function LinksOf(s: State, v: Version): map<Key, Version> {
    if v in s.configRules then s.configRules[v] else map[]
  }

  function RulesOf(s: State, v: Version): map<Key, RuleVersion> {
    Join(Catalog(s.categories, s.rules), LinksOf(s, v))
  }

  function SemanticHash(s: State, v: Version): ConfigHash
    requires v in s.configs
  {
    var rules := RulesOf(s, v);
    ConfigHash(s.configs[v].basis, map k | k in rules :: rules[k].rule.hash)
  }

  /** The snapshot rebuilt from category rows and the linked rule versions. */
  function LiveSnapshot(s: State, v: Version): EditPayload
    requires v in s.configs
  {
    var rules := RulesOf(s, v);
    EditPayload(s.configs[v].basis,
                map k | k in rules && k in s.categories :: CategoryEdit(s.categories[k], rules[k].rule.text))
  }

  /** The editable snapshot: a pending version is read from its stored request. */
  function EditOf(s: State, v: Version): EditPayload
    requires v in s.configs
  {
    if s.configs[v].status == Pending then EditOfRequest(s.configs[v].source)
    else LiveSnapshot(s, v)
  }

  // ---------------------------------------------------------------------
  // Writes

  /** Publish the presentation of the listed categories to their rows. */
  function Present(categories: map<Key, Presentation>, items: seq<CategoryInput>): map<Key, Presentation> {
    var m := ByKey(items);
    map k | k in categories :: if k in m then m[k].show else categories[k]
  }

  function Retire(configs: map<Version, Config>, v: Option<Version>, now: int): map<Version, Config> {
    if v.Some? && v.value in configs then
      configs[v.value := configs[v.value].(status := Superseded, supersededAt := Some(now))]
    else configs
  }

  datatype Catalog = Catalog(categories: map<Key, Presentation>, rules: map<RuleRef, Rule>)

  function VersionsOf(rules: map<RuleRef, Rule>, key: Key): set<Version> {
    set ref | ref in rules && ref.category == key :: ref.version
  }

  /** The stored version of a category's rule with the given digest. */
  ghost function VersionOf(rules: map<RuleRef, Rule>, key: Key, hash: RuleHash): (r: Option<Version>)
    ensures r.Some? ==> RuleRef(key, r.value) in rules && rules[RuleRef(key, r.value)].hash == hash
    ensures r.None? ==> forall v :: RuleRef(key, v) in rules ==> rules[RuleRef(key, v)].hash != hash
  {
    if exists v :: RuleRef(key, v) in rules && rules[RuleRef(key, v)].hash == hash then
      var v :| RuleRef(key, v) in rules && rules[RuleRef(key, v)].hash == hash;
      Some(v)
    else None
  }

  /** Create the category row when it is missing, and the rule version when no
      version of this category has the requested digest. */
  ghost function AddItem(c: Catalog, item: CategoryInput): Catalog {
    var categories := if item.key in c.categories then c.categories else c.categories[item.key := item.show];
    var hash := RuleHash(item.key, item.rule);
    var rules :=
      if VersionOf(c.rules, item.key, hash).Some? then c.rules
      else c.rules[RuleRef(item.key, Next(VersionsOf(c.rules, item.key))) := Rule(item.rule, hash)];
    Catalog(categories, rules)
  }

  ghost function AddItems(c: Catalog, items: seq<CategoryInput>): Catalog {
    if items == [] then c
    else AddItem(AddItems(c, items[..|items| - 1]), items[|items| - 1])
  }

  ghost function SelectedRules(rules: map<RuleRef, Rule>, items: seq<CategoryInput>): map<Key, Version> {
    var m := ByKey(items);
    map k | k in m && VersionOf(rules, k, RuleHash(k, m[k].rule)).Some? ::
      VersionOf(rules, k, RuleHash(k, m[k].rule)).value
  }

  datatype PutKind = FirstVersion | LiveEdit | UnchangedPending | NewPending
  datatype PutResult = PutRejected(error: Error) | PutAccepted(kind: PutKind, state: State)

  ghost predicate MixedCurrency(request: ConfigRequest) {
    exists i :: 0 <= i < |request.categories| && request.categories[i].show.currency != request.basis.currency
  }

  /** The compare-and-set guard shared by both entry points. */
  ghost function CasError(s: State, expected: Option<EditPayload>): Option<Error> {
    var base := Base(s.configs);
    if base.None? then
      if expected.Some? then Some(ConfigVersionConflict) else None
    else if expected.None? then Some(ConfigVersionRequired)
    else if expected.value != EditOf(s, base.value) then Some(ConfigVersionConflict)
    else None
  }

  ghost function NewVersion(s: State, request: ConfigRequest, now: int): State {
    var first := Current(s.configs, Active).None?;
    var catalog := AddItems(Catalog(s.categories, s.rules), request.categories);
    var v := Next(s.configs.Keys);
    var config := Config(if first then Active else Pending, request.basis, DesiredHash(request), request,
                         if first then Some(now) else None, None);
    s.(categories := catalog.categories,
       rules := catalog.rules,
       configs := Retire(s.configs, Current(s.configs, Pending), now)[v := config],
       configRules := s.configRules[v := SelectedRules(catalog.rules, request.categories)])
  }

  datatype Verdict = Refuse(error: Error) | Accept(kind: PutKind)

  ghost predicate SameSemantics(s: State, v: Option<Version>, request: ConfigRequest) {
    v.Some? && v.value in s.configs && SemanticHash(s, v.value) == DesiredHash(request)
  }

  ghost function PutVerdict(s: State, request: ConfigRequest, expected: Option<EditPayload>): Verdict {
    var active := Current(s.configs, Active);
    var pending := Current(s.configs, Pending);
    if MixedCurrency(request) then Refuse(MixedBudgetCurrency)
    else if CasError(s, expected).Some? then Refuse(CasError(s, expected).value)
    else if SameSemantics(s, active, request) then Accept(LiveEdit)
    else if SameSemantics(s, pending, request) && EditOf(s, pending.value) == EditOfRequest(request) then
      Accept(UnchangedPending)
    else Accept(if active.None? then FirstVersion else NewPending)
  }

  ghost function PutState(s: State, request: ConfigRequest, kind: PutKind, now: int): State {
    match kind
    case LiveEdit =>
      s.(configs := Retire(s.configs, Current(s.configs, Pending), now),
         categories := Present(s.categories, request.categories))
    case UnchangedPending => s
    case FirstVersion => NewVersion(s, request, now)
    case NewPending => NewVersion(s, request, now)
  }

  ghost function Put(s: State, request: ConfigRequest, expected: Option<EditPayload>, now: int): PutResult {
    match PutVerdict(s, request, expected)
    case Refuse(error) => PutRejected(error)
    case Accept(kind) => PutAccepted(kind, PutState(s, request, kind, now))
  }
}
