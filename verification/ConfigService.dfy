/** put_config as the service runs it: the compare-and-set guard, the live edit, the
    unchanged pending version and the loops that write a new version. */
module ConfigService {
  import opened Options
  import opened Model
  import opened ConfigSpec
  import opened RefreshSpec
  import opened Invariant
  import opened ConfigProofs
  import opened StoreModel
  import opened Traces
  import opened RefreshService
  import opened CommitService

  // ---------------------------------------------------------------------
  // Categories and rule versions

  lemma VersionIs(rules: map<RuleRef, Rule>, key: Key, hash: RuleHash, v: Version)
    requires DistinctHashes(rules)
    requires RuleRef(key, v) in rules && rules[RuleRef(key, v)].hash == hash
    ensures VersionOf(rules, key, hash) == Some(v)
  {
  }

  lemma NoVersion(rules: map<RuleRef, Rule>, key: Key, hash: RuleHash)
    requires forall ref :: ref in rules && ref.category == key ==> rules[ref].hash != hash
    ensures VersionOf(rules, key, hash).None?
  {
  }

  lemma SameCategories(c: Catalog, key: Key, show: Presentation)
    requires CatalogOk(c) && key !in c.categories
    ensures CatalogOk(Catalog(c.categories[key := show], c.rules))
  {
  }

  lemma CatalogMeans(c: Catalog)
    requires CatalogOk(c)
    ensures DistinctHashes(c.rules) && NoGaps(c.rules)
  {
  }

  /** Create the category row and the rule version of one item where they are missing. */
  method AddRequestedItem(db: Store, item: CategoryInput) returns (version: Version)
    requires 1 <= item.rule.lookback <= 3650
    requires CatalogOk(Catalog(db.categories, db.rules))
    modifies db`categories, db`rules
    ensures Catalog(db.categories, db.rules) == AddItem(old(Catalog(db.categories, db.rules)), item)
    ensures CatalogOk(Catalog(db.categories, db.rules))
    ensures VersionOf(db.rules, item.key, RuleHash(item.key, item.rule)) == Some(version)
  {
    hide CatalogOk, AddItem, VersionOf, Next, VersionsOf, NoGaps, DistinctHashes;
    ghost var c := Catalog(db.categories, db.rules);
    var hash := RuleHash(item.key, item.rule);
    CatalogMeans(c);
    AddItemIs(c, item);
    if item.key !in db.categories {
      SameCategories(c, item.key, item.show);
      db.InsertCategory(item.key, item.show);
    }
    var rules := db.rules;
    if ref :| ref in rules && ref.category == item.key && rules[ref].hash == hash {
      version := ref.version;
      assert ref == RuleRef(item.key, version);
      VersionIs(rules, item.key, hash, version);
    } else {
      NoVersion(rules, item.key, hash);
      var versions := VersionsOf(rules, item.key);
      version := NextNumber(versions);
      NewRuleOk(Catalog(db.categories, db.rules), item);
      db.InsertRule(RuleRef(item.key, version), Rule(item.rule, hash));
      CatalogMeans(Catalog(db.categories, db.rules));
      VersionIs(db.rules, item.key, hash, version);
    }
  }

  lemma SelectedStep(c: Catalog, items: seq<CategoryInput>, i: nat, version: Version)
    requires i < |items| && UniqueKeys(items)
    requires VersionOf(AddItem(c, items[i]).rules, items[i].key, RuleHash(items[i].key, items[i].rule)) == Some(version)
    requires DistinctHashes(AddItem(c, items[i]).rules)
    ensures SelectedRules(AddItem(c, items[i]).rules, items[..i + 1]) ==
              SelectedRules(c.rules, items[..i])[items[i].key := version]
  {
    hide *;
    var item := items[i];
    var m := ByKey(items[..i]);
    var d := AddItem(c, item);
    ByKeyNext(items, i);
    var a, b := SelectedRules(d.rules, items[..i + 1]), SelectedRules(c.rules, items[..i])[item.key := version];
    forall k ensures (k in a <==> k in b) && (k in a ==> a[k] == b[k]) {
      SelectedAt(d.rules, items[..i + 1], k);
      SelectedAt(c.rules, items[..i], k);
      if k != item.key && k in m {
        OtherVersion(c, item, k, RuleHash(k, m[k].rule));
      }
    }
  }

  lemma SelectedAt(rules: map<RuleRef, Rule>, items: seq<CategoryInput>, k: Key)
    ensures var m := ByKey(items);
            && (k in SelectedRules(rules, items) <==>
                  k in m && VersionOf(rules, k, RuleHash(k, m[k].rule)).Some?)
            && (k in SelectedRules(rules, items) ==>
                  SelectedRules(rules, items)[k] == VersionOf(rules, k, RuleHash(k, m[k].rule)).value)
  {
  }

  lemma OtherVersion(c: Catalog, item: CategoryInput, k: Key, hash: RuleHash)
    requires k != item.key && DistinctHashes(AddItem(c, item).rules)
    ensures VersionOf(AddItem(c, item).rules, k, hash) == VersionOf(c.rules, k, hash)
  {
  }

  lemma AddItemsStep(c: Catalog, items: seq<CategoryInput>, i: nat)
    requires i < |items|
    ensures AddItems(c, items[..i + 1]) == AddItem(AddItems(c, items[..i]), items[i])
  {
    hide AddItem;
    var next := items[..i + 1];
    assert next[..|next| - 1] == items[..i] && next[i] == items[i];
  }

  lemma NoItemsYet(c: Catalog, items: seq<CategoryInput>)
    ensures AddItems(c, items[..0]) == c && SelectedRules(c.rules, items[..0]) == map[] && items[..|items|] == items
  {
  }

  /** Every requested item in turn; remembers the rule version each one selects. */
  method AddRequested(db: Store, items: seq<CategoryInput>) returns (selected: map<Key, Version>)
    requires |items| >= 1 && UniqueKeys(items)
    requires forall i :: 0 <= i < |items| ==> 1 <= items[i].rule.lookback <= 3650
    requires CatalogOk(Catalog(db.categories, db.rules))
    modifies db`categories, db`rules
    ensures Catalog(db.categories, db.rules) == AddItems(old(Catalog(db.categories, db.rules)), items)
    ensures CatalogOk(Catalog(db.categories, db.rules))
    ensures selected == SelectedRules(db.rules, items)
  {
    hide CatalogOk, AddItems, AddItem, SelectedRules, VersionOf, UniqueKeys, DistinctHashes, NoGaps;
    ghost var c := Catalog(db.categories, db.rules);
    selected := map[];
    NoItemsYet(c, items);
    for i := 0 to |items|
      invariant Catalog(db.categories, db.rules) == AddItems(c, items[..i])
      invariant CatalogOk(Catalog(db.categories, db.rules))
      invariant selected == SelectedRules(db.rules, items[..i])
    {
      ghost var before := Catalog(db.categories, db.rules);
      AddItemsStep(c, items, i);
      var version := AddRequestedItem(db, items[i]);
      CatalogMeans(Catalog(db.categories, db.rules));
      SelectedStep(before, items, i, version);
      selected := selected[items[i].key := version];
    }
  }

  // ---------------------------------------------------------------------
  // Guards

  method IsMixedCurrency(request: ConfigRequest) returns (mixed: bool)
    ensures mixed == MixedCurrency(request)
  {
    for i := 0 to |request.categories|
      invariant forall j :: 0 <= j < i ==> request.categories[j].show.currency == request.basis.currency
    {
      if request.categories[i].show.currency != request.basis.currency {
        return true;
      }
    }
    return false;
  }

  method CheckExpected(db: Store, expected: Option<EditPayload>, active: Option<Version>, pending: Option<Version>)
    returns (error: Option<Error>)
    requires active == Current(db.configs, Active) && pending == Current(db.configs, Pending)
    ensures error == CasError(db.Snapshot(), expected)
  {
    hide EditOf, Current;
    var base := if pending.Some? then pending else active;
    if base.None? {
      if expected.Some? {
        return Some(ConfigVersionConflict);
      }
      return None;
    }
    if expected.None? {
      return Some(ConfigVersionRequired);
    }
    if expected.value != EditOf(db.Snapshot(), base.value) {
      return Some(ConfigVersionConflict);
    }
    return None;
  }

  // ---------------------------------------------------------------------
  // Writes

  lemma RetireMoves(configs: map<Version, Config>, pending: Version, now: int)
    requires VersionsOk(configs) && pending in configs && configs[pending].status == Pending
    ensures var next := configs[pending].(status := Superseded, supersededAt := Some(now));
            && SameContent(configs[pending], next) && StampOk(next)
            && StatusMayMove(configs[pending].status, next.status) && next.status == Superseded
            && AtMostOne(configs[pending := next], Active)
            && Retire(configs, Some(pending), now) == configs[pending := next]
    ensures Retire(configs, None, now) == configs
  {
  }

  method RetirePending(db: Store, pending: Option<Version>, now: int)
    requires pending == Current(db.configs, Pending)
    requires VersionsOk(db.configs)
    modifies db`configs
    ensures db.configs == Retire(old(db.configs), pending, now)
  {
    hide VersionsOk, StampOk, SameContent, StatusMayMove, AtMostOne, Retire;
    if pending.Some? {
      RetireMoves(db.configs, pending.value, now);
      db.UpdateConfig(pending.value,
                      db.configs[pending.value].(status := Superseded, supersededAt := Some(now)));
    } else {
      NothingRetired(db.configs, now);
    }
  }

  lemma NothingRetired(configs: map<Version, Config>, now: int)
    ensures Retire(configs, None, now) == configs
  {
  }

  /** A request with the active version's digest lists categories that have rows. */
  lemma LiveEditCategories(s: State, v: Version, request: ConfigRequest)
    requires v in s.configs && SemanticHash(s, v) == DesiredHash(request)
    requires ConfigInv(s)
    ensures forall i :: 0 <= i < |request.categories| ==> request.categories[i].key in s.categories
  {
    SameHashSameRules(s, v, request);
    hide CatalogOk, VersionsOk, ContentsOk, AllLinksOk, SemanticHash, DesiredHash;
    var items := request.categories;
    forall i | 0 <= i < |items| ensures items[i].key in s.categories {
      assert items[i].key in ByKey(items);
      SourceCategories(s, v, items[i].key);
    }
  }

  function NewConfig(request: ConfigRequest, first: bool, now: int): Config {
    Config(if first then Active else Pending, request.basis, DesiredHash(request), request,
           if first then Some(now) else None, None)
  }

  lemma NewVersionAccepted(configs: map<Version, Config>, pending: Option<Version>, request: ConfigRequest, first: bool,
                           now: int)
    requires VersionsOk(configs) && pending == Current(configs, Pending) && first == Current(configs, Active).None?
    requires request.Valid()
    ensures var r := Retire(configs, pending, now);
            var v := Next(r.Keys);
            var config := NewConfig(request, first, now);
            && r.Keys == configs.Keys && v !in r && v > 0 && config.basis.aggregation > 0 && StampOk(config)
            && AtMostOne(r[v := config], Active)
  {
    hide DesiredHash, Retire, Closed, VersionsOk, AtMostOne;
    var r := Retire(configs, pending, now);
    RetireKeeps(configs, now);
    RetiredKeys(configs, r);
    AddOne(r, Next(r.Keys), NewConfig(request, first, now));
  }

  lemma RetiredKeys(configs: map<Version, Config>, r: map<Version, Config>)
    requires SameContents(configs, r)
    ensures r.Keys == configs.Keys
  {
  }

  lemma AddOne(r: map<Version, Config>, v: Version, config: Config)
    requires VersionsOk(r) && (config.status == Active ==> Current(r, Active).None?) && v !in r
    ensures AtMostOne(r[v := config], Active)
  {
  }

  lemma SelectedLinks(c: Catalog, items: seq<CategoryInput>)
    requires UniqueKeys(items) && |items| >= 1
    requires forall i :: 0 <= i < |items| ==> 1 <= items[i].rule.lookback <= 3650
    requires CatalogOk(c)
    ensures var d := AddItems(c, items);
            var selected := SelectedRules(d.rules, items);
            && selected != map[] && (forall k :: k in selected ==> RuleRef(k, selected[k]) in d.rules)
            && forall i :: 0 <= i < |items| ==> items[i].key in d.categories
  {
    AddItemsOk(c, items);
    var d := AddItems(c, items);
    hide AddItems, CatalogOk;
    ByKeyAt(items, 0);
    assert items[0].key in SelectedRules(d.rules, items);
  }

  lemma LinkStep(table: map<Version, map<Key, Version>>, v: Version, selected: map<Key, Version>, rest: set<Key>,
                 k: Key)
    requires k in rest && rest <= selected.Keys
    ensures RowsOf(table[v := selected - rest], v) == selected - rest
    ensures table[v := selected - rest][v := (selected - rest)[k := selected[k]]] ==
              table[v := selected - (rest - {k})]
    ensures v !in table && rest == selected.Keys ==> RowsOf(table, v) == selected - rest
    ensures table[v := (selected - rest)[k := selected[k]]] == table[v := selected - (rest - {k})]
  {
    assert (selected - rest)[k := selected[k]] == selected - (rest - {k});
  }

  /** The links of a new version, one row each. */
  method InsertLinks(db: Store, v: Version, selected: map<Key, Version>)
    requires v in db.configs && v !in db.configRules && selected != map[]
    requires forall k :: k in selected ==> RuleRef(k, selected[k]) in db.rules
    modifies db`configRules
    ensures db.configRules == old(db.configRules)[v := selected]
  {
    hide RowsOf;
    var rest := selected.Keys;
    while rest != {}
      invariant rest <= selected.Keys
      invariant rest == selected.Keys ==> db.configRules == old(db.configRules)
      invariant rest != selected.Keys ==> db.configRules == old(db.configRules)[v := selected - rest]
      decreases |rest|
    {
      var k :| k in rest;
      LinkStep(old(db.configRules), v, selected, rest, k);
      db.InsertConfigRule(v, k, selected[k]);
      rest := rest - {k};
    }
    assert selected - rest == selected;
  }

  lemma NewVersionIs(s: State, request: ConfigRequest, now: int)
    ensures var first := Current(s.configs, Active).None?;
            var d := AddItems(Catalog(s.categories, s.rules), request.categories);
            var v := Next(s.configs.Keys);
            NewVersion(s, request, now) ==
              s.(categories := d.categories,
                 rules := d.rules,
                 configs := Retire(s.configs, Current(s.configs, Pending), now)
                              [v := NewConfig(request, first, now)],
                 configRules := s.configRules[v := SelectedRules(d.rules, request.categories)])
  {
  }

  lemma ConfigInvMeans(s: State)
    requires ConfigInv(s)
    ensures CatalogOk(Catalog(s.categories, s.rules)) && VersionsOk(s.configs) && s.configRules.Keys == s.configs.Keys
    ensures AtMostOne(s.configs, Active) && AtMostOne(s.configs, Pending)
  {
  }

  /** Supersede the pending version, then insert the new one and its links. */
  method InsertVersion(db: Store, request: ConfigRequest, selected: map<Key, Version>, first: bool,
                       pending: Option<Version>, now: int)
    returns (v: Version)
    requires pending == Current(db.configs, Pending) && first == Current(db.configs, Active).None?
    requires db.configRules.Keys == db.configs.Keys && request.Valid()
    requires selected != map[] && forall k :: k in selected ==> RuleRef(k, selected[k]) in db.rules
    requires VersionsOk(db.configs)
    modifies db`configs, db`configRules
    ensures v == Next(old(db.configs).Keys)
    ensures db.configs ==
              Retire(old(db.configs), pending, now)[Next(old(db.configs).Keys) := NewConfig(request, first, now)]
    ensures db.configRules == old(db.configRules)[Next(old(db.configs).Keys) := selected]
  {
    hide *;
    NewVersionAccepted(db.configs, pending, request, first, now);
    RetirePending(db, pending, now);
    v := NextNumber(db.configs.Keys);
    db.InsertConfig(v, NewConfig(request, first, now));
    InsertLinks(db, v, selected);
  }

  /** The snapshot of a version as items, read from category rows and linked rules. */
  function Shown(categories: map<Key, Presentation>, rules: map<Key, RuleVersion>, rest: set<Key>)
    : map<Key, CategoryInput>
  {
    map k | k in rules && k in categories && k !in rest :: CategoryInput(k, categories[k], rules[k].rule.text)
  }

  lemma ShownStep(categories: map<Key, Presentation>, rules: map<Key, RuleVersion>, rest: set<Key>, k: Key,
                  items: seq<CategoryInput>)
    requires k in rest && k in rules && k in categories && ByKey(items) == Shown(categories, rules, rest)
    ensures ByKey(items + [CategoryInput(k, categories[k], rules[k].rule.text)]) ==
              Shown(categories, rules, rest - {k})
  {
    var item := CategoryInput(k, categories[k], rules[k].rule.text);
    var next := items + [item];
    assert next[..|next| - 1] == items && next[|next| - 1] == item;
  }

  lemma ShownNone(categories: map<Key, Presentation>, rules: map<Key, RuleVersion>)
    ensures ByKey([]) == Shown(categories, rules, rules.Keys)
  {
  }

  lemma ShownEdits(categories: map<Key, Presentation>, rules: map<Key, RuleVersion>, items: seq<CategoryInput>)
    requires ByKey(items) == Shown(categories, rules, {})
    ensures Present(categories, items) == categories
    ensures (map k | k in ByKey(items) :: CategoryEdit(ByKey(items)[k].show, ByKey(items)[k].rule)) ==
              map k | k in rules && k in categories :: CategoryEdit(categories[k], rules[k].rule.text)
  {
    hide ByKey;
  }

  lemma ShownAll(s: State, v: Version, items: seq<CategoryInput>)
    requires v in s.configs && ByKey(items) == Shown(s.categories, RulesOf(s, v), {})
    ensures EditOfRequest(ConfigRequest(s.configs[v].basis, items)) == LiveSnapshot(s, v)
    ensures Present(s.categories, items) == s.categories
    ensures forall i :: 0 <= i < |items| ==> items[i].key in s.categories
  {
    hide RulesOf, ByKey;
    ShownEdits(s.categories, RulesOf(s, v), items);
    forall i | 0 <= i < |items| ensures items[i].key in s.categories {
      assert items[i].key in ByKey(items);
    }
  }

  lemma RulesHaveRows(s: State, v: Version)
    ensures RulesOf(s, v).Keys <= s.categories.Keys
  {
  }

  /** The editable snapshot of an active version, in any order of its rules. */
  method ActiveSnapshot(db: Store, v: Version) returns (items: seq<CategoryInput>)
    requires v in db.configs
    ensures EditOfRequest(ConfigRequest(db.configs[v].basis, items)) == LiveSnapshot(db.Snapshot(), v)
    ensures Present(db.categories, items) == db.categories
    ensures forall i :: 0 <= i < |items| ==> items[i].key in db.categories
  {
    hide *;
    TablesAre(db);
    var rules := RulesOf(db.Snapshot(), v);
    RulesHaveRows(db.Snapshot(), v);
    items := [];
    var rest := rules.Keys;
    ShownNone(db.categories, rules);
    while rest != {}
      invariant rest <= rules.Keys <= db.categories.Keys
      invariant ByKey(items) == Shown(db.categories, rules, rest)
      decreases |rest|
    {
      var k :| k in rest;
      ShownStep(db.categories, rules, rest, k, items);
      items := items + [CategoryInput(k, db.categories[k], rules[k].rule.text)];
      rest := rest - {k};
    }
    ShownAll(db.Snapshot(), v, items);
  }

  /** The first configuration, or a new pending one. */
  method WriteNewVersion(db: Store, request: ConfigRequest, active: Option<Version>, pending: Option<Version>, now: int)
    requires active == Current(db.configs, Active) && pending == Current(db.configs, Pending)
    requires request.Valid()
    requires ConfigInv(db.Snapshot())
    modifies db`categories, db`rules, db`configs, db`configRules
    ensures db.Snapshot() == NewVersion(old(db.Snapshot()), request, now)
  {
    hide *;
    TablesAre(db);
    ghost var s := db.Snapshot();
    ConfigInvMeans(s);
    RequestMeans(request);
    SelectedLinks(Catalog(s.categories, s.rules), request.categories);
    NewVersionIs(s, request, now);
    var first := active.None?;
    var selected := AddRequested(db, request.categories);
    var v := InsertVersion(db, request, selected, first, pending, now);
    if first {
      var items := ActiveSnapshot(db, v);
      ApplyPresentation(db, items);
    }
    TablesAre(db);
  }

  // ---------------------------------------------------------------------
  // The service

  lemma PutIs(s: State, request: ConfigRequest, expected: Option<EditPayload>, now: int)
    ensures var o := PutOutcome(s, request, expected, now);
            var active, pending := Current(s.configs, Active), Current(s.configs, Pending);
            && (MixedCurrency(request) ==> o == Outcome(s, Rejected(MixedBudgetCurrency)))
            && (!MixedCurrency(request) && CasError(s, expected).Some? ==>
                  o == Outcome(s, Rejected(CasError(s, expected).value)))
            && (!MixedCurrency(request) && CasError(s, expected).None? ==>
                  o == if SameSemantics(s, active, request) then
                         Outcome(s.(configs := Retire(s.configs, pending, now),
                                    categories := Present(s.categories, request.categories)), Configured(LiveEdit))
                       else if SameSemantics(s, pending, request)
                               && EditOf(s, pending.value) == EditOfRequest(request) then
                         Outcome(s, Configured(UnchangedPending))
                       else Outcome(NewVersion(s, request, now),
                                    Configured(if active.None? then FirstVersion else NewPending)))
  {
    hide MixedCurrency, CasError, SameSemantics, EditOf, EditOfRequest, NewVersion, Retire, Present, Current;
  }

  method HasSemantics(db: Store, v: Option<Version>, request: ConfigRequest) returns (same: bool)
    ensures same == SameSemantics(db.Snapshot(), v, request)
  {
    hide SemanticHash, DesiredHash;
    same := v.Some? && v.value in db.configs && SemanticHash(db.Snapshot(), v.value) == DesiredHash(request);
  }

  lemma SemanticsMeans(s: State, v: Option<Version>, request: ConfigRequest)
    requires SameSemantics(s, v, request)
    ensures v.Some? && v.value in s.configs && SemanticHash(s, v.value) == DesiredHash(request)
  {
  }

  method PutConfig(db: Store, request: ConfigRequest, expected: Option<EditPayload>, now: int) returns (reply: Reply)
    requires request.Valid()
    requires Core(db.Snapshot())
    modifies db`categories, db`rules, db`configs, db`configRules
    ensures db.Snapshot() == PutOutcome(old(db.Snapshot()), request, expected, now).state
    ensures reply == PutOutcome(old(db.Snapshot()), request, expected, now).reply
  {
    hide *;
    TablesAre(db);
    ghost var s := db.Snapshot();
    PutIs(s, request, expected, now);
    CoreParts(s);
    ConfigInvMeans(s);
    var mixed := IsMixedCurrency(request);
    if mixed {
      return Rejected(MixedBudgetCurrency);
    }
    var active := FindByStatus(db.configs, Active);
    var pending := FindByStatus(db.configs, Pending);
    var error := CheckExpected(db, expected, active, pending);
    if error.Some? {
      return Rejected(error.value);
    }
    var live := HasSemantics(db, active, request);
    if live {
      SemanticsMeans(s, active, request);
      LiveEditCategories(s, active.value, request);
      RetirePending(db, pending, now);
      ApplyPresentation(db, request.categories);
      TablesAre(db);
      return Configured(LiveEdit);
    }
    var kept := HasSemantics(db, pending, request);
    if kept {
      SemanticsMeans(s, pending, request);
      if EditOf(db.Snapshot(), pending.value) == EditOfRequest(request) {
        return Configured(UnchangedPending);
      }
    }
    WriteNewVersion(db, request, active, pending, now);
    return Configured(if active.None? then FirstVersion else NewPending);
  }
}
