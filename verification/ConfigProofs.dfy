/** Every accepted configuration write keeps the configuration invariant. */
module ConfigProofs {
  import opened Model
  import opened ConfigSpec
  import opened RefreshSpec
  import opened Invariant

  // ---------------------------------------------------------------------
  // Reading a configuration back

  lemma LinksOkOf(s: State, v: Version)
    requires ConfigInv(s) && v in s.configs
    ensures CatalogOk(Catalog(s.categories, s.rules))
    ensures v in s.configRules && LinksOk(s.rules, LinksOf(s, v), s.configs[v].source)
  {
  }

  lemma JoinKeys(c: Catalog, links: map<Key, Version>, source: ConfigRequest)
    requires CatalogOk(c) && LinksOk(c.rules, links, source)
    ensures Join(c, links).Keys == links.Keys == ByKey(source.categories).Keys
  {
  }

  lemma JoinAt(c: Catalog, links: map<Key, Version>, source: ConfigRequest, k: Key)
    requires CatalogOk(c) && LinksOk(c.rules, links, source)
    requires k in links
    ensures k in Join(c, links) && k in c.categories && k in ByKey(source.categories)
    ensures Join(c, links)[k].version == links[k]
    ensures Join(c, links)[k].rule.text == ByKey(source.categories)[k].rule
    ensures RuleOk(RuleRef(k, links[k]), Join(c, links)[k].rule)
  {
  }

  /** The stored digest of a version is the semantic digest recomputed through its links. */
  lemma StoredHashIsSemantic(s: State, v: Version)
    requires ConfigInv(s) && v in s.configs
    ensures SemanticHash(s, v) == s.configs[v].hash == DesiredHash(s.configs[v].source)
  {
    LinksOkOf(s, v);
    JoinHash(Catalog(s.categories, s.rules), LinksOf(s, v), s.configs[v].source);
    assert ContentOk(s.configs[v]);
  }

  lemma JoinHash(c: Catalog, links: map<Key, Version>, source: ConfigRequest)
    requires CatalogOk(c) && LinksOk(c.rules, links, source)
    ensures (map k | k in Join(c, links) :: Join(c, links)[k].rule.hash) == DesiredHash(source).rules
  {
  }

  /** A version whose digest is the desired one links the requested keys and texts. */
  lemma SameHashSameRules(s: State, v: Version, request: ConfigRequest)
    requires ConfigInv(s) && v in s.configs && SemanticHash(s, v) == DesiredHash(request)
    ensures s.configs[v].basis == request.basis
    ensures ByKey(s.configs[v].source.categories).Keys == ByKey(request.categories).Keys
    ensures forall k :: k in ByKey(request.categories) ==>
              ByKey(s.configs[v].source.categories)[k].rule == ByKey(request.categories)[k].rule
  {
    StoredHashIsSemantic(s, v);
    EqualHashes(s.configs[v].source, request);
  }

  lemma EqualHashes(a: ConfigRequest, b: ConfigRequest)
    requires DesiredHash(a).rules == DesiredHash(b).rules
    ensures ByKey(a.categories).Keys == ByKey(b.categories).Keys
    ensures forall k :: k in ByKey(b.categories) ==> ByKey(a.categories)[k].rule == ByKey(b.categories)[k].rule
  {
    var x, y := DesiredHash(a).rules, DesiredHash(b).rules;
    assert ByKey(a.categories).Keys == x.Keys == y.Keys == ByKey(b.categories).Keys;
    forall k | k in ByKey(b.categories) ensures ByKey(a.categories)[k].rule == ByKey(b.categories)[k].rule {
      assert k in x && x[k] == y[k];
    }
  }

  ghost predicate CatalogExtends(c: Catalog, d: Catalog) {
    && c.categories.Keys <= d.categories.Keys
    && forall ref :: ref in c.rules ==> ref in d.rules && d.rules[ref] == c.rules[ref]
  }

  lemma JoinStable(c: Catalog, d: Catalog, links: map<Key, Version>, source: ConfigRequest)
    requires CatalogOk(c) && LinksOk(c.rules, links, source) && CatalogExtends(c, d)
    ensures Join(d, links) == Join(c, links)
    ensures LinksOk(d.rules, links, source)
  {
    forall k | k in links ensures k in Join(c, links) && k in Join(d, links) && Join(c, links)[k] == Join(d, links)[k] {
      JoinAt(c, links, source, k);
    }
  }

  /** Rule rows are immutable, so a stored version always reads back the same rules. */
  lemma RulesOfStable(s: State, t: State, v: Version)
    requires ConfigInv(s) && v in s.configs
    requires v in t.configRules && t.configRules[v] == s.configRules[v]
    requires CatalogExtends(Catalog(s.categories, s.rules), Catalog(t.categories, t.rules))
    ensures RulesOf(t, v) == RulesOf(s, v)
  {
    LinksOkOf(s, v);
    JoinStable(Catalog(s.categories, s.rules), Catalog(t.categories, t.rules), LinksOf(s, v), s.configs[v].source);
  }

  // ---------------------------------------------------------------------
  // Adding categories and rule versions

  lemma FreshRef(rules: map<RuleRef, Rule>, key: Key)
    requires NoGaps(rules)
    ensures RuleRef(key, Next(VersionsOf(rules, key))) !in rules
    ensures forall j: nat :: 1 <= j < Next(VersionsOf(rules, key)) ==> RuleRef(key, j) in rules
  {
    var versions := VersionsOf(rules, key);
    var n := Next(versions);
    forall v: Version | RuleRef(key, v) in rules ensures v < n {
      assert RuleRef(key, v).version in versions;
    }
    forall j: nat | 1 <= j < n ensures RuleRef(key, j) in rules {
      assert versions != {};
      assert RuleRef(key, n - 1) in rules;
    }
  }

  lemma NewRuleOk(c: Catalog, item: CategoryInput)
    requires CatalogOk(c) && 1 <= item.rule.lookback <= 3650
    requires item.key in c.categories
    requires VersionOf(c.rules, item.key, RuleHash(item.key, item.rule)).None?
    ensures RuleRef(item.key, Next(VersionsOf(c.rules, item.key))) !in c.rules
    ensures CatalogOk(Catalog(c.categories,
              c.rules[RuleRef(item.key, Next(VersionsOf(c.rules, item.key))) :=
                        Rule(item.rule, RuleHash(item.key, item.rule))]))
  {
    FreshRef(c.rules, item.key);
    var rules := c.rules[RuleRef(item.key, Next(VersionsOf(c.rules, item.key))) :=
                           Rule(item.rule, RuleHash(item.key, item.rule))];
    assert NoGaps(rules);
    assert DistinctHashes(rules);
  }

  lemma AddItemOk(c: Catalog, item: CategoryInput)
    requires CatalogOk(c) && 1 <= item.rule.lookback <= 3650
    ensures CatalogOk(AddItem(c, item))
    ensures CatalogExtends(c, AddItem(c, item))
    ensures item.key in AddItem(c, item).categories
  {
    var categories := AddItem(c, item).categories;
    if VersionOf(c.rules, item.key, RuleHash(item.key, item.rule)).None? {
      NewRuleOk(Catalog(categories, c.rules), item);
    }
  }

  lemma AddItemIs(c: Catalog, item: CategoryInput)
    ensures var hash := RuleHash(item.key, item.rule);
            && AddItem(c, item).categories ==
                 (if item.key in c.categories then c.categories else c.categories[item.key := item.show])
            && AddItem(c, item).rules ==
                 (if VersionOf(c.rules, item.key, hash).Some? then c.rules
                  else c.rules[RuleRef(item.key, Next(VersionsOf(c.rules, item.key))) := Rule(item.rule, hash)])
  {
  }

  lemma AddItemSelects(c: Catalog, item: CategoryInput)
    ensures VersionOf(AddItem(c, item).rules, item.key, RuleHash(item.key, item.rule)).Some?
  {
  }

  lemma {:induction false} AddItemsOk(c: Catalog, items: seq<CategoryInput>)
    requires CatalogOk(c)
    requires forall i :: 0 <= i < |items| ==> 1 <= items[i].rule.lookback <= 3650
    ensures CatalogOk(AddItems(c, items))
    ensures CatalogExtends(c, AddItems(c, items))
    ensures forall i :: 0 <= i < |items| ==>
              && items[i].key in AddItems(c, items).categories
              && VersionOf(AddItems(c, items).rules, items[i].key, RuleHash(items[i].key, items[i].rule)).Some?
  {
    if items != [] {
      var n := |items| - 1;
      var d := AddItems(c, items[..n]);
      AddItemsOk(c, items[..n]);
      AddItemOk(d, items[n]);
      AddItemSelects(d, items[n]);
      forall i | 0 <= i < |items|
        ensures items[i].key in AddItems(c, items).categories
        ensures VersionOf(AddItems(c, items).rules, items[i].key, RuleHash(items[i].key, items[i].rule)).Some?
      {
        if i < n {
          assert items[..n][i] == items[i];
          var v := VersionOf(d.rules, items[i].key, RuleHash(items[i].key, items[i].rule)).value;
          assert RuleRef(items[i].key, v) in AddItems(c, items).rules;
        }
      }
    }
  }

  /** Going back to an earlier rule selects the version that rule first received. */
  lemma EarlierRuleIsReused(c: Catalog, items: seq<CategoryInput>, i: nat, v: Version)
    requires CatalogOk(c) && UniqueKeys(items) && i < |items|
    requires forall j :: 0 <= j < |items| ==> 1 <= items[j].rule.lookback <= 3650
    requires RuleRef(items[i].key, v) in c.rules && c.rules[RuleRef(items[i].key, v)].text == items[i].rule
    ensures items[i].key in SelectedRules(AddItems(c, items).rules, items)
    ensures SelectedRules(AddItems(c, items).rules, items)[items[i].key] == v
  {
    AddItemsOk(c, items);
    ByKeyAt(items, i);
    var d := AddItems(c, items);
    var hash := RuleHash(items[i].key, items[i].rule);
    assert RuleOk(RuleRef(items[i].key, v), c.rules[RuleRef(items[i].key, v)]);
    var w := VersionOf(d.rules, items[i].key, hash).value;
    assert RuleRef(items[i].key, w) == RuleRef(items[i].key, v);
  }

  lemma RequestMeans(request: ConfigRequest)
    requires request.Valid()
    ensures |request.categories| >= 1 && UniqueKeys(request.categories)
    ensures forall i :: 0 <= i < |request.categories| ==> 1 <= request.categories[i].rule.lookback <= 3650
  {
  }

  lemma SelectedOk(rules: map<RuleRef, Rule>, categories: map<Key, Presentation>, request: ConfigRequest)
    requires CatalogOk(Catalog(categories, rules)) && request.Valid()
    requires forall i :: 0 <= i < |request.categories| ==>
               VersionOf(rules, request.categories[i].key,
                         RuleHash(request.categories[i].key, request.categories[i].rule)).Some?
    ensures LinksOk(rules, SelectedRules(rules, request.categories), request)
  {
  }

  // ---------------------------------------------------------------------
  // The three kinds of accepted write

  lemma RetireKeeps(configs: map<Version, Config>, now: int)
    requires VersionsOk(configs)
    ensures VersionsOk(Retire(configs, Current(configs, Pending), now))
    ensures SameContents(configs, Retire(configs, Current(configs, Pending), now))
    ensures Current(Retire(configs, Current(configs, Pending), now), Pending).None?
    ensures Current(Retire(configs, Current(configs, Pending), now), Active) == Current(configs, Active)
  {
    var r := Retire(configs, Current(configs, Pending), now);
    assert r.Keys == configs.Keys;
    forall v | v in r
      ensures StampOk(r[v]) && r[v].status != Pending && (r[v].status == Active <==> configs[v].status == Active)
    {
      assert StampOk(configs[v]);
    }
    SameActive(configs, r);
  }

  lemma SameActive(configs: map<Version, Config>, r: map<Version, Config>)
    requires AtMostOne(configs, Active) && r.Keys == configs.Keys
    requires forall v :: v in r ==> (r[v].status == Active <==> configs[v].status == Active)
    ensures Current(r, Active) == Current(configs, Active) && AtMostOne(r, Active)
  {
  }

  /** The immutable columns of the configuration table. */
  ghost predicate SameContent(a: Config, b: Config) {
    a.basis == b.basis && a.hash == b.hash && a.source == b.source
  }

  ghost predicate SameContents(configs: map<Version, Config>, r: map<Version, Config>) {
    r.Keys == configs.Keys && forall v :: v in configs ==> SameContent(configs[v], r[v])
  }

  lemma ContentsKept(configs: map<Version, Config>, r: map<Version, Config>)
    requires ContentsOk(configs) && SameContents(configs, r)
    ensures ContentsOk(r)
  {
  }

  lemma LinksKept(rules: map<RuleRef, Rule>, configRules: map<Version, map<Key, Version>>,
                  configs: map<Version, Config>, r: map<Version, Config>)
    requires AllLinksOk(rules, configRules, configs) && SameContents(configs, r)
    ensures AllLinksOk(rules, configRules, r)
  {
  }

  lemma LiveEditConfigInv(s: State, request: ConfigRequest, now: int)
    requires ConfigInv(s)
    ensures ConfigInv(s.(configs := Retire(s.configs, Current(s.configs, Pending), now),
                         categories := Present(s.categories, request.categories)))
  {
    RetireKeeps(s.configs, now);
    ContentsKept(s.configs, Retire(s.configs, Current(s.configs, Pending), now));
    LinksKept(s.rules, s.configRules, s.configs, Retire(s.configs, Current(s.configs, Pending), now));
  }

  lemma NewVersionCatalog(s: State, request: ConfigRequest, now: int)
    requires CatalogOk(Catalog(s.categories, s.rules)) && request.Valid()
    ensures var t := NewVersion(s, request, now);
            && CatalogOk(Catalog(t.categories, t.rules))
            && CatalogExtends(Catalog(s.categories, s.rules), Catalog(t.categories, t.rules))
            && LinksOk(t.rules, SelectedRules(t.rules, request.categories), request)
  {
    var c := Catalog(s.categories, s.rules);
    var d := AddItems(c, request.categories);
    AddItemsOk(c, request.categories);
    SelectedOk(d.rules, d.categories, request);
  }

  lemma PresentCatalogOk(d: Catalog, items: seq<CategoryInput>)
    requires CatalogOk(d)
    ensures Present(d.categories, items).Keys == d.categories.Keys
    ensures CatalogOk(Catalog(Present(d.categories, items), d.rules))
  {
  }

  lemma AddVersionOk(configs: map<Version, Config>, config: Config)
    requires VersionsOk(configs) && StampOk(config)
    requires Current(configs, Pending).None?
    requires config.status == if Current(configs, Active).None? then Active else Pending
    ensures VersionsOk(configs[Next(configs.Keys) := config])
    ensures Next(configs.Keys) !in configs
  {
    var v := Next(configs.Keys);
    var r := configs[v := config];
    NextKeepsClosed(configs.Keys);
    assert r.Keys == configs.Keys + {v};
    var active := if Current(configs, Active).None? then v else Current(configs, Active).value;
    assert r[active].status == Active;
  }

  lemma NewVersionConfigs(s: State, request: ConfigRequest, now: int)
    requires VersionsOk(s.configs) && ContentsOk(s.configs) && request.Valid()
    ensures VersionsOk(NewVersion(s, request, now).configs)
    ensures ContentsOk(NewVersion(s, request, now).configs)
    ensures Next(s.configs.Keys) !in s.configs
  {
    var t := NewVersion(s, request, now);
    var r := Retire(s.configs, Current(s.configs, Pending), now);
    var v := Next(s.configs.Keys);
    RetireKeeps(s.configs, now);
    ContentsKept(s.configs, r);
    AddVersionOk(r, t.configs[v]);
    AddContent(r, v, t.configs[v]);
  }

  lemma AddContent(r: map<Version, Config>, v: Version, config: Config)
    requires ContentsOk(r) && ContentOk(config)
    ensures ContentsOk(r[v := config])
  {
  }

  lemma NewVersionLinks(s: State, request: ConfigRequest, now: int)
    requires CatalogOk(Catalog(s.categories, s.rules)) && VersionsOk(s.configs)
    requires AllLinksOk(s.rules, s.configRules, s.configs) && request.Valid()
    ensures CatalogOk(Catalog(NewVersion(s, request, now).categories, NewVersion(s, request, now).rules))
    ensures AllLinksOk(NewVersion(s, request, now).rules, NewVersion(s, request, now).configRules,
                       NewVersion(s, request, now).configs)
  {
    var t := NewVersion(s, request, now);
    var r := Retire(s.configs, Current(s.configs, Pending), now);
    var v := Next(s.configs.Keys);
    NewVersionCatalog(s, request, now);
    RetireKeeps(s.configs, now);
    LinksKept(s.rules, s.configRules, s.configs, r);
    AddLinksOk(Catalog(s.categories, s.rules), Catalog(t.categories, t.rules), s.configRules, r, v, t.configs[v]);
  }

  lemma AddLinksOk(c: Catalog, d: Catalog, configRules: map<Version, map<Key, Version>>,
                   configs: map<Version, Config>, v: Version, config: Config)
    requires CatalogOk(c) && CatalogExtends(c, d) && AllLinksOk(c.rules, configRules, configs)
    requires v !in configs && LinksOk(d.rules, SelectedRules(d.rules, config.source.categories), config.source)
    ensures AllLinksOk(d.rules, configRules[v := SelectedRules(d.rules, config.source.categories)],
                       configs[v := config])
  {
  }

  lemma PutStateConfigInv(s: State, request: ConfigRequest, kind: PutKind, now: int)
    requires ConfigInv(s) && request.Valid()
    ensures ConfigInv(PutState(s, request, kind, now))
  {
    hide CatalogOk, VersionsOk, ContentsOk, AllLinksOk, AddItems, Present;
    if kind == LiveEdit {
      LiveEditConfigInv(s, request, now);
    } else if kind != UnchangedPending {
      NewVersionConfigs(s, request, now);
      NewVersionLinks(s, request, now);
      assert Next(s.configs.Keys) in NewVersion(s, request, now).configs;
    }
  }

  // ---------------------------------------------------------------------
  // Activation

  lemma ActivatedOk(configs: map<Version, Config>, v: Version, now: int)
    requires VersionsOk(configs) && v in configs && configs[v].status != Superseded
    ensures VersionsOk(Activated(configs, v, now))
    ensures SameContents(configs, Activated(configs, v, now))
    ensures Activated(configs, v, now)[v].status == Active
  {
    var r := Activated(configs, v, now);
    if configs[v].status == Pending {
      assert r.Keys == configs.Keys;
      forall w | w in r
        ensures StampOk(r[w]) && (r[w].status == Active <==> w == v) && r[w].status != Pending
        ensures SameContent(configs[w], r[w])
      {
        assert StampOk(configs[w]);
      }
      assert r[v].status == Active;
    }
  }

  lemma ActivatedConfigInv(s: State, v: Version, now: int)
    requires ConfigInv(s) && v in s.configs && s.configs[v].status != Superseded
    ensures ConfigInv(s.(configs := Activated(s.configs, v, now),
                         categories := if s.configs[v].status == Pending
                                       then Present(s.categories, s.configs[v].source.categories)
                                       else s.categories))
  {
    ActivatedOk(s.configs, v, now);
    ContentsKept(s.configs, Activated(s.configs, v, now));
    LinksKept(s.rules, s.configRules, s.configs, Activated(s.configs, v, now));
    PresentCatalogOk(Catalog(s.categories, s.rules), s.configs[v].source.categories);
  }

  lemma AddPendingActive(r: map<Version, Config>, v: Version, config: Config)
    requires AtMostOne(r, Active) && Current(r, Active).Some? && v !in r && config.status == Pending
    ensures Current(r[v := config], Active) == Current(r, Active)
  {
    assert r[v := config][Current(r, Active).value].status == Active;
  }
}
