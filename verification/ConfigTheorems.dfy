/** What a configuration write promises: compare-and-set, read-your-write,
    isolation of the pending version, and activation without an edit. */
module ConfigTheorems {
  import opened Options
  import opened Model
  import opened ConfigSpec
  import opened Invariant
  import opened ConfigProofs

  /** The category part of a snapshot rebuilt from rows. */
  function SnapshotOf(categories: map<Key, Presentation>, rules: map<Key, RuleVersion>): map<Key, CategoryEdit> {
    map k | k in rules && k in categories :: CategoryEdit(categories[k], rules[k].rule.text)
  }

  function EditsOf(items: seq<CategoryInput>): map<Key, CategoryEdit> {
    var m := ByKey(items);
    map k | k in m :: CategoryEdit(m[k].show, m[k].rule)
  }

  /** Rows that carry the requested presentation and rules read back as the request. */
  lemma RowsReadBack(categories: map<Key, Presentation>, rules: map<Key, RuleVersion>, items: seq<CategoryInput>)
    requires rules.Keys == ByKey(items).Keys
    requires forall k :: k in rules ==>
               k in categories && categories[k] == ByKey(items)[k].show && rules[k].rule.text == ByKey(items)[k].rule
    ensures SnapshotOf(categories, rules) == EditsOf(items)
  {
  }

  /** Publishing a request over a version that links the same rules reads back as the request. */
  lemma PresentReadsBack(c: Catalog, links: map<Key, Version>, source: ConfigRequest, items: seq<CategoryInput>)
    requires CatalogOk(c) && LinksOk(c.rules, links, source)
    requires ByKey(source.categories).Keys == ByKey(items).Keys
    requires forall k :: k in ByKey(items) ==> ByKey(source.categories)[k].rule == ByKey(items)[k].rule
    ensures SnapshotOf(Present(c.categories, items), Join(Catalog(Present(c.categories, items), c.rules), links))
         == EditsOf(items)
  {
    var categories := Present(c.categories, items);
    var d := Catalog(categories, c.rules);
    assert categories.Keys == c.categories.Keys;
    assert CatalogOk(d);
    JoinKeys(d, links, source);
    forall k | k in links
      ensures k in categories && categories[k] == ByKey(items)[k].show
      ensures Join(d, links)[k].rule.text == ByKey(items)[k].rule
    {
      JoinAt(d, links, source, k);
    }
    RowsReadBack(categories, Join(d, links), items);
  }

  // ---------------------------------------------------------------------
  // Compare-and-set

  /** The hash a writer has to present: none before the first configuration. */
  ghost function CurrentEdit(s: State): Option<EditPayload> {
    var base := Base(s.configs);
    if base.None? then None else Some(EditOf(s, base.value))
  }

  /** A write is accepted exactly when it names the current snapshot and one currency. */
  lemma CompareAndSet(s: State, request: ConfigRequest, expected: Option<EditPayload>, now: int)
    ensures Put(s, request, expected, now).PutAccepted?
       <==> !MixedCurrency(request) && expected == CurrentEdit(s)
  {
  }

  // ---------------------------------------------------------------------
  // Read your write

  lemma LiveEditReadsBack(s: State, request: ConfigRequest, now: int)
    requires ConfigInv(s) && SameSemantics(s, Current(s.configs, Active), request)
    ensures CurrentEdit(PutState(s, request, LiveEdit, now)) == Some(EditOfRequest(request))
  {
    var a := Current(s.configs, Active).value;
    var t := PutState(s, request, LiveEdit, now);
    SameHashSameRules(s, a, request);
    LinksOkOf(s, a);
    RetireKeeps(s.configs, now);
    PresentReadsBack(Catalog(s.categories, s.rules), LinksOf(s, a), s.configs[a].source, request.categories);
    assert Base(t.configs) == Some(a);
    assert t.configs[a].status == Active && SameContent(s.configs[a], t.configs[a]);
    assert LiveSnapshot(t, a).categories ==
             SnapshotOf(t.categories, Join(Catalog(t.categories, t.rules), LinksOf(t, a)));
  }

  lemma NewVersionIsBase(s: State, request: ConfigRequest, now: int)
    requires VersionsOk(s.configs)
    ensures Base(NewVersion(s, request, now).configs) == Some(Next(s.configs.Keys))
  {
    var t := NewVersion(s, request, now);
    var v := Next(s.configs.Keys);
    RetireKeeps(s.configs, now);
    assert forall w :: w in t.configs && w != v ==> t.configs[w].status != Pending;
    if Current(s.configs, Active).None? {
      assert s.configs.Keys == {};
      assert t.configs[v].status == Active;
      assert Current(t.configs, Pending).None?;
      assert Current(t.configs, Active) == Some(v);
    } else {
      assert t.configs[v].status == Pending;
    }
  }

  /** Without earlier rows every category row shows what was requested. */
  lemma {:induction false} FreshRows(c: Catalog, items: seq<CategoryInput>)
    requires c.categories == map[] && UniqueKeys(items)
    ensures AddItems(c, items).categories == ShowOf(ByKey(items))
    ensures Present(AddItems(c, items).categories, items) == AddItems(c, items).categories
  {
    if items == [] {
      assert ByKey(items) == map[];
    } else {
      var n := |items| - 1;
      FreshRows(c, items[..n]);
      FreshKey(items);
      hide AddItem;
      AddItemIs(AddItems(c, items[..n]), items[n]);
      ShowNext(ByKey(items[..n]), items[n]);
      assert ByKey(items) == ByKey(items[..n])[items[n].key := items[n]];
      assert AddItems(c, items) == AddItem(AddItems(c, items[..n]), items[n]);
    }
    hide AddItems;
    PresentOwn(AddItems(c, items).categories, items);
  }

  function ShowOf(m: map<Key, CategoryInput>): map<Key, Presentation> {
    map k | k in m :: m[k].show
  }

  lemma ShowNext(m: map<Key, CategoryInput>, item: CategoryInput)
    ensures ShowOf(m[item.key := item]) == ShowOf(m)[item.key := item.show]
    ensures ShowOf(m).Keys == m.Keys
  {
  }

  lemma PresentOwn(categories: map<Key, Presentation>, items: seq<CategoryInput>)
    requires categories == ShowOf(ByKey(items))
    ensures Present(categories, items) == categories
  {
  }

  lemma FreshKey(items: seq<CategoryInput>)
    requires UniqueKeys(items) && items != []
    ensures items[|items| - 1].key !in ByKey(items[..|items| - 1])
  {
  }

  lemma FirstVersionReadsBack(s: State, request: ConfigRequest, now: int)
    requires CatalogOk(Catalog(s.categories, s.rules)) && VersionsOk(s.configs) && request.Valid()
    requires Current(s.configs, Active).None? && s.categories == map[]
    ensures CurrentEdit(NewVersion(s, request, now)) == Some(EditOfRequest(request))
  {
    var t := NewVersion(s, request, now);
    var v := Next(s.configs.Keys);
    var d := AddItems(Catalog(s.categories, s.rules), request.categories);
    FreshRows(Catalog(s.categories, s.rules), request.categories);
    NewVersionIsBase(s, request, now);
    AddItemsOk(Catalog(s.categories, s.rules), request.categories);
    NewVersionCatalog(s, request, now);
    PresentReadsBack(d, LinksOf(t, v), request, request.categories);
    assert LiveSnapshot(t, v).categories ==
             SnapshotOf(t.categories, Join(Catalog(t.categories, t.rules), LinksOf(t, v)));
  }

  /** When each outcome is chosen. */
  ghost predicate KindFits(s: State, request: ConfigRequest, kind: PutKind) {
    match kind
    case LiveEdit => SameSemantics(s, Current(s.configs, Active), request)
    case UnchangedPending => CurrentEdit(s) == Some(EditOfRequest(request))
    case FirstVersion => Current(s.configs, Active).None?
    case NewPending => Current(s.configs, Active).Some?
  }

  lemma VerdictFits(s: State, request: ConfigRequest, expected: Option<EditPayload>)
    requires PutVerdict(s, request, expected).Accept?
    ensures KindFits(s, request, PutVerdict(s, request, expected).kind)
  {
  }

  lemma PutStateReadsBack(s: State, request: ConfigRequest, kind: PutKind, now: int)
    requires ConfigInv(s) && request.Valid() && KindFits(s, request, kind)
    ensures CurrentEdit(PutState(s, request, kind, now)) == Some(EditOfRequest(request))
  {
    match kind
    case LiveEdit => LiveEditReadsBack(s, request, now);
    case UnchangedPending =>
    case FirstVersion => FirstVersionReadsBack(s, request, now);
    case NewPending => NewPendingReadsBack(s, request, now);
  }

  lemma NewPendingReadsBack(s: State, request: ConfigRequest, now: int)
    requires VersionsOk(s.configs) && Current(s.configs, Active).Some?
    ensures CurrentEdit(NewVersion(s, request, now)) == Some(EditOfRequest(request))
  {
    NewVersionIsBase(s, request, now);
    assert NewVersion(s, request, now).configs[Next(s.configs.Keys)].source == request;
  }

  /** In all four outcomes the snapshot read after a write normalises to the request. */
  lemma PutReadsBack(s: State, request: ConfigRequest, expected: Option<EditPayload>, now: int)
    requires ConfigInv(s) && request.Valid()
    requires Put(s, request, expected, now).PutAccepted?
    ensures CurrentEdit(Put(s, request, expected, now).state) == Some(EditOfRequest(request))
  {
    VerdictFits(s, request, expected);
    PutStateReadsBack(s, request, PutVerdict(s, request, expected).kind, now);
  }

  // ---------------------------------------------------------------------
  // Pending isolation

  /** What readers of the active version see of the configuration. */
  ghost predicate SameActiveView(s: State, t: State) {
    var a := Current(s.configs, Active);
    && Current(t.configs, Active) == a
    && (a.Some? ==> LiveSnapshot(t, a.value) == LiveSnapshot(s, a.value) && RulesOf(t, a.value) == RulesOf(s, a.value))
  }

  lemma NewPendingActive(s: State, request: ConfigRequest, now: int)
    requires VersionsOk(s.configs) && Current(s.configs, Active).Some?
    ensures Current(NewVersion(s, request, now).configs, Active) == Current(s.configs, Active)
    ensures var a := Current(s.configs, Active).value;
            NewVersion(s, request, now).configs[a].basis == s.configs[a].basis
            && a != Next(s.configs.Keys)
  {
    var a := Current(s.configs, Active).value;
    var r := Retire(s.configs, Current(s.configs, Pending), now);
    RetireKeeps(s.configs, now);
    AddPendingActive(r, Next(s.configs.Keys), NewVersion(s, request, now).configs[Next(s.configs.Keys)]);
    assert SameContent(s.configs[a], r[a]);
  }

  lemma {:induction false} AddItemsKeepsRows(c: Catalog, items: seq<CategoryInput>)
    ensures forall k :: k in c.categories ==>
              k in AddItems(c, items).categories && AddItems(c, items).categories[k] == c.categories[k]
  {
    if items != [] {
      AddItemsKeepsRows(c, items[..|items| - 1]);
    }
  }

  lemma SameRowsSameSnapshot(c: Catalog, d: Catalog, links: map<Key, Version>, source: ConfigRequest)
    requires CatalogOk(c) && LinksOk(c.rules, links, source) && CatalogExtends(c, d)
    requires forall k :: k in c.categories ==> k in d.categories && d.categories[k] == c.categories[k]
    ensures Join(d, links) == Join(c, links)
    ensures SnapshotOf(d.categories, Join(d, links)) == SnapshotOf(c.categories, Join(c, links))
  {
    JoinStable(c, d, links, source);
  }

  lemma ActiveViewKept(s: State, t: State, a: Version, source: ConfigRequest)
    requires Current(s.configs, Active) == Current(t.configs, Active) == Some(a)
    requires s.configs[a].basis == t.configs[a].basis
    requires a in s.configRules && a in t.configRules && t.configRules[a] == s.configRules[a]
    requires CatalogOk(Catalog(s.categories, s.rules)) && LinksOk(s.rules, s.configRules[a], source)
    requires CatalogExtends(Catalog(s.categories, s.rules), Catalog(t.categories, t.rules))
    requires forall k :: k in s.categories ==> k in t.categories && t.categories[k] == s.categories[k]
    ensures SameActiveView(s, t)
  {
    SameRowsSameSnapshot(Catalog(s.categories, s.rules), Catalog(t.categories, t.rules), s.configRules[a], source);
    SnapshotIs(s, a);
    SnapshotIs(t, a);
  }

  lemma NewVersionKeepsRows(s: State, request: ConfigRequest, now: int)
    requires Current(s.configs, Active).Some?
    ensures forall k :: k in s.categories ==>
              k in NewVersion(s, request, now).categories
              && NewVersion(s, request, now).categories[k] == s.categories[k]
  {
    AddItemsKeepsRows(Catalog(s.categories, s.rules), request.categories);
  }

  /** A write that leaves the new snapshot pending changes nothing a dashboard reads. */
  lemma PendingIsIsolated(s: State, request: ConfigRequest, now: int)
    requires CatalogOk(Catalog(s.categories, s.rules)) && VersionsOk(s.configs)
    requires AllLinksOk(s.rules, s.configRules, s.configs)
    requires request.Valid() && Current(s.configs, Active).Some?
    ensures SameActiveView(s, NewVersion(s, request, now))
    ensures NewVersion(s, request, now).ledger == s.ledger && NewVersion(s, request, now).sync == s.sync
  {
    var a := Current(s.configs, Active).value;
    NewPendingActive(s, request, now);
    NewVersionCatalog(s, request, now);
    NewVersionKeepsRows(s, request, now);
    ActiveViewKept(s, NewVersion(s, request, now), a, s.configs[a].source);
  }

  lemma SnapshotIs(s: State, v: Version)
    requires v in s.configs
    ensures LiveSnapshot(s, v) == EditPayload(s.configs[v].basis, SnapshotOf(s.categories, RulesOf(s, v)))
  {
  }

  // ---------------------------------------------------------------------
  // Activation

  /** Activating a pending version leaves its edit hash unchanged, although it is
      read from the stored request before and from rows and rule versions after. */
  lemma ActivationKeepsEdit(s: State, t: State, v: Version)
    requires ConfigInv(s) && v in s.configs && s.configs[v].status == Pending
    requires t.rules == s.rules && t.configRules == s.configRules
    requires t.categories == Present(s.categories, s.configs[v].source.categories)
    requires v in t.configs && t.configs[v].status == Active && t.configs[v].basis == s.configs[v].basis
    ensures EditOf(t, v) == EditOf(s, v)
  {
    var source := s.configs[v].source;
    LinksOkOf(s, v);
    PresentReadsBack(Catalog(s.categories, s.rules), LinksOf(s, v), source, source.categories);
    assert ContentOk(s.configs[v]);
    assert LiveSnapshot(t, v).categories ==
             SnapshotOf(t.categories, Join(Catalog(t.categories, t.rules), LinksOf(t, v)));
  }

  /** Two requests have one digest exactly when they agree on timezone, currency,
      aggregation, keys and rules: budgets, names and order do not take part. */
  lemma DigestIgnoresPresentation(a: ConfigRequest, b: ConfigRequest)
    ensures DesiredHash(a) == DesiredHash(b) <==>
              && a.basis == b.basis && ByKey(a.categories).Keys == ByKey(b.categories).Keys
              && forall k :: k in ByKey(a.categories) ==> ByKey(a.categories)[k].rule == ByKey(b.categories)[k].rule
  {
    if DesiredHash(a) == DesiredHash(b) {
      EqualHashes(a, b);
    }
  }
}
