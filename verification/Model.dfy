/** The tables of the budget database as one immutable value, and the request
    documents that the services accept.

    Conventions. A SHA-256 digest of a canonical document is modelled by the
    document itself, so two digests agree exactly when the documents do; how an
    amount was spelled is not part of a document here. Dates are day numbers, money
    is an integer count of 1/10000 units, and instants are integers. Lists whose
    order the schemas canonicalise (account lists, the category list of an upload)
    are sets. Surrogate UUIDs are replaced by the unique natural key of their table:
    category key, (category key, rule version) and configuration version. Runs keep
    an identifier of their own. */
module Model {
  import opened Options

  type Key = string
  type Version = nat
  type RunId = nat

  // ---------------------------------------------------------------------
  // Configuration

  datatype Status = Pending | Active | Superseded

  /** Fields whose change needs no reclassification. */
  datatype Presentation = Presentation(
    name: string, icon: Option<string>, sortOrder: nat, budget: nat, currency: string)

  /** Fields that decide which transactions belong to a category. */
  datatype RuleText = RuleText(lookback: int, instruction: string, enabled: bool)

  /** Configuration-wide fields that take part in classification. */
  datatype Basis = Basis(timezone: string, currency: string, aggregation: nat)

  datatype CategoryInput = CategoryInput(key: Key, show: Presentation, rule: RuleText)

  datatype ConfigRequest = ConfigRequest(basis: Basis, categories: seq<CategoryInput>) {
    /** What the request schema guarantees before a service sees the document. */
    ghost predicate Valid() {
      && |categories| >= 1
      && basis.aggregation >= 1
      && (forall i :: 0 <= i < |categories| ==> 1 <= categories[i].rule.lookback <= 3650)
      && UniqueKeys(categories)
    }
  }

  ghost predicate UniqueKeys(items: seq<CategoryInput>) {
    forall i, j :: 0 <= i < j < |items| ==> items[i].key != items[j].key
  }

  datatype CategoryEdit = CategoryEdit(show: Presentation, rule: RuleText)

  /** The normalised user-editable snapshot; also its optimistic-lock hash. */
  datatype EditPayload = EditPayload(basis: Basis, categories: map<Key, CategoryEdit>)

  datatype RuleHash = RuleHash(key: Key, rule: RuleText)
  datatype ConfigHash = ConfigHash(basis: Basis, rules: map<Key, RuleHash>)

  datatype RuleRef = RuleRef(category: Key, version: Version)
  datatype Rule = Rule(text: RuleText, hash: RuleHash)

  datatype Config = Config(
    status: Status, basis: Basis, hash: ConfigHash, source: ConfigRequest,
    activatedAt: Option<int>, supersededAt: Option<int>)

  /** A row of the join of a configuration's links, rules and categories. */
  datatype RuleVersion = RuleVersion(version: Version, rule: Rule)

  // ---------------------------------------------------------------------
  // Refresh runs

  datatype Mode = Incremental | Full
  datatype RunState = Created | Uploaded | Validated | Committed | Failed

  datatype BeginRequest = BeginRequest(mode: Mode, fromDate: int, toDate: int, accounts: set<string>) {
    ghost predicate Valid() {
      fromDate <= toDate && accounts != {}
    }
  }

  datatype Identity = Identity(account: string, source: string)

  datatype Content = Content(
    accountName: Option<string>, date: int, amount: nat, currency: string,
    pending: bool, pendingSource: Option<string>, name: Option<string>,
    merchant: Option<string>, refunded: bool, refund: nat)
  {
    /** The refund check constraint of both transaction tables. */
    predicate RefundConsistent() {
      (!refunded && refund == 0) || (refunded && 0 < refund <= amount)
    }
  }

  datatype Upload = Upload(id: Identity, content: Content, categories: set<Key>) {
    ghost predicate Valid() {
      && categories != {}
      && content.RefundConsistent()
      && (content.pendingSource.Some? ==>
            !content.pending && content.pendingSource.value != id.source)
    }
  }

  datatype BatchRequest = BatchRequest(idempotencyKey: string, items: seq<Upload>) {
    ghost predicate Valid() {
      |items| >= 1 && forall i :: 0 <= i < |items| ==> items[i].Valid()
    }
  }

  datatype Batch = Batch(idempotencyKey: string, request: BatchRequest, checksum: seq<Upload>, itemCount: nat)

  /** A staged transaction together with the staged category rows that cascade with it. */
  datatype Staged = Staged(config: Version, batchIndex: nat, content: Content, categories: map<Key, Version>)

  datatype CommitRequest = CommitRequest(batchCount: nat, accounts: set<string>)

  datatype Run = Run(
    idempotencyKey: string, request: BeginRequest, mode: Mode, state: RunState,
    config: Version, fromDate: int, toDate: int, accounts: set<string>,
    syncBefore: Option<nat>, expectedBatchCount: Option<nat>,
    received: nat, itemCount: nat, checksum: Option<seq<seq<Upload>>>,
    completedAccounts: Option<set<string>>,
    uploadedAt: Option<int>, validatedAt: Option<int>, committedAt: Option<int>)

  // ---------------------------------------------------------------------
  // Live data

  datatype Row = Row(
    content: Content, config: Version, firstRun: RunId, lastRun: RunId,
    firstSeen: int, lastSeen: int)

  datatype LinkKey = LinkKey(id: Identity, category: Key)
  datatype Link = Link(config: Version, ruleVersion: Version)

  /** The live transactions and their category links. */
  datatype Ledger = Ledger(rows: map<Identity, Row>, links: map<LinkKey, Link>)

  const EMPTY_LEDGER := Ledger(map[], map[])

  datatype Sync = Sync(config: Version, lastRun: RunId, revision: nat)

  // ---------------------------------------------------------------------
  // The database

  datatype State = State(
    categories: map<Key, Presentation>,
    rules: map<RuleRef, Rule>,
    configs: map<Version, Config>,
    configRules: map<Version, map<Key, Version>>,
    runs: map<RunId, Run>,
    batches: map<RunId, map<nat, Batch>>,
    staged: map<RunId, map<Identity, Staged>>,
    ledger: Ledger,
    sync: Option<Sync>)

  const EMPTY_STATE := State(map[], map[], map[], map[], map[], map[], map[], EMPTY_LEDGER, None)

  datatype Error =
    | MixedBudgetCurrency | ConfigVersionConflict | ConfigVersionRequired
    | ConfigRequired | FullRebuildRequired | FullWindowIncomplete
    | AccountScopeChanged | IdempotencyConflict
    | InvalidBatchIndex | BatchTooLarge | RunNotFound | BatchContentConflict
    | BatchIdempotencyConflict | RunNotUploadable | DuplicateTransaction
    | UnexpectedAccount | CurrencyMismatch | OutsideRunWindow | UnknownCategory
    | CommitReplayConflict | RunNotCommittable | MissingBatch
    | CompletedAccountsMismatch | RunSuperseded | PendingReplacementConflict

  // ---------------------------------------------------------------------
  // Small helpers

  function RowsOf<K, V>(table: map<RunId, map<K, V>>, run: RunId): map<K, V> {
    if run in table then table[run] else map[]
  }

  /** One more than the greatest key, and 1 for an empty table. */
  ghost function Next(keys: set<nat>): (n: nat)
    ensures n >= 1
    ensures forall k :: k in keys ==> k < n
    ensures keys == {} ==> n == 1
    ensures keys != {} ==> n - 1 in keys
  {
    if keys == {} then 1
    else
      var k :| k in keys;
      var rest := Next(keys - {k});
      assert forall j :: j in keys ==> j == k || j in keys - {k};
      if rest <= k then k + 1 else rest
  }

  ghost predicate Closed(keys: set<nat>) {
    && (forall k :: k in keys ==> k >= 1)
    && (forall k, j :: k in keys && 1 <= j < k ==> j in keys)
  }

  /** Adding the next number keeps a table numbered 1..n without gaps. */
  lemma NextKeepsClosed(keys: set<nat>)
    requires Closed(keys)
    ensures Closed(keys + {Next(keys)})
  {
  }

  /** The requested categories by key. */
  function ByKey(items: seq<CategoryInput>): (m: map<Key, CategoryInput>)
    ensures forall k :: k in m ==> m[k] in items && m[k].key == k
    ensures forall i :: 0 <= i < |items| ==> items[i].key in m
  {
    if items == [] then map[]
    else
      var last := items[|items| - 1];
      ByKey(items[..|items| - 1])[last.key := last]
  }

  lemma ByKeyNext(items: seq<CategoryInput>, i: nat)
    requires i < |items|
    ensures ByKey(items[..i + 1]) == ByKey(items[..i])[items[i].key := items[i]]
  {
    var next := items[..i + 1];
    NextSlice(items, i);
    assert next != [];
    assert ByKey(next) == ByKey(next[..|next| - 1])[next[|next| - 1].key := next[|next| - 1]];
  }

  lemma NextSlice<T>(items: seq<T>, i: nat)
    requires i < |items|
    ensures |items[..i + 1]| == i + 1 && items[..i + 1][..i] == items[..i] && items[..i + 1][i] == items[i]
  {
  }

  lemma {:induction false} ByKeyAt(items: seq<CategoryInput>, i: nat)
    requires UniqueKeys(items) && i < |items|
    ensures items[i].key in ByKey(items) && ByKey(items)[items[i].key] == items[i]
  {
  }
}
