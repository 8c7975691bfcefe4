/**
 * The test doubles of the node's services: a timestamper that checks only the time window, a key
 * manager handing out pre-arranged keys, an in-memory table store, a contract lookup, a fixed
 * wallet and the service hub whose accessors fail for collaborators that were not configured.
 */
module MockServices {
  import opened Wrappers
  import opened Ledger
  import opened Sequences

  /** A point on the timeline, in nanoseconds. */
  type Instant = int
  /** A signed length of time, in nanoseconds. */
  type Duration = int

  const NanosPerSecond: Duration := 1_000_000_000

  /** `30.seconds`, the timestamper's default tolerance. */
  const DefaultTolerance: Duration := 30 * NanosPerSecond

  /** A transaction command: the timestamp command with its optional bounds, or any other command. */
  datatype Command =
    | TimestampCommand(after: Option<Instant>, before: Option<Instant>)
    | OtherCommand(name: string)

  /**
   * Why `timestamp` throws: `single()` finds no timestamp command or more than one, `before!!` finds
   * no bound, or the bound lies more than the tolerance behind the clock.
   */
  datatype TimestampingError =
    | NoTimestampCommand
    | SeveralTimestampCommands
    | MissingBefore
    | NotOnTime

  /** Whether a command is the timestamp command. */
  predicate IsTimestamp(c: Command)
  {
    c.TimestampCommand?
  }

  /**
   * `mapNotNull { it.data as? TimestampCommand }`: every timestamp command, each once and in the
   * order given, and nothing else.
   */
  function TimestampCommands(cmds: seq<Command>): (r: seq<Command>)
    ensures r == Filter(IsTimestamp, cmds)
    ensures forall c :: c in r <==> c in cmds && c.TimestampCommand?
    ensures |r| == Count(IsTimestamp, cmds) <= |cmds|
  {
    forall c ensures c in Filter(IsTimestamp, cmds) <==> c in cmds && IsTimestamp(c) {
      FilterMembership(IsTimestamp, cmds, c);
    }
    FilterLength(IsTimestamp, cmds);
    Filter(IsTimestamp, cmds)
  }

  /** `DummyTimestamper`: a fixed clock (its `instant()`) and a tolerance. */
  class DummyTimestamper {
    var clock: Instant
    const tolerance: Duration

    /** The clock is `Clock.fixed(TEST_TX_TIME)` by default, given here as `clock`. */
    constructor (clock: Instant, tolerance: Duration := DefaultTolerance)
      ensures this.clock == clock && this.tolerance == tolerance
    {
      this.clock := clock;
      this.tolerance := tolerance;
    }

    /**
     * `timestamp`: finds the single timestamp command, requires its `before` bound, and refuses
     * the transaction when `before until now`, i.e. `now - before`, exceeds the tolerance.
     */
    function Timestamp(cmds: seq<Command>): (r: Outcome<TimestampingError>)
      reads this
      ensures var ts := TimestampCommands(cmds);
        && (r == Fail(NoTimestampCommand) <==> |ts| == 0)
        && (r == Fail(SeveralTimestampCommands) <==> |ts| > 1)
        && (r == Fail(MissingBefore) <==> |ts| == 1 && ts[0].before.None?)
        && (r == Fail(NotOnTime) <==>
              |ts| == 1 && ts[0].before.Some? && clock - ts[0].before.value > tolerance)
        && (r == Pass <==>
              |ts| == 1 && ts[0].before.Some? && clock - ts[0].before.value <= tolerance)
    {
      var ts := TimestampCommands(cmds);
      if |ts| == 0 then Fail(NoTimestampCommand)
      else if |ts| > 1 then Fail(SeveralTimestampCommands)
      else match ts[0].before
        case None => Fail(MissingBefore)
        case Some(before) =>
          if clock - before > tolerance then Fail(NotOnTime) else Pass
    }
  }

  /** Commands other than the timestamp command do not affect the outcome, wherever they stand. */
  lemma TimestampIgnoresOtherCommands(t: DummyTimestamper, a: seq<Command>, b: seq<Command>, name: string)
    ensures t.Timestamp(a + [OtherCommand(name)] + b) == t.Timestamp(a + b)
  {
    FilterConcat(IsTimestamp, a + [OtherCommand(name)], b);
    FilterConcat(IsTimestamp, a, [OtherCommand(name)]);
    FilterConcat(IsTimestamp, a, b);
    FilterSingleton(IsTimestamp, OtherCommand(name));
  }

  /** A bound that is not behind the clock at all, such as one in the future, is always on time. */
  lemma FutureBoundIsOnTime(t: DummyTimestamper, after: Option<Instant>, before: Instant)
    requires before >= t.clock && t.tolerance >= 0
    ensures t.Timestamp([TimestampCommand(after, before := Some(before))]) == Pass
  {
    FilterSingleton(IsTimestamp, TimestampCommand(after, Some(before)));
  }

  /** A key pair: the public half and the private half. */
  datatype KeyPair = KeyPair(public: PublicKey, privateKey: int)

  /** `removeAt(lastIndex)` on an empty list: the index -1 is out of bounds. */
  datatype KeyManagementError = IndexOutOfBounds

  /** `MockKeyManagementService`: the keys it knows and the keys it will hand out next, from the end. */
  class MockKeyManagementService {
    const keys: map<PublicKey, int>
    var nextKeys: seq<KeyPair>

    constructor (keys: map<PublicKey, int>, nextKeys: seq<KeyPair>)
      ensures this.keys == keys && this.nextKeys == nextKeys
    {
      this.keys := keys;
      this.nextKeys := nextKeys;
    }

    /** `freshKey`: removes and returns the last of `nextKeys`; the rest stay in order. */
    method FreshKey() returns (r: Result<KeyPair, KeyManagementError>)
      modifies this
      ensures old(nextKeys) == [] ==> r == Err(IndexOutOfBounds) && nextKeys == []
      ensures old(nextKeys) != [] ==>
        && r == Ok(old(nextKeys)[|old(nextKeys)| - 1])
        && nextKeys == old(nextKeys)[..|old(nextKeys)| - 1]
    {
      if |nextKeys| == 0 {
        r := Err(IndexOutOfBounds);
      } else {
        r := Ok(nextKeys[|nextKeys| - 1]);
        nextKeys := nextKeys[..|nextKeys| - 1];
      }
    }
  }

  /**
   * Keys queued as `nextKeys = [a, b]` come out last first: `b`, then `a`, then the list is empty
   * and `freshKey` fails.
   */
  method FreshKeysComeFromTheEnd(a: KeyPair, b: KeyPair)
    returns (first: Result<KeyPair, KeyManagementError>, second: Result<KeyPair, KeyManagementError>,
             third: Result<KeyPair, KeyManagementError>)
    ensures first == Ok(b) && second == Ok(a) && third == Err(IndexOutOfBounds)
  {
    var kms := new MockKeyManagementService(map[], [a, b]);
    first := kms.FreshKey();
    second := kms.FreshKey();
    third := kms.FreshKey();
  }

  /** Opaque serialised keys and values of a table. */
  type Blob = seq<bv8>

  /** A mutable table of the storage service, shared by everyone who obtains it. */
  class StorageTable {
    var entries: map<Blob, Blob>

    constructor ()
      ensures entries == map[]
    {
      entries := map[];
    }
  }

  const ValidatedTransactionsTable: string := "validated-transactions"

  /** `MockStorageService`: the tables created so far, by name. */
  class MockStorageService {
    const recordingAs: Option<map<string, string>>
    var tables: map<string, StorageTable>

    constructor (recordingAs: Option<map<string, string>>)
      ensures this.recordingAs == recordingAs && tables == map[]
    {
      this.recordingAs := recordingAs;
      tables := map[];
    }

    /**
     * `getMap(tableName)`: the table of that name, created empty on first use. Later calls return
     * the same table object; no other table is added, replaced or changed.
     */
    method GetMap(tableName: string) returns (t: StorageTable)
      modifies this
      ensures tableName in old(tables) ==> t == old(tables)[tableName] && tables == old(tables)
      ensures tableName !in old(tables) ==>
        fresh(t) && t.entries == map[] && tables == old(tables)[tableName := t]
    {
      if tableName in tables {
        t := tables[tableName];
      } else {
        t := new StorageTable();
        tables := tables[tableName := t];
      }
    }

    /** `validatedTransactions`: the table named "validated-transactions". */
    method ValidatedTransactions() returns (t: StorageTable)
      modifies this
      ensures ValidatedTransactionsTable in old(tables) ==>
        t == old(tables)[ValidatedTransactionsTable] && tables == old(tables)
      ensures ValidatedTransactionsTable !in old(tables) ==>
        fresh(t) && t.entries == map[] && tables == old(tables)[ValidatedTransactionsTable := t]
    {
      t := GetMap(ValidatedTransactionsTable);
    }
  }

  /** Asking twice for a name gives one table, empty on creation, and another name gives another table. */
  method GetMapIsGetOrCreate(name: string, other: string)
    returns (first: StorageTable, again: StorageTable, different: StorageTable)
    requires name != other
    ensures first == again && first != different && first.entries == map[]
  {
    var storage := new MockStorageService(None);
    first := storage.GetMap(name);
    again := storage.GetMap(name);
    different := storage.GetMap(other);
  }

  /** `UnknownContractException`. */
  datatype ContractFactoryError = UnknownContract

  /** `MockContractFactory.get(hash)`: the program registered for the hash, or an unknown-contract failure. */
  function GetContract<C>(programs: map<Hash, C>, hash: Hash): (r: Result<C, ContractFactoryError>)
    ensures r.Ok? <==> hash in programs
    ensures r.Ok? ==> r.value == programs[hash]
    ensures r.Err? ==> r.error == UnknownContract
  {
    if hash in programs then Ok(programs[hash]) else Err(UnknownContract)
  }

  /** `MockIdentityService.partyFromKey`: the party known for a key, or null. */
  function PartyFromKey<P>(keysToParty: map<PublicKey, P>, key: PublicKey): (r: Option<P>)
    ensures r.Some? <==> key in keysToParty
    ensures r.Some? ==> r.value == keysToParty[key]
  {
    if key in keysToParty then Some(keysToParty[key]) else None
  }

  /** `MockWalletService`: a wallet fixed at construction to the given states. */
  datatype MockWalletService = MockWalletService(states: seq<StateAndRef>) {
    function CurrentWallet(): (w: Wallet)
      ensures w.states == states
      ensures forall c :: CashBalance(w, c).Some? <==> HasCash(states, c)
    {
      Wallet(states)
    }
  }

  /** `UnsupportedOperationException`: the collaborator was not configured. */
  datatype ServiceError = UnsupportedOperation

  /** `wallet ?: throw UnsupportedOperationException()`, the shape of every service accessor. */
  function Configured<T>(service: Option<T>): (r: Result<T, ServiceError>)
    ensures r.Ok? <==> service.Some?
    ensures r.Ok? ==> service == Some(r.value)
    ensures r.Err? ==> r.error == UnsupportedOperation
  {
    match service
    case Some(s) => Ok(s)
    case None => Err(UnsupportedOperation)
  }

  /** `MockServices`: optional collaborators, one per service the hub exposes. */
  datatype MockServices<W, K, N, I, S, M> = MockServices(
    wallet: Option<W>,
    keyManagement: Option<K>,
    net: Option<N>,
    identity: Option<I>,
    storage: Option<S>,
    networkMap: Option<M>)
  {
    function WalletService(): (r: Result<W, ServiceError>)
      ensures r.Ok? <==> wallet.Some?
      ensures r.Ok? ==> wallet == Some(r.value)
      ensures r.Err? ==> r.error == UnsupportedOperation
    { Configured(wallet) }

    function KeyManagementService(): (r: Result<K, ServiceError>)
      ensures r.Ok? <==> keyManagement.Some?
      ensures r.Ok? ==> keyManagement == Some(r.value)
      ensures r.Err? ==> r.error == UnsupportedOperation
    { Configured(keyManagement) }

    function NetworkService(): (r: Result<N, ServiceError>)
      ensures r.Ok? <==> net.Some?
      ensures r.Ok? ==> net == Some(r.value)
      ensures r.Err? ==> r.error == UnsupportedOperation
    { Configured(net) }

    function IdentityService(): (r: Result<I, ServiceError>)
      ensures r.Ok? <==> identity.Some?
      ensures r.Ok? ==> identity == Some(r.value)
      ensures r.Err? ==> r.error == UnsupportedOperation
    { Configured(identity) }

    function StorageService(): (r: Result<S, ServiceError>)
      ensures r.Ok? <==> storage.Some?
      ensures r.Ok? ==> storage == Some(r.value)
      ensures r.Err? ==> r.error == UnsupportedOperation
    { Configured(storage) }

    function NetworkMapService(): (r: Result<M, ServiceError>)
      ensures r.Ok? <==> networkMap.Some?
      ensures r.Ok? ==> networkMap == Some(r.value)
      ensures r.Err? ==> r.error == UnsupportedOperation
    { Configured(networkMap) }
  }

  /** An accessor fails exactly when its collaborator is missing, and otherwise returns that collaborator. */
  lemma AccessorsReturnConfigured<W, K, N, I, S, M>(hub: MockServices<W, K, N, I, S, M>)
    ensures hub.WalletService() == if hub.wallet.Some? then Ok(hub.wallet.value) else Err(UnsupportedOperation)
    ensures hub.KeyManagementService() == if hub.keyManagement.Some? then Ok(hub.keyManagement.value) else Err(UnsupportedOperation)
    ensures hub.NetworkService() == if hub.net.Some? then Ok(hub.net.value) else Err(UnsupportedOperation)
    ensures hub.IdentityService() == if hub.identity.Some? then Ok(hub.identity.value) else Err(UnsupportedOperation)
    ensures hub.StorageService() == if hub.storage.Some? then Ok(hub.storage.value) else Err(UnsupportedOperation)
    ensures hub.NetworkMapService() == if hub.networkMap.Some? then Ok(hub.networkMap.value) else Err(UnsupportedOperation)
  {
  }
}
