/**
 * The control bridge of the software-in-the-loop setup: the route handlers of
 * VessimApiServer over the Redis store they share with the simulation.
 *
 * The store is modelled in memory.  Plain string keys hold the three scalar
 * slots that /sim/update overwrites; hash keys hold the three log buckets,
 * each mapping an ISO timestamp to a JSON value, that the controller appends
 * to and /sim/collect-set drains.  Each handler runs atomically, and the
 * receipt timestamp (datetime.now() in the server) is a parameter.
 */
module SilApiServer {
  import opened Wrappers

  // Keys of the scalar slots written by /sim/update.
  const SOLAR := "solar"
  const CI := "ci"
  const BATTERY_SOC := "battery_soc"

  // Hash keys of the log buckets drained by /sim/collect-set.
  const BATTERY_MIN_SOC_LOG := "battery_min_soc_log"
  const BATTERY_GRID_CHARGE_LOG := "battery_grid_charge_log"
  const POWER_MODE_LOG := "power_mode_log"
  const LOG_BUCKETS: set<string> := {BATTERY_MIN_SOC_LOG, BATTERY_GRID_CHARGE_LOG, POWER_MODE_LOG}

  /** The power modes /api/nodes/{item_id} accepts, in the order its error message lists them. */
  const POWER_MODES: seq<string> := ["power-saving", "normal", "high performance"]

  /** The detail of the 400 answer to an unknown power mode, with the list rendered as Python prints it. */
  function InvalidPowerModeDetail(mode: string): string
  {
    mode + " is not a valid power mode. Available power modes: ['power-saving', 'normal', 'high performance']"
  }

  /** A decoded hash field: a float, or the one-entry object {item_id: power_mode} of a node command. */
  datatype LogValue = Number(x: real) | NodeMode(itemId: int, powerMode: string)

  /** The fields of one Redis hash, timestamp to value. */
  type Hash = map<string, LogValue>

  /** The whole Redis keyspace the server uses: scalar slots and hashes. */
  datatype Store = Store(slots: map<string, real>, hashes: map<string, Hash>)

  /** The store of a freshly started Redis container. */
  const EMPTY_STORE := Store(map[], map[])

  // Request and response bodies.
  datatype Update = Update(solar: real, ci: real, batterySoc: real)
  datatype Battery = Battery(minSoc: real, gridCharge: real)
  datatype Node = Node(powerMode: string)
  datatype CollectSet = CollectSet(batteryMinSoc: Hash, batteryGridCharge: Hash, nodesPowerMode: Hash)

  /** What a handler can raise. */
  datatype Error =
    | HttpException(statusCode: int, detail: string)  // raised explicitly; answered with statusCode
    | TypeError(key: string)                          // float(None): the slot key was never written

  /** HGETALL: the fields of a hash; a missing hash reads as empty. */
  function HGetAll(st: Store, name: string): Hash
  {
    if name in st.hashes then st.hashes[name] else map[]
  }

  /** HSET: one field of a hash written, creating the hash when it is missing. */
  function HSet(st: Store, name: string, key: string, value: LogValue): (r: Store)
    ensures name in r.hashes && key in r.hashes[name]
  {
    st.(hashes := st.hashes[name := HGetAll(st, name)[key := value]])
  }

  /** GET followed by float(): the slot's value, or the TypeError of float(None). */
  function ReadSlot(st: Store, key: string): Result<real, Error>
  {
    if key in st.slots then Success(st.slots[key]) else Failure(TypeError(key))
  }

  predicate AllNumbers(h: Hash)
  {
    forall key :: key in h ==> h[key].Number?
  }

  predicate AllValidModes(h: Hash)
  {
    forall key :: key in h ==> h[key].NodeMode? && h[key].powerMode in POWER_MODES
  }

  /**
   * What the store satisfies between handlers: Redis keeps no empty hash, and
   * each bucket holds values of the type the collect-set response declares
   * (floats for the battery logs, accepted power modes for the node log).
   */
  predicate WellFormed(st: Store)
  {
    && (forall name :: name in st.hashes ==> st.hashes[name] != map[])
    && AllNumbers(HGetAll(st, BATTERY_MIN_SOC_LOG))
    && AllNumbers(HGetAll(st, BATTERY_GRID_CHARGE_LOG))
    && AllValidModes(HGetAll(st, POWER_MODE_LOG))
  }

  predicate WellTyped(c: CollectSet)
  {
    AllNumbers(c.batteryMinSoc) && AllNumbers(c.batteryGridCharge) && AllValidModes(c.nodesPowerMode)
  }

  lemma RemoveHashWellFormed(st: Store, name: string)
    requires WellFormed(st)
    ensures WellFormed(st.(hashes := st.hashes - {name}))
  {
    var st' := st.(hashes := st.hashes - {name});
    assert HGetAll(st', BATTERY_MIN_SOC_LOG) == if name == BATTERY_MIN_SOC_LOG then map[] else HGetAll(st, BATTERY_MIN_SOC_LOG);
    assert HGetAll(st', BATTERY_GRID_CHARGE_LOG) == if name == BATTERY_GRID_CHARGE_LOG then map[] else HGetAll(st, BATTERY_GRID_CHARGE_LOG);
    assert HGetAll(st', POWER_MODE_LOG) == if name == POWER_MODE_LOG then map[] else HGetAll(st, POWER_MODE_LOG);
  }

  /** PUT /sim/update: the three slots are overwritten; nothing else changes. */
  function UpdateSlots(st: Store, update: Update): (r: Store)
    ensures ReadSlot(r, SOLAR) == Success(update.solar)
    ensures ReadSlot(r, CI) == Success(update.ci)
    ensures ReadSlot(r, BATTERY_SOC) == Success(update.batterySoc)
    ensures forall key :: key != SOLAR && key != CI && key != BATTERY_SOC ==> ReadSlot(r, key) == ReadSlot(st, key)
    ensures r.hashes == st.hashes
    ensures WellFormed(st) ==> WellFormed(r)
  {
    st.(slots := st.slots[SOLAR := update.solar][CI := update.ci][BATTERY_SOC := update.batterySoc])
  }

  /**
   * PUT /api/battery: both battery logs get the same timestamp field, one with
   * min_soc and one with grid_charge; a field already there is overwritten.
   */
  function AppendBattery(st: Store, timestamp: string, battery: Battery): (r: Store)
    ensures HGetAll(r, BATTERY_MIN_SOC_LOG) == HGetAll(st, BATTERY_MIN_SOC_LOG)[timestamp := Number(battery.minSoc)]
    ensures HGetAll(r, BATTERY_GRID_CHARGE_LOG) == HGetAll(st, BATTERY_GRID_CHARGE_LOG)[timestamp := Number(battery.gridCharge)]
    ensures forall name :: name != BATTERY_MIN_SOC_LOG && name != BATTERY_GRID_CHARGE_LOG ==> HGetAll(r, name) == HGetAll(st, name)
    ensures r.slots == st.slots
    ensures WellFormed(st) ==> WellFormed(r)
  {
    var st1 := HSet(st, BATTERY_MIN_SOC_LOG, timestamp, Number(battery.minSoc));
    HSet(st1, BATTERY_GRID_CHARGE_LOG, timestamp, Number(battery.gridCharge))
  }

  /**
   * PUT /api/nodes/{item_id}: an unknown power mode is rejected with a 400 and
   * changes nothing; an accepted one is logged as {item_id: mode} under the
   * timestamp and the body is echoed.
   */
  function AppendNodeMode(st: Store, timestamp: string, itemId: int, node: Node): (r: (Store, Result<Node, Error>))
    ensures node.powerMode !in POWER_MODES ==> r == (st, Failure(HttpException(400, InvalidPowerModeDetail(node.powerMode))))
    ensures node.powerMode in POWER_MODES ==> r.1 == Success(node)
    ensures node.powerMode in POWER_MODES ==>
      HGetAll(r.0, POWER_MODE_LOG) == HGetAll(st, POWER_MODE_LOG)[timestamp := NodeMode(itemId, node.powerMode)]
    ensures forall name :: name != POWER_MODE_LOG ==> HGetAll(r.0, name) == HGetAll(st, name)
    ensures r.0.slots == st.slots
    ensures WellFormed(st) ==> WellFormed(r.0)
  {
    if node.powerMode !in POWER_MODES then
      (st, Failure(HttpException(400, InvalidPowerModeDetail(node.powerMode))))
    else
      (HSet(st, POWER_MODE_LOG, timestamp, NodeMode(itemId, node.powerMode)), Success(node))
  }

  /**
   * GET /sim/collect-set: the three buckets as they were, and a store in which
   * they are empty; the slots and every other hash are untouched.
   */
  function Drain(st: Store): (r: (Store, CollectSet))
    ensures r.1 == CollectSet(HGetAll(st, BATTERY_MIN_SOC_LOG), HGetAll(st, BATTERY_GRID_CHARGE_LOG), HGetAll(st, POWER_MODE_LOG))
    ensures forall name :: name in LOG_BUCKETS ==> HGetAll(r.0, name) == map[]
    ensures forall name :: name !in LOG_BUCKETS ==> HGetAll(r.0, name) == HGetAll(st, name)
    ensures r.0.slots == st.slots
    ensures WellFormed(st) ==> WellFormed(r.0) && WellTyped(r.1)
  {
    var collected := CollectSet(HGetAll(st, BATTERY_MIN_SOC_LOG), HGetAll(st, BATTERY_GRID_CHARGE_LOG), HGetAll(st, POWER_MODE_LOG));
    (st.(hashes := st.hashes - LOG_BUCKETS), collected)
  }

  /** One HTTP request of the bridge; a command carries the timestamp at which it is received. */
  datatype Request =
    | SolarQuery                                            // GET /api/solar
    | CiQuery                                               // GET /api/ci
    | BatterySocQuery                                       // GET /api/battery-soc
    | CollectSetQuery                                       // GET /sim/collect-set
    | BatteryCommand(timestamp: string, battery: Battery)   // PUT /api/battery
    | NodeCommand(timestamp: string, itemId: int, node: Node)  // PUT /api/nodes/{itemId}
    | SimUpdate(update: Update)                             // PUT /sim/update

  datatype Response =
    | Scalar(x: real)
    | Collected(collectSet: CollectSet)
    | BatteryEcho(battery: Battery)
    | NodeEcho(node: Node)
    | UpdateEcho(update: Update)

  function ScalarResponse(read: Result<real, Error>): Result<Response, Error>
  {
    match read
    case Success(x) => Success(Scalar(x))
    case Failure(e) => Failure(e)
  }

  predicate WellTypedResponse(resp: Result<Response, Error>)
  {
    resp.Success? && resp.value.Collected? ==> WellTyped(resp.value.collectSet)
  }

  /**
   * The bridge as a state machine: the store after a request and the answer.
   * A failed request leaves the store as it was, only /sim/update touches the
   * slots, the scalar reads change nothing, and well-formedness is kept.
   */
  function Handle(st: Store, req: Request): (r: (Store, Result<Response, Error>))
    ensures r.1.Failure? ==> r.0 == st
    ensures !req.SimUpdate? ==> r.0.slots == st.slots
    ensures req.SolarQuery? || req.CiQuery? || req.BatterySocQuery? ==> r.0 == st
    ensures WellFormed(st) ==> WellFormed(r.0) && WellTypedResponse(r.1)
  {
    match req
    case SolarQuery => (st, ScalarResponse(ReadSlot(st, SOLAR)))
    case CiQuery => (st, ScalarResponse(ReadSlot(st, CI)))
    case BatterySocQuery => (st, ScalarResponse(ReadSlot(st, BATTERY_SOC)))
    case CollectSetQuery =>
      var (st', collected) := Drain(st);
      (st', Success(Collected(collected)))
    case BatteryCommand(timestamp, battery) =>
      (AppendBattery(st, timestamp, battery), Success(BatteryEcho(battery)))
    case NodeCommand(timestamp, itemId, node) =>
      var (st', answer) := AppendNodeMode(st, timestamp, itemId, node);
      (st', match answer case Success(n) => Success(NodeEcho(n)) case Failure(e) => Failure(e))
    case SimUpdate(update) =>
      (UpdateSlots(st, update), Success(UpdateEcho(update)))
  }

  /** A sequence of requests handled one after another: the final store and every answer, in order. */
  function Run(st: Store, reqs: seq<Request>): (r: (Store, seq<Result<Response, Error>>))
    ensures |r.1| == |reqs|
    decreases |reqs|
  {
    if reqs == [] then (st, [])
    else
      var (st1, answer) := Handle(st, reqs[0]);
      var (final, answers) := Run(st1, reqs[1..]);
      (final, [answer] + answers)
  }

  // ---------------------------------------------------------------------------
  // Last write wins on the scalar slots.

  /** The body of the last /sim/update among the requests, if there is one. */
  function LastUpdate(reqs: seq<Request>): Option<Update>
    decreases |reqs|
  {
    if reqs == [] then None
    else
      match LastUpdate(reqs[1..])
      case Some(u) => Some(u)
      case None => if reqs[0].SimUpdate? then Some(reqs[0].update) else None
  }

  /**
   * After any sequence of requests each slot reads as written by the last
   * /sim/update among them; with no update the slots are as they were.
   */
  lemma {:induction false} LastUpdateWins(st: Store, reqs: seq<Request>)
    ensures var final := Run(st, reqs).0;
      match LastUpdate(reqs)
      case Some(u) =>
        && ReadSlot(final, SOLAR) == Success(u.solar)
        && ReadSlot(final, CI) == Success(u.ci)
        && ReadSlot(final, BATTERY_SOC) == Success(u.batterySoc)
      case None => final.slots == st.slots
    decreases |reqs|
  {
    if reqs != [] {
      var st1 := Handle(st, reqs[0]).0;
      LastUpdateWins(st1, reqs[1..]);
      assert Run(st, reqs).0 == Run(st1, reqs[1..]).0;
    }
  }

  // ---------------------------------------------------------------------------
  // The drain protocol: nothing lost, nothing returned twice.

  /** The fields a request writes to the named bucket: at most one timestamp and value. */
  function AppendedBy(req: Request, name: string): seq<(string, LogValue)>
  {
    match req
    case BatteryCommand(timestamp, battery) =>
      if name == BATTERY_MIN_SOC_LOG then [(timestamp, Number(battery.minSoc))]
      else if name == BATTERY_GRID_CHARGE_LOG then [(timestamp, Number(battery.gridCharge))]
      else []
    case NodeCommand(timestamp, itemId, node) =>
      if name == POWER_MODE_LOG && node.powerMode in POWER_MODES then [(timestamp, NodeMode(itemId, node.powerMode))]
      else []
    case _ => []
  }

  /** Every field the requests write to the named bucket, in order. */
  function Appended(reqs: seq<Request>, name: string): seq<(string, LogValue)>
    decreases |reqs|
  {
    if reqs == [] then [] else AppendedBy(reqs[0], name) + Appended(reqs[1..], name)
  }

  function BucketOf(c: CollectSet, name: string): Hash
  {
    if name == BATTERY_MIN_SOC_LOG then c.batteryMinSoc
    else if name == BATTERY_GRID_CHARGE_LOG then c.batteryGridCharge
    else if name == POWER_MODE_LOG then c.nodesPowerMode
    else map[]
  }

  function Items(h: Hash): multiset<(string, LogValue)>
  {
    multiset(h.Items)
  }

  /** The fields of the named bucket an answer returns (none unless it is a collect-set answer). */
  function DrainedBy(answer: Result<Response, Error>, name: string): multiset<(string, LogValue)>
  {
    if answer.Success? && answer.value.Collected? then Items(BucketOf(answer.value.collectSet, name)) else multiset{}
  }

  /** Every field of the named bucket the answers return, counted with repetition. */
  function Drained(answers: seq<Result<Response, Error>>, name: string): multiset<(string, LogValue)>
    decreases |answers|
  {
    if answers == [] then multiset{} else DrainedBy(answers[0], name) + Drained(answers[1..], name)
  }

  function KeysOf(entries: seq<(string, LogValue)>): set<string>
  {
    set i | 0 <= i < |entries| :: entries[i].0
  }

  /** The timestamps of the entries are pairwise distinct and none of them is in used. */
  predicate FreshKeys(entries: seq<(string, LogValue)>, used: set<string>)
  {
    && (forall i :: 0 <= i < |entries| ==> entries[i].0 !in used)
    && (forall i, j :: 0 <= i < j < |entries| ==> entries[i].0 != entries[j].0)
  }

  lemma FreshKeysSplit(a: seq<(string, LogValue)>, b: seq<(string, LogValue)>, used: set<string>)
    requires FreshKeys(a + b, used)
    ensures FreshKeys(a, used) && FreshKeys(b, used + KeysOf(a))
  {
    forall i | 0 <= i < |a| ensures a[i].0 !in used {
      assert a[i] == (a + b)[i];
    }
    forall i, j | 0 <= i < j < |a| ensures a[i].0 != a[j].0 {
      assert a[i] == (a + b)[i] && a[j] == (a + b)[j];
    }
    forall i | 0 <= i < |b| ensures b[i].0 !in used + KeysOf(a) {
      assert b[i] == (a + b)[|a| + i];
      forall j | 0 <= j < |a| ensures a[j].0 != b[i].0 {
        assert a[j] == (a + b)[j];
      }
    }
    forall i, j | 0 <= i < j < |b| ensures b[i].0 != b[j].0 {
      assert b[i] == (a + b)[|a| + i] && b[j] == (a + b)[|a| + j];
    }
  }

  lemma SubsetOf(a: set<(string, LogValue)>, b: set<(string, LogValue)>)
    requires forall p :: p in a ==> p in b
    ensures a <= b
  {
  }

  lemma ItemsInsert(h: Hash, key: string, value: LogValue)
    requires key !in h
    ensures Items(h[key := value]) == Items(h) + multiset{(key, value)}
  {
    var h' := h[key := value];
    var added := h.Items + {(key, value)};
    forall p | p in h'.Items ensures p in added {
      if p.0 != key {
        assert p.0 in h && h[p.0] == p.1;
      }
    }
    SubsetOf(h'.Items, added);
    forall p | p in added ensures p in h'.Items {
      if p != (key, value) {
        assert p.0 in h && h[p.0] == p.1;
      }
    }
    SubsetOf(added, h'.Items);
    MultisetInsert(h.Items, (key, value));
  }

  lemma MultisetInsert(a: set<(string, LogValue)>, x: (string, LogValue))
    requires x !in a
    ensures multiset(a + {x}) == multiset(a) + multiset{x}
  {
  }

  /** A write of a fresh field adds exactly that field to the bucket's balance. */
  lemma BalanceWrite(h: Hash, h1: Hash, written: seq<(string, LogValue)>)
    requires FreshKeys(written, h.Keys)
    requires |written| <= 1
    requires h1 == if written == [] then h else h[written[0].0 := written[0].1]
    ensures Items(h) + multiset(written) == Items(h1)
    ensures h1.Keys <= h.Keys + KeysOf(written)
  {
    if written != [] {
      var (key, value) := written[0];
      assert written == [(key, value)];
      ItemsInsert(h, key, value);
      assert key in KeysOf(written);
    }
  }

  /** The balance of one bucket across one request: what it held and what the request wrote, against what was drained and what it holds now. */
  ghost predicate Balanced(st: Store, req: Request, name: string)
  {
    var (st1, answer) := Handle(st, req);
    && Items(HGetAll(st, name)) + multiset(AppendedBy(req, name)) == DrainedBy(answer, name) + Items(HGetAll(st1, name))
    && HGetAll(st1, name).Keys <= HGetAll(st, name).Keys + KeysOf(AppendedBy(req, name))
  }

  lemma DrainBalanced(st: Store, name: string)
    requires name in LOG_BUCKETS
    ensures Balanced(st, CollectSetQuery, name)
  {
    var (st1, answer) := Handle(st, CollectSetQuery);
    assert BucketOf(Drain(st).1, name) == HGetAll(st, name);
    assert HGetAll(st1, name) == map[];
    assert Items(map[]) == multiset{};
  }

  lemma BatteryBalanced(st: Store, timestamp: string, battery: Battery, name: string)
    requires FreshKeys(AppendedBy(BatteryCommand(timestamp, battery), name), HGetAll(st, name).Keys)
    ensures Balanced(st, BatteryCommand(timestamp, battery), name)
  {
    var req := BatteryCommand(timestamp, battery);
    var st1 := AppendBattery(st, timestamp, battery);
    assert Handle(st, req) == (st1, Success(BatteryEcho(battery)));
    BalanceWrite(HGetAll(st, name), HGetAll(st1, name), AppendedBy(req, name));
  }

  lemma NodeBalanced(st: Store, timestamp: string, itemId: int, node: Node, name: string)
    requires FreshKeys(AppendedBy(NodeCommand(timestamp, itemId, node), name), HGetAll(st, name).Keys)
    ensures Balanced(st, NodeCommand(timestamp, itemId, node), name)
  {
    var req := NodeCommand(timestamp, itemId, node);
    var st1 := AppendNodeMode(st, timestamp, itemId, node).0;
    assert Handle(st, req).0 == st1;
    assert DrainedBy(Handle(st, req).1, name) == multiset{};
    if name == POWER_MODE_LOG && node.powerMode in POWER_MODES {
      BalanceWrite(HGetAll(st, name), HGetAll(st1, name), AppendedBy(req, name));
    } else {
      assert HGetAll(st1, name) == HGetAll(st, name);
    }
  }

  lemma OtherBalanced(st: Store, req: Request, name: string)
    requires req.SolarQuery? || req.CiQuery? || req.BatterySocQuery? || req.SimUpdate?
    ensures Balanced(st, req, name)
  {
    var (st1, answer) := Handle(st, req);
    assert st1.hashes == st.hashes;
    assert DrainedBy(answer, name) == multiset{};
    assert AppendedBy(req, name) == [];
  }

  /** One request keeps the balance of the named bucket, provided it writes a timestamp the bucket does not hold. */
  lemma StepBalance(st: Store, req: Request, name: string)
    requires name in LOG_BUCKETS
    requires FreshKeys(AppendedBy(req, name), HGetAll(st, name).Keys)
    ensures Balanced(st, req, name)
  {
    match req
    case CollectSetQuery => DrainBalanced(st, name);
    case BatteryCommand(timestamp, battery) => BatteryBalanced(st, timestamp, battery, name);
    case NodeCommand(timestamp, itemId, node) => NodeBalanced(st, timestamp, itemId, node, name);
    case _ => OtherBalanced(st, req, name);
  }

  /**
   * No loss and no duplication: when every field the requests write carries a
   * timestamp not written before, the fields the bucket held at the start plus
   * those the requests write are exactly the fields the drains return plus
   * those still in the bucket at the end, each counted once.
   */
  lemma {:induction false} NoLossNoDuplication(st: Store, reqs: seq<Request>, name: string)
    requires name in LOG_BUCKETS
    requires FreshKeys(Appended(reqs, name), HGetAll(st, name).Keys)
    ensures var (final, answers) := Run(st, reqs);
      Items(HGetAll(st, name)) + multiset(Appended(reqs, name)) == Drained(answers, name) + Items(HGetAll(final, name))
    decreases |reqs|
  {
    if reqs == [] {
      assert Appended(reqs, name) == [];
    } else {
      var (st1, answer) := Handle(st, reqs[0]);
      var (final, answers) := Run(st1, reqs[1..]);
      assert Run(st, reqs) == (final, [answer] + answers);
      var head, tail := AppendedBy(reqs[0], name), Appended(reqs[1..], name);
      assert Appended(reqs, name) == head + tail;
      FreshKeysSplit(head, tail, HGetAll(st, name).Keys);
      StepBalance(st, reqs[0], name);
      FreshKeysSubset(tail, HGetAll(st, name).Keys + KeysOf(head), HGetAll(st1, name).Keys);
      NoLossNoDuplication(st1, reqs[1..], name);
      assert ([answer] + answers)[1..] == answers;
      assert Drained([answer] + answers, name) == DrainedBy(answer, name) + Drained(answers, name);
      assert multiset(head + tail) == multiset(head) + multiset(tail);
      MultisetChain(Items(HGetAll(st, name)), multiset(head), DrainedBy(answer, name),
                    Items(HGetAll(st1, name)), multiset(tail), Drained(answers, name), Items(HGetAll(final, name)));
    }
  }

  lemma FreshKeysSubset(entries: seq<(string, LogValue)>, used: set<string>, fewer: set<string>)
    requires FreshKeys(entries, used)
    requires fewer <= used
    ensures FreshKeys(entries, fewer)
  {
  }

  lemma MultisetChain<T>(before: multiset<T>, written: multiset<T>, drained: multiset<T>, middle: multiset<T>,
                         laterWritten: multiset<T>, laterDrained: multiset<T>, after: multiset<T>)
    requires before + written == drained + middle
    requires middle + laterWritten == laterDrained + after
    ensures before + (written + laterWritten) == (drained + laterDrained) + after
  {
    forall x ensures (before + (written + laterWritten))[x] == ((drained + laterDrained) + after)[x] {
      assert (before + written)[x] == (drained + middle)[x];
      assert (middle + laterWritten)[x] == (laterDrained + after)[x];
    }
  }

  /** Two drains with no request between them: the second returns three empty buckets. */
  lemma DrainTwice(st: Store)
    ensures Drain(Drain(st).0).1 == CollectSet(map[], map[], map[])
  {
  }

  /**
   * Whatever requests arrive, every collect-set answer from a well-formed store
   * holds floats in the battery logs and only accepted power modes in the node log:
   * a rejected mode never reaches the simulation.
   */
  lemma {:induction false} DrainedValuesWellTyped(st: Store, reqs: seq<Request>)
    requires WellFormed(st)
    ensures WellFormed(Run(st, reqs).0)
    ensures forall i :: 0 <= i < |reqs| ==> WellTypedResponse(Run(st, reqs).1[i])
    decreases |reqs|
  {
    if reqs != [] {
      var (st1, answer) := Handle(st, reqs[0]);
      DrainedValuesWellTyped(st1, reqs[1..]);
      var (final, answers) := Run(st1, reqs[1..]);
      assert Run(st, reqs) == (final, [answer] + answers);
      forall i | 0 <= i < |reqs| ensures WellTypedResponse(Run(st, reqs).1[i]) {
        if i > 0 {
          assert Run(st, reqs).1[i] == answers[i - 1];
        }
      }
    }
  }

  /**
   * Node 3 set to "normal" and then two drains: the first drain returns the
   * one entry {3: normal} under its timestamp, the second returns nothing.
   */
  lemma NodeModeScenario(timestamp: string)
    ensures Run(EMPTY_STORE, [NodeCommand(timestamp, 3, Node("normal")), CollectSetQuery, CollectSetQuery]).1
         == [ Success(NodeEcho(Node("normal"))),
              Success(Collected(CollectSet(map[], map[], map[timestamp := NodeMode(3, "normal")]))),
              Success(Collected(CollectSet(map[], map[], map[]))) ]
  {
    assert "normal" in POWER_MODES by { assert POWER_MODES[1] == "normal"; }
    var logged := map[timestamp := NodeMode(3, "normal")];
    var reqs := [NodeCommand(timestamp, 3, Node("normal")), CollectSetQuery, CollectSetQuery];
    var (st1, answer1) := Handle(EMPTY_STORE, reqs[0]);
    assert answer1 == Success(NodeEcho(Node("normal")));
    assert HGetAll(st1, POWER_MODE_LOG) == logged;
    assert HGetAll(st1, BATTERY_MIN_SOC_LOG) == map[] && HGetAll(st1, BATTERY_GRID_CHARGE_LOG) == map[];
    var (st2, answer2) := Handle(st1, CollectSetQuery);
    assert answer2 == Success(Collected(CollectSet(map[], map[], logged)));
    var (st3, answer3) := Handle(st2, CollectSetQuery);
    assert answer3 == Success(Collected(CollectSet(map[], map[], map[])));
    assert reqs[1..] == [CollectSetQuery, CollectSetQuery] && reqs[1..][1..] == [CollectSetQuery];
    var last := [CollectSetQuery];
    assert last[0] == CollectSetQuery && last[1..] == [];
    assert Run(st2, last) == (st3, [answer3] + Run(st3, []).1);
    assert reqs[1..][0] == CollectSetQuery && reqs[1..][1..] == last;
    assert Run(st1, reqs[1..]) == (st3, [answer2] + Run(st2, last).1);
  }

  // ---------------------------------------------------------------------------
  // The server object: its store, and the route handlers that change it.

  class VessimApiServer {
    var slots: map<string, real>
    var hashes: map<string, Hash>

    function Snapshot(): Store
      reads this
    {
      Store(slots, hashes)
    }

    predicate Valid()
      reads this
    {
      WellFormed(Snapshot())
    }

    /** A new server starts its own Redis container, whose store is empty. */
    constructor ()
      ensures Valid() && Snapshot() == EMPTY_STORE
    {
      slots := map[];
      hashes := map[];
    }

    /** GET /api/solar: the last value written, or the TypeError of a slot never written. */
    function GetSolar(): (r: Result<real, Error>)
      reads this
      ensures r.Success? <==> SOLAR in slots
      ensures r.Success? ==> r.value == slots[SOLAR]
      ensures r.Failure? ==> r.error == TypeError(SOLAR)
    {
      ReadSlot(Snapshot(), SOLAR)
    }

    /** GET /api/ci: the last value written, or the TypeError of a slot never written. */
    function GetCi(): (r: Result<real, Error>)
      reads this
      ensures r.Success? <==> CI in slots
      ensures r.Success? ==> r.value == slots[CI]
      ensures r.Failure? ==> r.error == TypeError(CI)
    {
      ReadSlot(Snapshot(), CI)
    }

    /** GET /api/battery-soc: the last value written, or the TypeError of a slot never written. */
    function GetBatterySoc(): (r: Result<real, Error>)
      reads this
      ensures r.Success? <==> BATTERY_SOC in slots
      ensures r.Success? ==> r.value == slots[BATTERY_SOC]
      ensures r.Failure? ==> r.error == TypeError(BATTERY_SOC)
    {
      ReadSlot(Snapshot(), BATTERY_SOC)
    }

    /** Every field of the hash with its decoded value; a missing hash reads as empty. */
    function DeserializeRedisHash(name: string): (h: Hash)
      reads this
      ensures forall key :: key in h <==> name in hashes && key in hashes[name]
      ensures forall key :: key in h ==> h[key] == hashes[name][key]
    {
      HGetAll(Snapshot(), name)
    }

    /**
     * Deletes the fields of one hash one at a time, as HKEYS then HDEL per key;
     * Redis drops the hash with its last field.  Nothing else changes.
     */
    method DeleteAllKeysInHash(name: string)
      requires Valid()
      modifies this
      ensures Valid()
      ensures slots == old(slots)
      ensures hashes == old(hashes) - {name}
    {
      var keys := DeserializeRedisHash(name).Keys;  // HKEYS
      while keys != {}
        invariant slots == old(slots)
        invariant forall other :: other != name ==> (other in hashes <==> other in old(hashes))
        invariant forall other :: other != name && other in hashes ==> hashes[other] == old(hashes)[other]
        invariant name in hashes <==> keys != {}
        invariant name in hashes ==> hashes[name].Keys == keys
        decreases keys
      {
        var key :| key in keys;
        var rest := hashes[name] - {key};  // HDEL
        if rest == map[] {
          hashes := hashes - {name};
        } else {
          hashes := hashes[name := rest];
        }
        keys := keys - {key};
      }
      assert hashes == old(hashes) - {name};
      RemoveHashWellFormed(old(Snapshot()), name);
    }

    /** GET /sim/collect-set: reads the three buckets, then empties each of them. */
    method GetCollectSet() returns (r: CollectSet)
      requires Valid()
      modifies this
      ensures Valid()
      ensures (Snapshot(), r) == Drain(old(Snapshot()))
    {
      r := CollectSet(DeserializeRedisHash(BATTERY_MIN_SOC_LOG),
                      DeserializeRedisHash(BATTERY_GRID_CHARGE_LOG),
                      DeserializeRedisHash(POWER_MODE_LOG));
      DeleteAllKeysInHash(BATTERY_MIN_SOC_LOG);
      DeleteAllKeysInHash(BATTERY_GRID_CHARGE_LOG);
      DeleteAllKeysInHash(POWER_MODE_LOG);
      assert hashes == old(hashes) - LOG_BUCKETS;
    }

    /** PUT /api/battery, received at timestamp: logs both values and echoes the body. */
    method PutBattery(timestamp: string, battery: Battery) returns (r: Battery)
      requires Valid()
      modifies this
      ensures Valid()
      ensures r == battery
      ensures Snapshot() == AppendBattery(old(Snapshot()), timestamp, battery)
    {
      hashes := hashes[BATTERY_MIN_SOC_LOG := DeserializeRedisHash(BATTERY_MIN_SOC_LOG)[timestamp := Number(battery.minSoc)]];
      hashes := hashes[BATTERY_GRID_CHARGE_LOG := DeserializeRedisHash(BATTERY_GRID_CHARGE_LOG)[timestamp := Number(battery.gridCharge)]];
      r := battery;
      assert Snapshot() == AppendBattery(old(Snapshot()), timestamp, battery);
    }

    /** PUT /api/nodes/{item_id}, received at timestamp: validates the mode, then logs it. */
    method PutNodes(timestamp: string, itemId: int, node: Node) returns (r: Result<Node, Error>)
      requires Valid()
      modifies this
      ensures Valid()
      ensures (Snapshot(), r) == AppendNodeMode(old(Snapshot()), timestamp, itemId, node)
    {
      var powerModes := POWER_MODES;
      if node.powerMode !in powerModes {
        return Failure(HttpException(400, InvalidPowerModeDetail(node.powerMode)));
      }
      hashes := hashes[POWER_MODE_LOG := DeserializeRedisHash(POWER_MODE_LOG)[timestamp := NodeMode(itemId, node.powerMode)]];
      r := Success(node);
      assert Snapshot() == AppendNodeMode(old(Snapshot()), timestamp, itemId, node).0;
    }

    /** PUT /sim/update: overwrites the three slots and echoes the body. */
    method PutUpdate(update: Update) returns (r: Update)
      requires Valid()
      modifies this
      ensures Valid()
      ensures r == update
      ensures Snapshot() == UpdateSlots(old(Snapshot()), update)
    {
      slots := slots[SOLAR := update.solar];
      slots := slots[CI := update.ci];
      slots := slots[BATTERY_SOC := update.batterySoc];
      r := update;
      assert Snapshot() == UpdateSlots(old(Snapshot()), update);
    }
  }
}
