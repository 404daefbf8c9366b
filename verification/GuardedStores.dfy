/** The guarded repository, storage and broker (internal/service/dependency_guards.go), with the
    failure test the application gives their breakers (internal/app/app.go). */
module GuardedStores {
  import opened Domain
  import opened Store
  import opened CircuitBreaker
  import opened Guards

  /** Replies that say something about the request, not about the dependency. What counts against that is
      its own failure, an open breaker behind it, and two errors that no guarded call returns. */
  predicate Exempt(e: Error): (exempt: bool)
    ensures !exempt <==> e == Dependency || e == CircuitOpen || e == InvalidUserID || e == ThumbnailFailed
  {
    e == NotFound || e == Forbidden || e == VariantNotReady || e == ObjectNotFound
  }

  /** What a call returns besides its error; `Nothing` stands for the zero values of its results. */
  datatype Value =
    | Nothing
    | Record(a: Avatar)
    | Records(items: seq<Avatar>)
    | Content(stored: Object)
    | Flag(present: bool)

  function ReplyOf<T>(r: Result<T, Error>, wrap: T -> Value): Reply<Value, Error> {
    match r
    case Ok(v) => Reply(wrap(v), None)
    case Err(e) => Reply(Nothing, Some(e))
  }

  function Answer<T>(o: Outcome, r: Result<T, Error>, wrap: T -> Value): Reply<Value, Error> {
    ReplyOf(if o.Fine? then r else Err(Dependency), wrap)
  }

  /** A call with the way it ends; a listing visits the records in `order`. */
  datatype RepositoryCall =
    | Create(a: Avatar, o: Outcome)
    | GetActiveByID(id: Id, o: Outcome)
    | GetByID(id: Id, o: Outcome)
    | ListActiveByUser(user: User, order: seq<Id>, o: Outcome)
    | SoftDeleteByID(id: Id, at: Time, o: Outcome)
    | MarkPublishFailed(id: Id, o: Outcome)
    | UpdateProcessingResult(id: Id, key100: Key, key300: Key, o: Outcome)

  function OnRepository(m: Avatars, call: RepositoryCall): (Avatars, Reply<Value, Error>) {
    match call
    case Create(a, o) => (Effect(o, m, m[a.id := a]), Reply(Nothing, Ending(o, None)))
    case GetActiveByID(id, o) => (m, Answer(o, FindActive(m, id), a => Record(a)))
    case GetByID(id, o) => (m, Answer(o, Find(m, id), a => Record(a)))
    case ListActiveByUser(user, order, o) => (m, Answer(o, Ok(InOrder(m, user, order)), items => Records(items)))
    case SoftDeleteByID(id, at, o) =>
      var (m', err) := SoftDeleted(m, id, at);
      (Effect(o, m, m'), Reply(Nothing, Ending(o, err)))
    case MarkPublishFailed(id, o) =>
      var (m', err) := MarkedFailed(m, id);
      (Effect(o, m, m'), Reply(Nothing, Ending(o, err)))
    case UpdateProcessingResult(id, key100, key300, o) =>
      var (m', err) := Processed(m, id, key100, key300);
      (Effect(o, m, m'), Reply(Nothing, Ending(o, err)))
  }

  /** What the call replies is the user's listing, when `order` names each record of the map, and none twice. */
  lemma RepliesWithListing(m: Avatars, user: User, order: seq<Id>)
    requires Keyed(m) && Visits(order, m.Keys)
    ensures var (m', reply) := OnRepository(m, ListActiveByUser(user, order, Fine));
            m' == m && reply.err.None? && reply.value.Records? && IsListing(m, user, reply.value.items)
  {
    InOrderIsListing(m, user, order);
  }

  datatype StorageCall =
    | Put(key: Key, data: Bytes, mime: string, o: Outcome)
    | Get(key: Key, o: Outcome)
    | Delete(key: Key, o: Outcome)
    | Exists(key: Key, o: Outcome)

  function OnStorage(m: Objects, call: StorageCall): (Objects, Reply<Value, Error>) {
    match call
    case Put(key, data, mime, o) => (Effect(o, m, m[key := Object(data, mime)]), Reply(Nothing, Ending(o, None)))
    case Get(key, o) => (m, Answer(o, FindObject(m, key), stored => Content(stored)))
    case Delete(key, o) => (Effect(o, m, m - {key}), Reply(Nothing, Ending(o, None)))
    case Exists(key, o) => (m, Answer(o, Ok(key in m), present => Flag(present)))
  }

  /** The two routing keys the service publishes under. */
  datatype Topic = AvatarUploaded | AvatarDeleteRequested

  datatype BrokerCall = Publish(topic: Topic, id: Id, o: Outcome)

  datatype Queues = Queues(uploads: multiset<Id>, deletes: multiset<Id>)

  function OnBroker(q: Queues, call: BrokerCall): (Queues, Reply<Value, Error>) {
    var after :=
      match call.topic
      case AvatarUploaded => q.(uploads := q.uploads + multiset{call.id})
      case AvatarDeleteRequested => q.(deletes := q.deletes + multiset{call.id});
    (Effect(call.o, q, after), Reply(Nothing, Ending(call.o, None)))
  }

  // The requests are the calls of the stores

  function Failing(err: Option<Error>): Reply<Value, Error> {
    Reply(Nothing, err)
  }

  predicate IsLive(m: Avatars, id: Id) {
    id in m && m[id].deletedAt.None?
  }

  /** What a request that reaches the repository and succeeds finds and does. */
  ghost predicate Answered(m: Avatars, call: RepositoryCall, m': Avatars, reply: Reply<Value, Error>) {
    match call
    case Create(a, _) => m' == m[a.id := a] && reply == Failing(None)
    case GetActiveByID(id, _) =>
      m' == m && reply == if IsLive(m, id) then Reply(Record(m[id]), None) else Failing(Some(NotFound))
    case GetByID(id, _) =>
      m' == m && reply == if id in m then Reply(Record(m[id]), None) else Failing(Some(NotFound))
    case ListActiveByUser(user, _, _) =>
      m' == m && reply.err.None? && reply.value.Records? && IsListing(m, user, reply.value.items)
    case SoftDeleteByID(id, at, _) =>
      if IsLive(m, id) then m' == m[id := m[id].(deletedAt := Some(at))] && reply == Failing(None)
      else m' == m && reply == Failing(Some(NotFound))
    case MarkPublishFailed(id, _) =>
      if id in m then m' == m[id := m[id].(status := Failed)] && reply == Failing(None)
      else m' == m && reply == Failing(Some(NotFound))
    case UpdateProcessingResult(id, key100, key300, _) =>
      if id in m then
        && id in m' && m' == m[id := m'[id]] && reply == Failing(None)
        && m'[id].thumb100Key == key100 && m'[id].thumb300Key == key300
        && (m'[id].thumb100Available <==> key100 != NoKey) && (m'[id].thumb300Available <==> key300 != NoKey)
        && m'[id].status == if key100 != NoKey && key300 != NoKey then Completed else Failed
      else m' == m && reply == Failing(Some(NotFound))
  }

  /** The same request, a listing perhaps in another order of visiting the records. */
  ghost predicate SameRequest(call: RepositoryCall, made: RepositoryCall, ids: set<Id>) {
    || made == call
    || (call.ListActiveByUser? && made.ListActiveByUser? && made == call.(order := made.order)
        && Visits(made.order, ids))
  }

  /** Makes the call the request names. */
  method CallRepository(repo: Repository, call: RepositoryCall)
    returns (reply: Reply<Value, Error>, ghost made: RepositoryCall)
    requires Keyed(repo.avatars)
    modifies repo
    ensures (repo.avatars, reply) == OnRepository(old(repo.avatars), made)
    ensures SameRequest(call, made, old(repo.avatars).Keys)
    ensures call.o.Fine? ==> Answered(old(repo.avatars), call, repo.avatars, reply)
  {
    hide InOrder, ListingOf, Visits;
    made := call;
    match call
    case Create(a, o) =>
      var err := repo.Create(a, o);
      reply := Failing(err);
    case GetActiveByID(id, o) =>
      var r := repo.GetActiveByID(id, o);
      reply := ReplyOf(r, a => Record(a));
    case GetByID(id, o) =>
      var r := repo.GetByID(id, o);
      reply := ReplyOf(r, a => Record(a));
    case ListActiveByUser(user, _, o) =>
      var r := repo.ListActiveByUser(user, o);
      if r.Ok? {
        ghost var order :| Visits(order, repo.avatars.Keys) && r.value == InOrder(repo.avatars, user, order);
        made := call.(order := order);
      }
      reply := ReplyOf(r, items => Records(items));
    case SoftDeleteByID(id, at, o) =>
      var err := repo.SoftDeleteByID(id, at, o);
      reply := Failing(err);
    case MarkPublishFailed(id, o) =>
      var err := repo.MarkPublishFailed(id, o);
      reply := Failing(err);
    case UpdateProcessingResult(id, key100, key300, o) =>
      var err := repo.UpdateProcessingResult(id, key100, key300, o);
      reply := Failing(err);
  }

  /** What a request that reaches the storage and succeeds finds and does. */
  predicate Served(m: Objects, call: StorageCall, m': Objects, reply: Reply<Value, Error>) {
    match call
    case Put(key, data, mime, _) => m' == m[key := Object(data, mime)] && reply == Failing(None)
    case Get(key, _) =>
      m' == m && reply == if key in m then Reply(Content(m[key]), None) else Failing(Some(ObjectNotFound))
    case Delete(key, _) => m' == m - {key} && reply == Failing(None)
    case Exists(key, _) => m' == m && reply == Reply(Flag(key in m), None)
  }

  method CallStorage(storage: Storage, call: StorageCall) returns (reply: Reply<Value, Error>)
    modifies storage
    ensures (storage.objects, reply) == OnStorage(old(storage.objects), call)
    ensures call.o.Fine? ==> Served(old(storage.objects), call, storage.objects, reply)
  {
    match call
    case Put(key, data, mime, o) =>
      var err := storage.Put(key, data, mime, o);
      reply := Failing(err);
    case Get(key, o) =>
      var r := storage.Get(key, o);
      reply := ReplyOf(r, stored => Content(stored));
    case Delete(key, o) =>
      var err := storage.Delete(key, o);
      reply := Failing(err);
    case Exists(key, o) =>
      var r := storage.Exists(key, o);
      reply := ReplyOf(r, present => Flag(present));
  }

  method CallBroker(broker: Broker, call: BrokerCall) returns (reply: Reply<Value, Error>)
    modifies broker
    ensures (Queues(broker.uploads, broker.deletes), reply) ==
            OnBroker(Queues(old(broker.uploads), old(broker.deletes)), call)
    ensures call.topic.AvatarUploaded? ==> broker.deletes == old(broker.deletes)
    ensures call.topic.AvatarDeleteRequested? ==> broker.uploads == old(broker.uploads)
    ensures call.o.Fine? ==>
              reply == Failing(None) &&
              if call.topic.AvatarUploaded? then broker.uploads == old(broker.uploads) + multiset{call.id}
              else broker.deletes == old(broker.deletes) + multiset{call.id}
  {
    var err;
    match call.topic {
      case AvatarUploaded => err := broker.PublishUploaded(call.id, call.o);
      case AvatarDeleteRequested => err := broker.PublishDeleteRequested(call.id, call.o);
    }
    reply := Failing(err);
  }

  function RepositorySetup(): Setup<Avatars, RepositoryCall, Value, Error> {
    Setup(OnRepository, Nothing, CircuitOpen, Exempt)
  }

  function StorageSetup(): Setup<Objects, StorageCall, Value, Error> {
    Setup(OnStorage, Nothing, CircuitOpen, Exempt)
  }

  function BrokerSetup(): Setup<Queues, BrokerCall, Value, Error> {
    Setup(OnBroker, Nothing, CircuitOpen, Exempt)
  }

  /** Calls `i` to `i + n - 1` end badly, and there is a further one. */
  predicate OutageAt(outcomes: seq<Outcome>, i: nat, n: int) {
    i + n < |outcomes| && forall j :: i <= j < i + n ==> !outcomes[j].Fine?
  }

  /** `n` calls in a row end badly, and another is made. */
  ghost predicate Outage(outcomes: seq<Outcome>, n: int) {
    exists i: nat :: OutageAt(outcomes, i, n)
  }

  /** Whether a reply counts as a failure depends on the outcome of the call alone. */
  ghost predicate FailsAsItEnds<W(!new), Op(!new), R>(s: Setup<W, Op, R, Error>, ending: Op -> Outcome) {
    s.open == CircuitOpen &&
    forall w, op ::
      s.apply(w, op).1.err != Some(CircuitOpen) && (IsFailure(s, s.apply(w, op).1.err) <==> !ending(op).Fine?)
  }

  function Endings<Op>(ops: seq<Op>, ending: Op -> Outcome): (r: seq<Outcome>)
    ensures |r| == |ops| && forall i :: 0 <= i < |ops| ==> r[i] == ending(ops[i])
  {
    seq(|ops|, i requires 0 <= i < |ops| => ending(ops[i]))
  }

  lemma {:induction false} RepliesFail<W(!new), Op(!new), R>(s: Setup<W, Op, R, Error>, w: W, ops: seq<Op>,
      ending: Op -> Outcome)
    requires FailsAsItEnds(s, ending)
    ensures var replies := PlainRun(s, w, ops).1;
            && Distinguishable(s, replies)
            && forall i :: 0 <= i < |ops| ==> (IsFailure(s, replies[i].err) <==> !ending(ops[i]).Fine?)
  {
    if ops == [] {
    } else {
      RepliesFail(s, w, ops[..|ops| - 1], ending);
    }
  }

  lemma TransparentUnlessOutage<W(!new), Op(!new), R>(s: Setup<W, Op, R, Error>, c: Config, w: W, ops: seq<Op>,
      ending: Op -> Outcome)
    requires c.Valid() && FailsAsItEnds(s, ending)
    ensures (forall times :: |times| == |ops| && Sequential(times) ==>
               Unnoticed(s, c, w, ops, times))
            <==> !Outage(Endings(ops, ending), c.threshold)
  {
    RepliesFail(s, w, ops, ending);
    GuardTransparent(s, c, w, ops);
    var replies, outcomes := PlainRun(s, w, ops).1, Endings(ops, ending);
    hide PlainRun, GuardedRun;
    if Outage(outcomes, c.threshold) {
      var i: nat :| OutageAt(outcomes, i, c.threshold);
      assert RowAt(s, replies, i, c.threshold);
    }
    if FailsInARow(s, replies, c.threshold) {
      var i: nat :| RowAt(s, replies, i, c.threshold);
      assert OutageAt(outcomes, i, c.threshold);
    }
  }

  /** Lookups that find nothing never trip the breaker: the guarded repository answers every list of
      calls as the repository does, and leaves it in the same state, whenever the calls are made, iff
      no `threshold` calls in a row fail in the dependency itself before a further call. */
  lemma RepositoryTransparent(c: Config, m: Avatars, ops: seq<RepositoryCall>)
    requires c.Valid()
    ensures (forall times :: |times| == |ops| && Sequential(times) ==>
               Unnoticed(RepositorySetup(), c, m, ops, times))
            <==> !Outage(Endings(ops, (op: RepositoryCall) => op.o), c.threshold)
  {
    TransparentUnlessOutage(RepositorySetup(), c, m, ops, (op: RepositoryCall) => op.o);
  }

  /** The same of the storage, with missing objects in the place of missing records. */
  lemma StorageTransparent(c: Config, m: Objects, ops: seq<StorageCall>)
    requires c.Valid()
    ensures (forall times :: |times| == |ops| && Sequential(times) ==>
               Unnoticed(StorageSetup(), c, m, ops, times))
            <==> !Outage(Endings(ops, (op: StorageCall) => op.o), c.threshold)
  {
    TransparentUnlessOutage(StorageSetup(), c, m, ops, (op: StorageCall) => op.o);
  }

  /** And of the broker, where every error is a failure. */
  lemma BrokerTransparent(c: Config, q: Queues, ops: seq<BrokerCall>)
    requires c.Valid()
    ensures (forall times :: |times| == |ops| && Sequential(times) ==>
               Unnoticed(BrokerSetup(), c, q, ops, times))
            <==> !Outage(Endings(ops, (op: BrokerCall) => op.o), c.threshold)
  {
    TransparentUnlessOutage(BrokerSetup(), c, q, ops, (op: BrokerCall) => op.o);
  }
}
