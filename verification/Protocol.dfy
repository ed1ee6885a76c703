/** The outbox / inbox / dead-letter protocol as an interleaved state machine.

    Any number of processes (HTTP publishers, relay workers, admin replays,
    cleanup passes, stream consumers, on any nodes) share the tables. One move of
    one process executes one CQL statement, one logged batch or one broker call;
    a process may halt between any two moves. Every statement may be refused
    (no effect, error) or have its reply lost (effect, error). Clock readings are
    arbitrary unless a theorem says otherwise. */
module Protocol {
  import opened Schema
  import opened Statements
  import opened Ordering
  import Backoff

  type Pid = nat

  /** An accepted broker message; its message id is the event id. */
  datatype Message = Message(id: EventId, subject: string, payload: string)

  /** A failed publication round: the process that gave up, and a serial number. */
  datatype Token = Token(pid: Pid, serial: nat)

  /** The n-th life of an idempotency key; cleaning the key starts the next one. */
  datatype KeyLife = KeyLife(key: Key, life: nat)

  datatype AppendReturn = AppendReturn(owner: Option<KeyLife>, id: EventId, event: EventRow, duplicate: bool, published: bool)

  datatype Delivery = Delivery(message: MessageId, subject: string, payload: string)
  datatype Emission = Emission(consumer: string, delivery: Delivery)

  /** What happened so far; no statement reads it. */
  datatype History = History(
    holder: map<EventId, Pid>,              // which process drew a time UUID
    orig: map<EventId, EventRow>,           // events as first stored
    log: seq<Message>,                      // broker log, duplicates kept
    lives: map<Key, nat>,                   // how often a key was cleaned
    owners: map<KeyLife, EventId>,          // the event that took a key
    issued: map<EventId, set<Token>>,       // failed publication rounds
    recorded: map<EventId, set<Token>>,     // those written to the retry row
    claims: map<InboxKey, Pid>,             // who claimed an inbox row
    emitted: seq<Emission>,                 // what consumers wrote out
    results: seq<AppendReturn>)             // what successful appends returned

  const NOTHING: History := History(map[], map[], [], map[], map[], map[], map[], map[], [], [])

  datatype Config = Config(attempts: nat, leaseMs: int, policy: Backoff.Policy)

  datatype Shared = Shared(t: Tables, h: History, cfg: Config)

  datatype Request = Request(key: string, row: EventRow)

  /** Where a process stands, with its local variables. */
  datatype Pc =
    | AppendKey(req: Request, newId: EventId)
    | AppendIndex(req: Request, newId: EventId, own: KeyLife, created: Time)
    | AppendBatch(req: Request, newId: EventId, owned: Option<KeyLife>)
    | AppendRead(existing: EventId, own: KeyLife)
    | AppendState(existing: EventId, own: KeyLife, row: EventRow)
    | Publish(msg: Message, attempt: nat, rest: seq<Record>)
    | MarkRead(id: EventId, brokerId: string, rest: seq<Record>)
    | MarkBatch(id: EventId, brokerId: string, occurredAt: Time, rest: seq<Record>)
    | FailRead(id: EventId, token: Token, rest: seq<Record>)
    | FailWrite(id: EventId, token: Token, count: nat, first: Option<Time>, rest: seq<Record>)
    | DeadRead(id: EventId, count: nat, at: Time, error: string, rest: seq<Record>)
    | DeadBatch(id: EventId, letter: DeadLetter, rest: seq<Record>)
    | RelayFetch(limit: int)
    | RelayCheck(page: seq<Slot>, bodies: map<Slot, Body>, out: seq<Record>, room: nat)
    | RelayClaim(queue: seq<Record>)
    | ReplayRead(id: EventId)
    | ReplayFind(id: EventId, letter: DeadLetter, now: Time)
    | ReplayBatch(id: EventId, letter: DeadLetter, occurredAt: Time, now: Time)
    | CleanFetch(keyCutoff: Time, deadCutoff: Time, limit: int)
    | CleanKeys(stale: seq<CreatedKey>, keyCutoff: Time, deadCutoff: Time, limit: int)
    | CleanDeadFetch(deadCutoff: Time, limit: int)
    | CleanDead(slots: seq<Slot>)
    | Receive(consumer: string)
    | ClaimMessage(consumer: string, delivery: Delivery)
    | Emit(consumer: string, delivery: Delivery)
    | Done

  datatype Task =
    | PublishTask(req: Request, newId: EventId)
    | RelayTask(limit: int)
    | ReplayTask(id: EventId)
    | CleanTask(keyCutoff: Time, deadCutoff: Time, limit: int)
    | ConsumeTask(consumer: string)

  datatype Fault = Fine | Refused | Lost

  /** Everything the environment decides in one move. */
  datatype Choice = Choice(now: Time, fault: Fault, cancel: bool, draw: nat, text: string, delivery: Delivery)

  datatype World = World(s: Shared, procs: map<Pid, Pc>)

  datatype Event = Begin(p: Pid, task: Task) | Move(p: Pid, c: Choice) | Halt(p: Pid)

  function Life(lives: map<Key, nat>, key: Key): nat {
    if key in lives then lives[key] else 0
  }

  function Tokens(m: map<EventId, set<Token>>, id: EventId): set<Token> {
    if id in m then m[id] else {}
  }

  function Grow(m: map<EventId, set<Token>>, id: EventId, token: Token): map<EventId, set<Token>> {
    m[id := Tokens(m, id) + {token}]
  }

  /** An empty stream name means "default". */
  function Normal(req: Request): Request {
    if req.row.body.stream == "" then req.(row := req.row.(body := req.row.body.(stream := "default"))) else req
  }

  function KeyOf(req: Request): Key {
    Key(req.row.body.stream, req.key)
  }

  function MessageOf(id: EventId, body: Body): Message {
    Message(id, body.subject, body.payload)
  }

  function Min(a: int, b: int): int {
    if a < b then a else b
  }

  /** The scan limits of PendingOutboxEvents. */
  function BatchLimit(limit: int): (l: nat)
    ensures 1 <= l <= 2000
  {
    if limit <= 0 then 100 else if limit > 2000 then 2000 else limit
  }

  function FetchLimit(limit: int): (n: nat)
    ensures n >= 100 && n >= BatchLimit(limit)
  {
    Backoff.Max(100, BatchLimit(limit) * 5)
  }

  function First<K>(rows: seq<K>, n: nat): seq<K> {
    rows[..Min(n, |rows|)]
  }

  function PendingRows(t: Tables): (rows: seq<Slot>)
    ensures forall r :: r in rows <==> r in t.pending
    ensures |rows| == |t.pending.Keys|
  {
    SlotOrder();
    Listing(t.pending.Keys, SlotLess)
  }

  function CreatedRows(t: Tables): (rows: seq<CreatedKey>)
    ensures forall r :: r in rows <==> r in t.byCreated
    ensures |rows| == |t.byCreated.Keys|
  {
    CreatedOrder();
    Listing(t.byCreated.Keys, CreatedLess)
  }

  function DeadRows(t: Tables): (rows: seq<Slot>)
    ensures forall r :: r in rows <==> r in t.deadByTime
    ensures |rows| == |t.deadByTime.Keys|
  {
    SlotOrder();
    Listing(t.deadByTime.Keys, SlotLess)
  }

  /** loadRetryState followed by the filter of the pending scan; a missing row
      counts as never tried. */
  predicate Eligible(t: Tables, id: EventId, now: Time) {
    if id in t.retry then
      && !t.retry[id].quarantined
      && t.retry[id].nextAttempt <= now
      && (t.retry[id].leaseUntil.Some? ==> t.retry[id].leaseUntil.value <= now)
    else EPOCH <= now
  }

  function RetryCountOf(t: Tables, id: EventId): nat {
    if id in t.retry then t.retry[id].retryCount else 0
  }

  function CreatedTime(k: CreatedKey): Time { k.createdAt }

  function SlotTime(k: Slot): Time { k.at }

  /** The rows of a page older than a cutoff, in page order. */
  function Older<K(!new, ==)>(rows: seq<K>, time: K -> Time, cutoff: Time): (r: seq<K>)
    ensures |r| <= |rows|
    ensures forall k :: k in r <==> k in rows && time(k) < cutoff
  {
    if rows == [] then []
    else (if time(rows[0]) < cutoff then [rows[0]] else []) + Older(rows[1..], time, cutoff)
  }

  function CleanLimit(limit: int): nat {
    if limit <= 0 then 200 else limit
  }

  /** A publication round is over: take the next claimed record, or finish. */
  function Resume(rest: seq<Record>): Pc {
    if rest == [] then Done else RelayClaim(rest)
  }

  /** Where an error reply sends a process. */
  function OnError(pc: Pc): Pc {
    match pc
    case MarkRead(_, _, rest) => Resume(rest)
    case MarkBatch(_, _, _, rest) => Resume(rest)
    case FailRead(_, _, rest) => Resume(rest)
    case FailWrite(_, _, _, _, rest) => Resume(rest)
    case DeadRead(_, _, _, _, rest) => Resume(rest)
    case DeadBatch(_, _, rest) => Resume(rest)
    case RelayCheck(rows, bodies, out, limit) => RelayCheck(if rows == [] then rows else rows[1..], bodies, out, limit)
    case RelayClaim(queue) => Resume(if queue == [] then queue else queue[1..])
    case CleanKeys(stale, keyCutoff, deadCutoff, limit) => CleanKeys(if stale == [] then stale else stale[1..], keyCutoff, deadCutoff, limit)
    case CleanDead(slots) => CleanDead(if slots == [] then slots else slots[1..])
    case ClaimMessage(consumer, _) => Receive(consumer)
    case Emit(consumer, _) => Receive(consumer)
    case _ => Done
  }

  /** The effect on the tables of the statement a process is about to execute. */
  function Effect(s: Shared, pc: Pc, c: Choice): Tables {
    match pc
    case AppendKey(req, newId) => if req.key == "" then s.t else InsertKey(s.t, KeyOf(req), newId, c.now)
    case AppendIndex(req, newId, own, _) => InsertCreated(s.t, own.key, newId, c.now)
    case AppendBatch(req, newId, _) => WriteEvent(s.t, newId, req.row)
    case MarkBatch(id, brokerId, occurredAt, _) => MarkPublished(s.t, id, occurredAt, brokerId, c.now)
    case FailWrite(id, _, count, first, _) =>
      WriteFailure(s.t, id, count, NextAttempt(s.cfg, count, c), c.text,
                   count >= s.cfg.policy.quarantineAfter, c.now, if first.Some? then first.value else c.now)
    case DeadBatch(id, letter, _) => WriteDeadLetter(s.t, id, letter)
    case RelayClaim(queue) => if queue == [] then s.t else ClaimLease(s.t, queue[0].id, c.text, c.now, s.cfg.leaseMs)
    case ReplayBatch(id, letter, occurredAt, now) => ReplayLetter(s.t, id, letter, occurredAt, now)
    case CleanKeys(stale, _, _, _) => if stale == [] then s.t else DeleteKey(s.t, stale[0])
    case CleanDead(slots) => if slots == [] then s.t else DeleteDeadLetter(s.t, slots[0])
    case ClaimMessage(consumer, d) => if d.message.NoId? then s.t else ClaimInbox(s.t, InboxKey(consumer, d.message), c.now)
    case _ => s.t
  }

  function NextAttempt(cfg: Config, count: nat, c: Choice): Time {
    c.now + (if count >= 1 then Backoff.WaitMs(cfg.policy, count, c.draw) else 0)
  }

  /** What the history notes about that statement. */
  function Note(s: Shared, p: Pid, pc: Pc): History {
    var h := s.h;
    match pc
    case AppendKey(req, newId) =>
      var key := KeyOf(req);
      if req.key == "" || key in s.t.keys then h else h.(owners := h.owners[KeyLife(key, Life(h.lives, key)) := newId])
    case AppendBatch(req, newId, _) => h.(orig := h.orig[newId := req.row])
    case FailWrite(id, token, _, _, _) => h.(recorded := Grow(h.recorded, id, token))
    case CleanKeys(stale, _, _, _) =>
      if stale == [] then h else h.(lives := h.lives[stale[0].key := Life(h.lives, stale[0].key) + 1])
    case ClaimMessage(consumer, d) =>
      var key := InboxKey(consumer, d.message);
      if d.message.NoId? || key in s.t.inbox then h else h.(claims := h.claims[key := p])
    case Emit(consumer, d) => h.(emitted := h.emitted + [Emission(consumer, d)])
    case _ => h
  }

  function Perform(s: Shared, p: Pid, pc: Pc, c: Choice): Shared {
    Shared(Effect(s, pc, c), Note(s, p, pc), s.cfg)
  }

  /** Where a process goes after a statement that answered. `s` is the state before it. */
  function Proceed(s: Shared, p: Pid, pc: Pc, c: Choice): Pc {
    var t, h := s.t, s.h;
    match pc
    case AppendKey(req, newId) =>
      var key := KeyOf(req);
      var own := KeyLife(key, Life(h.lives, key));
      if req.key == "" then AppendBatch(req, newId, None)
      else if key in t.keys then AppendRead(t.keys[key].id, own)
      else AppendIndex(req, newId, own, c.now)
    case AppendIndex(req, newId, own, _) => AppendBatch(req, newId, Some(own))
    case AppendBatch(req, newId, own) => Publish(MessageOf(newId, req.row.body), 1, [])
    case AppendRead(existing, own) =>
      if existing in t.byId then AppendState(existing, own, t.byId[existing]) else Done
    case AppendState(existing, own, row) =>
      if existing !in t.outbox || t.outbox[existing].state == Published then Done
      else Publish(MessageOf(existing, row.body), 1, [])
    case MarkRead(id, brokerId, rest) =>
      if id in t.outbox then MarkBatch(id, brokerId, t.outbox[id].occurredAt, rest) else Resume(rest)
    case MarkBatch(_, _, _, rest) => Resume(rest)
    case FailRead(id, token, rest) =>
      if id in t.retry then FailWrite(id, token, t.retry[id].retryCount + 1, t.retry[id].firstFailed, rest)
      else FailWrite(id, token, 1, None, rest)
    case FailWrite(id, token, count, _, rest) =>
      if count >= s.cfg.policy.quarantineAfter then DeadRead(id, count, c.now, c.text, rest) else Resume(rest)
    case DeadRead(id, count, at, error, rest) =>
      if id in t.outbox then DeadBatch(id, DeadLetter(at, DeadRow(t.outbox[id].body, count, error)), rest) else Resume(rest)
    case DeadBatch(_, _, rest) => Resume(rest)
    case RelayFetch(limit) => RelayCheck(First(PendingRows(t), FetchLimit(limit)), t.pending, [], BatchLimit(limit))
    case RelayCheck(rows, bodies, out, limit) =>
      if rows == [] || |out| >= limit then Resume(out)
      else if Eligible(t, rows[0].id, c.now) && rows[0] in bodies then
        RelayCheck(rows[1..], bodies, out + [Record(rows[0].id, bodies[rows[0]], rows[0].at, RetryCountOf(t, rows[0].id))], limit)
      else RelayCheck(rows[1..], bodies, out, limit)
    case RelayClaim(queue) =>
      if queue == [] then Done
      else if LeaseFree(t, queue[0].id, c.now) then Publish(MessageOf(queue[0].id, queue[0].body), 1, queue[1..])
      else Resume(queue[1..])
    case ReplayRead(id) =>
      if id in t.deadById then ReplayFind(id, t.deadById[id], c.now) else Done
    case ReplayFind(id, letter, now) =>
      ReplayBatch(id, letter, if id in t.outbox then t.outbox[id].occurredAt else now, now)
    case CleanFetch(keyCutoff, deadCutoff, limit) =>
      CleanKeys(Older(First(CreatedRows(t), CleanLimit(limit)), CreatedTime, keyCutoff), keyCutoff, deadCutoff, limit)
    case CleanKeys(stale, keyCutoff, deadCutoff, limit) =>
      if stale == [] then CleanDeadFetch(deadCutoff, limit) else CleanKeys(stale[1..], keyCutoff, deadCutoff, limit)
    case CleanDeadFetch(deadCutoff, limit) =>
      CleanDead(Older(First(DeadRows(t), CleanLimit(limit)), SlotTime, deadCutoff))
    case CleanDead(slots) =>
      if slots == [] then Done else CleanDead(slots[1..])
    case Receive(consumer) => ClaimMessage(consumer, c.delivery)
    case ClaimMessage(consumer, d) =>
      if d.message.NoId? || InboxKey(consumer, d.message) !in t.inbox then Emit(consumer, d) else Receive(consumer)
    case Emit(consumer, _) => Receive(consumer)
    case _ => Done
  }

  /** A successful append records what it returned. */
  function Report(s: Shared, pc: Pc): History {
    match pc
    case AppendBatch(req, newId, own) =>
      s.h.(results := s.h.results + [AppendReturn(own, newId, req.row, false, false)])
    case AppendState(existing, own, row) =>
      if existing in s.t.outbox then s.h.(results := s.h.results + [AppendReturn(Some(own), existing, row, true, s.t.outbox[existing].state == Published)])
      else s.h
    case _ => s.h
  }

  /** The broker's part of an attempt: it logs the message, or refuses it. */
  function Offer(s: Shared, m: Message, refused: bool): Shared {
    if refused then s else s.(h := s.h.(log := s.h.log + [m]))
  }

  /** A publication round has failed. */
  function GiveUp(s: Shared, id: EventId, token: Token): Shared {
    s.(h := s.h.(issued := Grow(s.h.issued, id, token)))
  }

  /** Whether an unsuccessful attempt is the last of its round. */
  predicate LastAttempt(s: Shared, pc: Pc, c: Choice)
    requires pc.Publish?
  {
    pc.attempt >= s.cfg.attempts || c.cancel
  }

  /** One attempt of publishWithRetry. A refused attempt is a broker error or an
      open breaker; a lost one was accepted but not acknowledged. */
  function Attempt(s: Shared, p: Pid, pc: Pc, c: Choice): Shared
    requires pc.Publish?
  {
    var s1 := Offer(s, pc.msg, c.fault.Refused?);
    if !c.fault.Fine? && LastAttempt(s, pc, c) then GiveUp(s1, pc.msg.id, Token(p, c.draw)) else s1
  }

  function AttemptPc(s: Shared, p: Pid, pc: Pc, c: Choice): Pc
    requires pc.Publish?
  {
    if c.fault.Fine? then MarkRead(pc.msg.id, c.text, pc.rest)
    else if LastAttempt(s, pc, c) then FailRead(pc.msg.id, Token(p, c.draw), pc.rest)
    else pc.(attempt := pc.attempt + 1)
  }

  /** One move of a process: what it does to the shared state ... */
  function Step(s: Shared, p: Pid, pc: Pc, c: Choice): Shared {
    if pc.Publish? then Attempt(s, p, pc, c)
    else match c.fault
      case Refused => s
      case Lost => Perform(s, p, pc, c)
      case Fine => var s' := Perform(s, p, pc, c); s'.(h := Report(s', pc))
  }

  /** ... and where it goes. */
  function StepPc(s: Shared, p: Pid, pc: Pc, c: Choice): Pc {
    if pc.Publish? then AttemptPc(s, p, pc, c)
    else if c.fault.Fine? then Proceed(s, p, pc, c)
    else OnError(pc)
  }

  function Start(task: Task): Pc {
    match task
    case PublishTask(req, newId) => if req.key == "" then AppendBatch(Normal(req), newId, None) else AppendKey(Normal(req), newId)
    case RelayTask(limit) => RelayFetch(limit)
    case ReplayTask(id) => ReplayRead(id)
    case CleanTask(keyCutoff, deadCutoff, limit) => CleanFetch(keyCutoff, deadCutoff, limit)
    case ConsumeTask(consumer) => Receive(consumer)
  }

  /** What the environment may deliver: a message of the broker log, or one published by others. */
  predicate Deliverable(h: History, d: Delivery) {
    d.message.EventMsg? ==> Message(d.message.id, d.subject, d.payload) in h.log
  }

  /** TimeUUID is globally fresh, and so are the serial numbers of failed rounds. */
  predicate Enabled(w: World, e: Event) {
    match e
    case Begin(p, task) => p !in w.procs && (task.PublishTask? ==> task.newId !in w.s.h.holder)
    case Move(p, c) =>
      && p in w.procs
      && (w.procs[p].Publish? ==> Token(p, c.draw) !in Tokens(w.s.h.issued, w.procs[p].msg.id))
      && (w.procs[p].Receive? ==> Deliverable(w.s.h, c.delivery))
    case Halt(p) => p in w.procs
  }

  function Next(w: World, e: Event): World
    requires Enabled(w, e)
  {
    match e
    case Begin(p, task) =>
      var h := if task.PublishTask? then w.s.h.(holder := w.s.h.holder[task.newId := p]) else w.s.h;
      World(w.s.(h := h), w.procs[p := Start(task)])
    case Move(p, c) =>
      World(Step(w.s, p, w.procs[p], c), w.procs[p := StepPc(w.s, p, w.procs[p], c)])
    case Halt(p) => w.(procs := w.procs - {p})
  }

  /** A run: every event is enabled where it happens. */
  predicate Legal(w: World, run: seq<Event>)
    decreases |run|
  {
    run == [] || (Enabled(w, run[0]) && Legal(Next(w, run[0]), run[1..]))
  }

  function After(w: World, run: seq<Event>): World
    requires Legal(w, run)
    decreases |run|
  {
    if run == [] then w else After(Next(w, run[0]), run[1..])
  }

  predicate Sound(cfg: Config) {
    cfg.attempts >= 1 && cfg.leaseMs >= 1000 && cfg.policy.quarantineAfter >= 1
  }

  function Initial(cfg: Config): World {
    World(Shared(EMPTY, NOTHING, cfg), map[])
  }
}
