/** The durable storage of one relay object, and each storage transaction as a function on it. */
module MailboxState {
  import opened Wrappers
  import opened Lifecycle
  import opened Ordered

  // A call id is a version-4 UUID. Fixed-width lower-case hexadecimal text sorts like the number it
  // spells, so ids are that number.
  type CallId = nat

  // The JSON text of an HPKE envelope. It is ASCII, so its length is its size in bytes.
  type Envelope = string

  const MAX_QUEUED_TASKS := 100
  const MAX_OUTSTANDING_PER_CALLER := 10
  const MAX_STORED_BYTES := 32 * 1024 * 1024
  const DRAIN_LIMIT := 24
  const MAILBOX_TTL := 72 * 60 * 60_000
  const TOMBSTONE_TTL := 24 * 60 * 60_000
  const AUDIT_RETRY := 1_000
  const MAX_LEASE_ATTEMPTS := 3

  datatype TaskState = IsSubmitted | IsWorking | IsCompleted | IsFailed | IsCanceled | IsRejected

  datatype Delivery = Queued | Leased | Started | Closed

  datatype Reason = ReasonCompleted | ReasonFailed | ReasonCanceled | ReasonExpired
                  | ReasonDeliveryFailed | ReasonRevoked | ReasonIndeterminate

  datatype Lease = Lease(id: nat, session: nat, expiresAt: int, attempt: int)

  /** The fields only a durable task has. They are all set at admission. `digest` stands for the
      SHA-256 of the request envelope; hashes are taken to be injective, so it is the text hashed. */
  datatype Mail = Mail(
    agent: string, message: string, digest: Envelope, request: Option<Envelope>,
    delivery: Delivery, lease: Option<Lease>, executeBy: int, purgeAt: int,
    reason: Option<Reason>, bytes: nat, released: bool)

  datatype Task = Task(
    from: string, createdAt: int, updatedAt: int, deadline: int,
    phase: Phase, state: TaskState, outcome: Option<Envelope>, mail: Option<Mail>)

  datatype Event = CallSubmit | CallAccept | CallComplete | CallFail | CallCancel | CallTimeout

  datatype Intent = Intent(at: int, event: Event, call: CallId)

  // "<prefix><time padded to 16 digits>:<call id>"
  datatype Key = Key(at: int, call: CallId)

  datatype DedupeKey = DedupeKey(agent: string, message: string)

  datatype Dedupe = Dedupe(call: CallId, digest: Envelope)

  datatype Store = Store(
    tasks: map<CallId, Task>, queue: set<Key>, due: set<Key>, dedupe: map<DedupeKey, Dedupe>,
    active: Option<CallId>, outstanding: int, perCaller: map<string, int>, bytes: int,
    outbox: set<Intent>)

  const EMPTY_STORE := Store(map[], {}, {}, map[], None, 0, map[], 0, {})

  predicate Terminal(t: Task) {
    t.state !in {IsSubmitted, IsWorking}
  }

  predicate IsDelivery(t: Task, d: Delivery) {
    t.mail.Some? && t.mail.value.delivery == d
  }

  function EventRank(e: Event): nat {
    match e
    case CallSubmit => 0
    case CallAccept => 1
    case _ => 2
  }

  function QueueKey(id: CallId, t: Task): Key {
    Key(t.createdAt, id)
  }

  function DueKey(id: CallId, t: Task): Key {
    Key(t.deadline, id)
  }

  function DedupeKeyOf(m: Mail): DedupeKey {
    DedupeKey(m.agent, m.message)
  }

  /** Storage lists keys in lexicographic order: by time, then by id. */
  predicate Before(a: Key, b: Key) {
    a.at < b.at || (a.at == b.at && a.call < b.call)
  }

  function KeyOrder(): (Key, Key) -> bool {
    (a, b) => Before(a, b)
  }

  /** The row a prefix list with limit 1 returns. */
  ghost function First(keys: set<Key>): (k: Key)
    requires keys != {}
    ensures k in keys && forall o | o in keys :: o == k || Before(k, o)
  {
    assert Total(KeyOrder());
    Least(KeyOrder(), keys)
  }

  /** The rows a prefix list with a limit returns, in order. */
  ghost function Listed(keys: set<Key>, limit: nat): seq<Key> {
    assert Total(KeyOrder());
    Prefix(KeyOrder(), keys, limit)
  }

  function Count(m: map<string, int>, k: string): int {
    if k in m then m[k] else 0
  }

  function AtLeastZero(n: int): int {
    if n < 0 then 0 else n
  }

  // ---- Quota -------------------------------------------------------------------------------

  /** Whether `previous` still holds a quota slot that a terminal write must give back. */
  predicate HoldsQuota(previous: Task) {
    previous.mail.Some? && !previous.mail.value.released
  }

  function Charge(t: Task): nat {
    if t.mail.Some? then t.mail.value.bytes else 0
  }

  function ReleaseQuota(s: Store, previous: Task, next: Task): Store {
    if !HoldsQuota(previous) then s
    else
      var agent := previous.mail.value.agent;
      s.(outstanding := AtLeastZero(s.outstanding - 1),
         perCaller := s.perCaller[agent := AtLeastZero(Count(s.perCaller, agent) - 1)],
         bytes := AtLeastZero(s.bytes - Charge(previous) + Charge(next)))
  }

  function MarkReleased(previous: Task, next: Task): Task {
    if HoldsQuota(previous) && next.mail.Some? then next.(mail := Some(next.mail.value.(released := true)))
    else next
  }

  // ---- Records -----------------------------------------------------------------------------

  /** Writes a record and re-keys it in the due index. */
  function PutTask(s: Store, id: CallId, t: Task): Store {
    var stale := if id in s.tasks then {DueKey(id, s.tasks[id])} else {};
    s.(tasks := s.tasks[id := t], due := s.due - stale + {DueKey(id, t)})
  }

  function Emit(s: Store, i: Intent): Store {
    s.(outbox := s.outbox + {i})
  }

  /** A durable record once nothing more can happen to it: ciphertext and lease are gone. */
  function Close(t: Task, state: TaskState, reason: Reason, deadline: int, bytes: nat, now: int): Task
    requires t.mail.Some?
  {
    t.(state := state, updatedAt := now, deadline := deadline,
       mail := Some(t.mail.value.(
         request := None, lease := None, delivery := Closed, reason := Some(reason), bytes := bytes)))
  }

  /** One terminal write: quota, record and due key together. */
  function Settle(s: Store, id: CallId, t: Task): Store
    requires id in s.tasks
  {
    PutTask(ReleaseQuota(s, s.tasks[id], t), id, MarkReleased(s.tasks[id], t))
  }

  /** Takes a call out of the queue and, if it is the active one, off the active pointer. */
  function Detach(s: Store, id: CallId, t: Task): Store {
    s.(queue := s.queue - {QueueKey(id, t)}, active := if s.active == Some(id) then None else s.active)
  }

  // ---- Transactions ------------------------------------------------------------------------

  datatype Admission = Admitted | Existing(task: Task) | AtCapacity | Conflict

  function NewMail(agent: string, message: string, envelope: Envelope, executeBy: int): Mail {
    Mail(agent, message, envelope, Some(envelope), Queued, None, executeBy, executeBy + TOMBSTONE_TTL,
         None, |envelope|, false)
  }

  function NewDurable(
    from: string, agent: string, message: string, envelope: Envelope, now: int, timeout: Option<int>): Task
  {
    var ttl := if timeout.Some? && timeout.value < MAILBOX_TTL then timeout.value else MAILBOX_TTL;
    Task(from, now, now, now + ttl, Submitted, IsSubmitted, None, Some(NewMail(agent, message, envelope, now + ttl)))
  }

  function NewSync(from: string, now: int, deadline: int): Task {
    Task(from, now, now, deadline, Submitted, IsSubmitted, None, None)
  }

  predicate OverCapacity(s: Store, m: Mail) {
    || s.outstanding >= MAX_QUEUED_TASKS
    || Count(s.perCaller, m.agent) >= MAX_OUTSTANDING_PER_CALLER
    || s.bytes + m.bytes > MAX_STORED_BYTES
  }

  function AdmissionOf(s: Store, m: Mail): Admission {
    if DedupeKeyOf(m) in s.dedupe then
      var d := s.dedupe[DedupeKeyOf(m)];
      if d.digest != m.digest then Conflict
      else if d.call in s.tasks then Existing(s.tasks[d.call])
      else Conflict
    else if OverCapacity(s, m) then AtCapacity
    else Admitted
  }

  function Admit(s: Store, id: CallId, t: Task): Store
    requires t.mail.Some?
  {
    var m := t.mail.value;
    if AdmissionOf(s, m) != Admitted then s
    else
      Emit(s.(
             tasks := s.tasks[id := t], due := s.due + {DueKey(id, t)},
             dedupe := s.dedupe[DedupeKeyOf(m) := Dedupe(id, m.digest)],
             queue := s.queue + {QueueKey(id, t)},
             outstanding := s.outstanding + 1,
             perCaller := s.perCaller[m.agent := Count(s.perCaller, m.agent) + 1],
             bytes := s.bytes + m.bytes),
           Intent(t.createdAt, CallSubmit, id))
  }

  function StartSync(s: Store, id: CallId, t: Task): Store {
    Emit(PutTask(s, id, t), Intent(t.createdAt, CallSubmit, id))
  }

  predicate Cancelable(t: Task) {
    !Terminal(t) && (IsDelivery(t, Queued) || IsDelivery(t, Leased))
  }

  function Cancel(s: Store, id: CallId, caller: string, now: int): Store {
    if caller == "" || id !in s.tasks || s.tasks[id].from != caller || !Cancelable(s.tasks[id]) then s
    else
      var t := s.tasks[id];
      Emit(Detach(Settle(s, id, Close(t, IsCanceled, ReasonCanceled, t.mail.value.purgeAt, 0, now)), id, t),
           Intent(now, CallCancel, id))
  }

  /** `seen` is the record as it was read before the authority check went to the database. */
  function Revoke(s: Store, id: CallId, seen: Task, now: int): Store
    requires seen.mail.Some?
  {
    if id !in s.tasks || Terminal(s.tasks[id]) || !IsDelivery(s.tasks[id], Queued) then s
    else
      var t := s.tasks[id];
      var settled := Settle(s, id, Close(seen, IsRejected, ReasonRevoked, seen.mail.value.purgeAt, 0, now));
      Emit(settled.(queue := s.queue - {QueueKey(id, t)}), Intent(now, CallFail, id))
  }

  predicate Rebindable(s: Store) {
    && s.active.Some? && s.active.value in s.tasks
    && var t := s.tasks[s.active.value];
    && IsDelivery(t, Started) && t.mail.value.request.Some? && !Terminal(t)
  }

  function Rebind(s: Store, lease: nat, session: nat, now: int): Store {
    if !Rebindable(s) then s
    else
      var t := s.tasks[s.active.value];
      var attempt := if t.mail.value.lease.Some? then t.mail.value.lease.value.attempt else 1;
      s.(tasks := s.tasks[s.active.value := t.(
           updatedAt := now, mail := Some(t.mail.value.(lease := Some(Lease(lease, session, t.deadline, attempt)))))])
  }

  function LeasedRecord(t: Task, lease: nat, session: nat, leaseMs: int, now: int): Task
    requires t.mail.Some?
  {
    var previous := if t.mail.value.lease.Some? then t.mail.value.lease.value.attempt else 0;
    t.(updatedAt := now,
       mail := Some(t.mail.value.(delivery := Leased, lease := Some(Lease(lease, session, now + leaseMs, previous + 1)))))
  }

  /** The leasing half of a dispatch: the head of the queue is leased, or dropped if it is stale. */
  ghost function LeaseHead(s: Store, lease: nat, session: nat, leaseMs: int, now: int): Store {
    if s.active.Some? || s.queue == {} then s
    else
      var head := First(s.queue);
      var id := head.call;
      if id !in s.tasks || Terminal(s.tasks[id]) || !IsDelivery(s.tasks[id], Queued)
      then s.(queue := s.queue - {head})
      else s.(tasks := s.tasks[id := LeasedRecord(s.tasks[id], lease, session, leaseMs, now)], active := Some(id))
  }

  /** The continuation after a terminal frame was persisted. */
  function Finish(s: Store, id: CallId, t: Task): Store {
    if t.mail.None? then s else Detach(s, id, t)
  }

  predicate LeaseLapsed(s: Store, id: CallId, now: int) {
    && id in s.tasks
    && var t := s.tasks[id];
    && IsDelivery(t, Leased) && t.mail.value.lease.Some? && t.mail.value.lease.value.expiresAt <= now && !Terminal(t)
  }

  function RecoverLease(s: Store, id: CallId, now: int): Store {
    if !LeaseLapsed(s, id, now) then s
    else
      var t := s.tasks[id];
      var m := t.mail.value;
      if m.lease.value.attempt < MAX_LEASE_ATTEMPTS then
        s.(tasks := s.tasks[id := t.(updatedAt := now, mail := Some(m.(delivery := Queued)))],
           active := if s.active == Some(id) then None else s.active)
      else
        Emit(Detach(Settle(s, id, Close(t, IsFailed, ReasonDeliveryFailed, m.purgeAt, 0, now)), id, t),
             Intent(now, CallFail, id))
  }

  function Retained(t: Task): Task
    requires t.mail.Some?
  {
    var m := t.mail.value;
    if t.outcome.Some? then t.(deadline := m.purgeAt, outcome := None, mail := Some(m.(bytes := 0)))
    else t.(deadline := m.purgeAt)
  }

  predicate Overdue(s: Store, id: CallId, now: int) {
    id in s.tasks && s.tasks[id].deadline <= now
  }

  /** Removes a record together with every row that mentions it. */
  function Purge(s: Store, id: CallId): Store
    requires id in s.tasks && s.tasks[id].mail.Some?
  {
    var t := s.tasks[id];
    var m := t.mail.value;
    Detach(s, id, t).(
      tasks := s.tasks - {id}, due := s.due - {DueKey(id, t)}, dedupe := s.dedupe - {DedupeKeyOf(m)},
      bytes := if m.released && m.bytes > 0 then AtLeastZero(s.bytes - m.bytes) else s.bytes)
  }

  function ExpireTask(s: Store, id: CallId, now: int): Store {
    if !Overdue(s, id, now) then s
    else
      var t := s.tasks[id];
      if t.mail.Some? then
        var m := t.mail.value;
        if Terminal(t) then
          if m.purgeAt > now then
            PutTask(s, id, Retained(t)).(bytes := if t.outcome.Some? then AtLeastZero(s.bytes - m.bytes) else s.bytes)
          else Purge(s, id)
        else
          var reason := if m.delivery == Started then ReasonFailed else ReasonExpired;
          Emit(Detach(Settle(s, id, Close(t, IsFailed, reason, m.purgeAt, 0, now)), id, t),
               Intent(now, CallTimeout, id))
      else
        var gone := s.(tasks := s.tasks - {id}, due := s.due - {DueKey(id, t)});
        if Terminal(t) then gone else Emit(gone, Intent(now, CallTimeout, id))
  }

  /** One row of the alarm's listing: the call is expired, or a row that is not due goes away. */
  function Visit(s: Store, k: Key, now: int): Store {
    if Overdue(s, k.call, now) then ExpireTask(s, k.call, now) else s.(due := s.due - {k})
  }

  /** The alarm walks a listing taken beforehand and stops at the first row that lies in the future. */
  function ExpireListed(s: Store, listing: seq<Key>, now: int): Store
    decreases |listing|
  {
    if listing == [] || listing[0].at > now then s
    else ExpireListed(Visit(s, listing[0], now), listing[1..], now)
  }

  ghost function Alarm(s: Store, now: int): Store {
    var recovered := if s.active.Some? then RecoverLease(s, s.active.value, now) else s;
    ExpireListed(recovered, Listed(recovered.due, DRAIN_LIMIT), now)
  }

  // ---- Listener frames ---------------------------------------------------------------------

  datatype Frame =
    | AcceptedFrame
    | StartedFrame(timeout: int)
    | CancelledFrame
    | RejectedFrame
    | OutcomeFrame(completed: bool, reason: Option<Reason>, envelope: Envelope)

  predicate ValidLease(t: Task, lease: Option<nat>, session: Option<nat>) {
    t.mail.None? ||
    (t.mail.value.lease.Some? && lease == Some(t.mail.value.lease.value.id) &&
     session == Some(t.mail.value.lease.value.session))
  }

  function Smaller(a: int, b: int): int {
    if a < b then a else b
  }

  function Moved(t: Task, phase: Phase, timeout: int, now: int): Task {
    var moved := t.(phase := phase, updatedAt := now, state := if phase == Working then IsWorking else t.state);
    if phase == Working && t.mail.Some? then
      moved.(deadline := Smaller(t.mail.value.executeBy, now + timeout), mail := Some(t.mail.value.(delivery := Started)))
    else moved
  }

  /** A moved record gets its due row anew when its deadline moved, or when its acceptance is recorded. */
  predicate Rekeys(id: CallId, t: Task, next: Task) {
    if next.phase == Working && t.mail.Some? then DueKey(id, t) != DueKey(id, next) else t.phase == Submitted
  }

  function AdvanceCall(s: Store, id: CallId, phase: Phase, timeout: int, now: int): Store
    requires id in s.tasks
  {
    var t := s.tasks[id];
    if Advance(Call(t.phase, t.deadline, None), phase).phase == t.phase then s
    else
      var next := Moved(t, phase, timeout, now);
      var moved := if Rekeys(id, t, next) then PutTask(s, id, next) else s.(tasks := s.tasks[id := next]);
      if t.phase == Submitted then Emit(moved, Intent(now, CallAccept, id)) else moved
  }

  function Ended(t: Task, frame: Frame, now: int): Task
    requires !frame.AcceptedFrame? && !frame.StartedFrame?
  {
    match frame
    case CancelledFrame =>
      if t.mail.Some? then Close(t, IsCanceled, ReasonCanceled, t.mail.value.purgeAt, 0, now)
      else t.(state := IsCanceled, updatedAt := now)
    case RejectedFrame =>
      if t.mail.Some? then Close(t, IsFailed, ReasonDeliveryFailed, t.mail.value.purgeAt, 0, now)
      else t.(state := IsFailed, updatedAt := now)
    case OutcomeFrame(completed, reason, envelope) =>
      var state := if completed then IsCompleted else IsFailed;
      var given := if reason.Some? then reason.value else if completed then ReasonCompleted else ReasonFailed;
      var told := t.(outcome := Some(envelope));
      if t.mail.Some? then Close(told, state, given, t.mail.value.executeBy, |envelope|, now)
      else told.(state := state, updatedAt := now)
  }

  function EndingEvent(frame: Frame): Event
    requires !frame.AcceptedFrame? && !frame.StartedFrame?
  {
    match frame
    case CancelledFrame => CallCancel
    case RejectedFrame => CallFail
    case OutcomeFrame(completed, _, _) => if completed then CallComplete else CallFail
  }

  predicate FrameApplies(s: Store, id: CallId, lease: Option<nat>, session: Option<nat>) {
    id in s.tasks && !Terminal(s.tasks[id]) && ValidLease(s.tasks[id], lease, session)
  }

  /** A frame from the listener, up to the point where its audit record is flushed. */
  function OnFrame(s: Store, id: CallId, frame: Frame, lease: Option<nat>, session: Option<nat>, now: int): Store {
    if !FrameApplies(s, id, lease, session) then s
    else
      match frame
      case AcceptedFrame => AdvanceCall(s, id, Accepted, 0, now)
      case StartedFrame(timeout) => AdvanceCall(s, id, Working, timeout, now)
      case _ => Emit(Settle(s, id, Ended(s.tasks[id], frame, now)), Intent(now, EndingEvent(frame), id))
  }
}
