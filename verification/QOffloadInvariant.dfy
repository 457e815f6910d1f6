/** What every step of the transition system keeps, while no id has been issued twice. */
module QOffloadInvariant {
  import opened Ids
  import opened Messages
  import opened Tasks
  import opened Forwarding
  import opened ControlProtocol
  import opened Control
  import opened QOffload

  /** Ids repeat after 2^60 numberings. */
  predicate Fresh(s: State) {
    |s.h.issued| <= TWO_60
  }

  /** The id for each value of the counter. The invariant takes it as a parameter. */
  type Numbering = nat -> uint64

  function IdAt(c: Setup, index: nat): uint64 {
    TaskId(ToUint64(index), c.uid)
  }

  function IdsOf(c: Setup): Numbering {
    (index: nat) => IdAt(c, index)
  }

  type Owner = map<uint64, Registration>
  type Correlated = map<uint64, Answer>

  // ---------- numbers ----------

  predicate Holds(direct: DirectWorker, control: ControlWorker, index: nat) {
    || (direct.DirectNumbered? && direct.index == index)
    || (control.ControlNumbered? && control.index == index)
  }

  predicate HeldNumbers(id: Numbering, issued: seq<Issue>, direct: DirectWorker, control: ControlWorker) {
    && (direct.DirectNumbered? ==>
          && direct.index < |issued|
          && issued[direct.index] == DirectIssue(direct.request)
          && direct.id == id(direct.index))
    && (control.ControlNumbered? ==>
          && control.index < |issued|
          && issued[control.index] == ControlIssue(control.task)
          && control.id == id(control.index))
  }

  predicate OwnsNumber(id: Numbering, issued: seq<Issue>, k: uint64, registration: Registration) {
    && registration.index < |issued|
    && issued[registration.index] == registration.issue
    && id(registration.index) == k
  }

  /** Every number is either still held by its worker or registered under its id. */
  ghost predicate Numbers(id: Numbering, issued: seq<Issue>, owner: Owner, direct: DirectWorker,
                          control: ControlWorker) {
    && HeldNumbers(id, issued, direct, control)
    && (forall k <- owner :: OwnsNumber(id, issued, k, owner[k]) && !Holds(direct, control, owner[k].index))
    && (forall i: nat :: i < |issued| && !Holds(direct, control, i) ==> id(i) in owner)
  }

  // ---------- registrations ----------

  /** The entry that registration writes. */
  function EntryFor(issue: Issue, id: uint64): PendingTask {
    match issue
    case DirectIssue(request) => DirectEntry(request, id)
    case ControlIssue(_) => ControlEntry(id)
  }

  /** Every registered id is pending with its own entry or correlated, never both. */
  ghost predicate Registered(owner: Owner, correlated: Correlated, pending: map<uint64, PendingTask>) {
    && (forall k <- pending :: k in owner && k !in correlated && pending[k] == EntryFor(owner[k].issue, k))
    && (forall k <- correlated :: k in owner)
    && (forall k <- owner :: k in pending || k in correlated)
  }

  // ---------- traffic ----------

  /** The task that QRM gets for a number, which is registered by then. */
  predicate IsOutbound(id: Numbering, config: Config, owner: Owner, index: nat, task: QuantumTask) {
    && id(index) in owner
    && owner[id(index)].index == index
    && task == ForwardedTask(owner[id(index)].issue.task, id(index), config)
  }

  ghost predicate Outbounds(id: Numbering, config: Config, owner: Owner, outbound: map<nat, QuantumTask>,
                            direct: DirectWorker, control: ControlWorker) {
    && (direct.DirectRegistered? ==> IsOutbound(id, config, owner, direct.index, direct.task))
    && (control.ControlRegistered? ==> IsOutbound(id, config, owner, control.index, control.task))
    && (forall i <- outbound :: IsOutbound(id, config, owner, i, outbound[i]))
  }

  predicate Answers(outbound: map<nat, QuantumTask>, answer: Answer)
    requires answer.Answer?
  {
    answer.origin in outbound && answer.result.taskId == outbound[answer.origin].taskId
  }

  /** A handout that came back is the same handout, sent to the result queue. */
  predicate Echoes(queue: string, handed: seq<Handout>, answer: Answer)
    requires answer.Echo?
  {
    && answer.handout < |handed|
    && handed[answer.handout].destination == queue != ""
    && handed[answer.handout].accepted
    && handed[answer.handout].result == answer.result
  }

  /** Whatever comes back answers something that was sent, or was handed out to the result queue. */
  predicate Traced(outbound: map<nat, QuantumTask>, queue: string, handed: seq<Handout>, answer: Answer) {
    if answer.Answer? then Answers(outbound, answer) else Echoes(queue, handed, answer)
  }

  ghost predicate Returning(outbound: map<nat, QuantumTask>, queue: string, handed: seq<Handout>,
                            results: seq<Answer>, result: ResultWorker) {
    && (forall n :: 0 <= n < |results| ==> Traced(outbound, queue, handed, results[n]))
    && (result.ResultReceived? ==> Traced(outbound, queue, handed, result.answer))
  }

  /** The result that took an entry came back under its id, and is no echo of what that id was handed out. */
  predicate Matches(outbound: map<nat, QuantumTask>, queue: string, handed: seq<Handout>, k: uint64, answer: Answer) {
    && Traced(outbound, queue, handed, answer)
    && ToUint64(answer.result.taskId) == k
    && (answer.Echo? ==> handed[answer.handout].key != k)
  }

  ghost predicate Matched(outbound: map<nat, QuantumTask>, queue: string, handed: seq<Handout>,
                          correlated: Correlated) {
    forall k <- correlated {:trigger Matches(outbound, queue, handed, k, correlated[k])} ::
      Matches(outbound, queue, handed, k, correlated[k])
  }

  /** An answer of QRM finds nothing only when its id did not survive the wire or its entry was taken before. */
  ghost predicate Unknowns(id: Numbering, outbound: map<nat, QuantumTask>, queue: string, handed: seq<Handout>,
                           correlated: Correlated, unknown: seq<Answer>) {
    forall n :: 0 <= n < |unknown| ==>
      && Traced(outbound, queue, handed, unknown[n])
      && (unknown[n].Answer? && InRange(id(unknown[n].origin)) ==> id(unknown[n].origin) in correlated)
  }

  ghost predicate Traffic(id: Numbering, outbound: map<nat, QuantumTask>, queue: string, handed: seq<Handout>,
                          correlated: Correlated, unknown: seq<Answer>) {
    && Matched(outbound, queue, handed, correlated)
    && Unknowns(id, outbound, queue, handed, correlated, unknown)
  }

  // ---------- contents ----------

  /** A client gets its correlated result under its own id, at its own destination. */
  predicate Delivers(owner: Owner, correlated: Correlated, k: uint64, destination: string, result: QuantumResult) {
    && k in owner && k in correlated
    && owner[k].issue.DirectIssue?
    && destination == owner[k].issue.task.resultDestination
    && result == correlated[k].result.(taskId := owner[k].issue.task.taskId,
                                       destination := owner[k].issue.task.resultDestination)
  }

  predicate Keeps(owner: Owner, correlated: Correlated, k: uint64, task: CompletedControlTask) {
    && k in owner && k in correlated
    && owner[k].issue.ControlIssue?
    && task == CompletedFrom(correlated[k].result, ControlEntry(k))
  }

  predicate Transferred(owner: Owner, correlated: Correlated, result: ResultWorker) {
    && (result.ResultStoring? ==> Keeps(owner, correlated, result.key, result.completed))
    && (result.ResultSending? ==> Delivers(owner, correlated, result.key, result.destination, result.result))
  }

  ghost predicate Stored(owner: Owner, correlated: Correlated, completed: map<uint64, CompletedControlTask>) {
    forall k <- completed :: Keeps(owner, correlated, k, completed[k])
  }

  ghost predicate Fetched(owner: Owner, correlated: Correlated, fetched: seq<Fetch>) {
    forall n :: 0 <= n < |fetched| ==> Keeps(owner, correlated, fetched[n].key, fetched[n].task)
  }

  ghost predicate Handed(owner: Owner, correlated: Correlated, handed: seq<Handout>) {
    forall n :: 0 <= n < |handed| ==>
      Delivers(owner, correlated, handed[n].key, handed[n].destination, handed[n].result)
  }

  ghost predicate Contents(owner: Owner, correlated: Correlated, result: ResultWorker,
                           completed: map<uint64, CompletedControlTask>, fetched: seq<Fetch>, handed: seq<Handout>) {
    && Transferred(owner, correlated, result)
    && Stored(owner, correlated, completed)
    && Fetched(owner, correlated, fetched)
    && Handed(owner, correlated, handed)
  }

  // ---------- places ----------

  predicate InTransfer(result: ResultWorker, k: uint64) {
    (result.ResultStoring? || result.ResultSending?) && result.key == k
  }

  ghost predicate WasHanded(handed: seq<Handout>, k: uint64) {
    exists n :: 0 <= n < |handed| && handed[n].key == k
  }

  ghost predicate WasFetched(fetched: seq<Fetch>, k: uint64) {
    exists n :: 0 <= n < |fetched| && fetched[n].key == k
  }

  /** A correlated id is in exactly one place. */
  ghost predicate Places(correlated: Correlated, result: ResultWorker, completed: map<uint64, CompletedControlTask>,
                         fetched: seq<Fetch>, handed: seq<Handout>) {
    && (forall k <- correlated ::
          InTransfer(result, k) || k in completed || WasFetched(fetched, k) || WasHanded(handed, k))
    && (forall k: uint64 :: InTransfer(result, k) ==>
          k !in completed && !WasFetched(fetched, k) && !WasHanded(handed, k))
    && (forall k <- completed :: !WasFetched(fetched, k))
  }

  predicate FetchedOnce(fetched: seq<Fetch>) {
    forall m, n :: 0 <= m < n < |fetched| ==> fetched[m].key != fetched[n].key
  }

  predicate HandedOnce(handed: seq<Handout>) {
    forall m, n :: 0 <= m < n < |handed| ==> handed[m].key != handed[n].key
  }

  /** Between check and take only this worker removes completed entries. */
  predicate Checks(control: ControlWorker, completed: map<uint64, CompletedControlTask>) {
    control.ControlChecked? ==>
      && Fetches(control.command)
      && control.seen != Waiting
      && (control.seen != NotFound ==> control.command.taskId in completed)
  }

  function TransferCount(result: ResultWorker): nat {
    if result.ResultStoring? || result.ResultSending? then 1 else 0
  }

  ghost predicate InvFor(id: Numbering, config: Config, s: State) {
    && Numbers(id, s.h.issued, s.h.owner, s.direct, s.control)
    && Registered(s.h.owner, s.h.correlated, s.store.pending)
    && Outbounds(id, config, s.h.owner, s.h.outbound, s.direct, s.control)
    && Returning(s.h.outbound, config.resultQueue, s.h.handed, s.results, s.result)
    && Traffic(id, s.h.outbound, config.resultQueue, s.h.handed, s.h.correlated, s.h.unknown)
    && Contents(s.h.owner, s.h.correlated, s.result, s.store.completed, s.h.fetched, s.h.handed)
    && Places(s.h.correlated, s.result, s.store.completed, s.h.fetched, s.h.handed)
    && FetchedOnce(s.h.fetched) && HandedOnce(s.h.handed)
    && Checks(s.control, s.store.completed)
  }

  ghost predicate Inv(c: Setup, s: State) {
    && s.nextIndex == ToUint64(|s.h.issued|)
    && InvFor(IdsOf(c), c.config, s)
  }

  // ---------- preservation, one kind of effect at a time ----------

  predicate DirectMoves(before: DirectWorker, after: DirectWorker) {
    || before == after
    || (!before.DirectNumbered? && !after.DirectNumbered? && !after.DirectRegistered?)
  }

  predicate ControlMoves(before: ControlWorker, after: ControlWorker) {
    || before == after
    || (!before.ControlNumbered? && !after.ControlNumbered? && !after.ControlRegistered?)
  }

  lemma NumbersAfterMove(id: Numbering, issued: seq<Issue>, owner: Owner, d: DirectWorker, k: ControlWorker,
                         d': DirectWorker, k': ControlWorker)
    requires Numbers(id, issued, owner, d, k) && DirectMoves(d, d') && ControlMoves(k, k')
    ensures Numbers(id, issued, owner, d', k')
  {
    assert forall i: nat :: Holds(d', k', i) == Holds(d, k, i);
  }

  lemma OutboundsAfterMove(id: Numbering, config: Config, owner: Owner, outbound: map<nat, QuantumTask>,
                           d: DirectWorker, k: ControlWorker, d': DirectWorker, k': ControlWorker)
    requires Outbounds(id, config, owner, outbound, d, k)
    requires !d'.DirectRegistered? || d' == d
    requires !k'.ControlRegistered? || k' == k
    ensures Outbounds(id, config, owner, outbound, d', k')
  {
  }

  lemma ReturningAfterMove(outbound: map<nat, QuantumTask>, queue: string, handed: seq<Handout>,
                           results: seq<Answer>, r: ResultWorker, r': ResultWorker)
    requires Returning(outbound, queue, handed, results, r) && !r'.ResultReceived?
    ensures Returning(outbound, queue, handed, results, r')
  {
  }

  /** Submissions, receives, replies, status checks and plain answers. */
  lemma MoveKeeps(id: Numbering, config: Config, s: State, t: State)
    requires InvFor(id, config, s)
    requires t.h.(replies := s.h.replies) == s.h && t.store == s.store
    requires t.results == s.results && t.result == s.result
    requires DirectMoves(s.direct, t.direct) && ControlMoves(s.control, t.control)
    requires Checks(t.control, t.store.completed)
    ensures InvFor(id, config, t)
  {
    OutboundsAfterMove(id, config, s.h.owner, s.h.outbound, s.direct, s.control, t.direct, t.control);
    NumbersAfterMove(id, s.h.issued, s.h.owner, s.direct, s.control, t.direct, t.control);
  }

  lemma PlacesAfterMove(correlated: Correlated, r: ResultWorker, completed: map<uint64, CompletedControlTask>,
                        fetched: seq<Fetch>, handed: seq<Handout>, r': ResultWorker)
    requires Places(correlated, r, completed, fetched, handed)
    requires TransferCount(r) == 0 && TransferCount(r') == 0
    ensures Places(correlated, r', completed, fetched, handed)
  {
    assert forall k: uint64 :: !InTransfer(r, k) && !InTransfer(r', k);
  }

  lemma ContentsAfterMove(owner: Owner, correlated: Correlated, r: ResultWorker,
                          completed: map<uint64, CompletedControlTask>, fetched: seq<Fetch>, handed: seq<Handout>,
                          r': ResultWorker)
    requires Contents(owner, correlated, r, completed, fetched, handed) && TransferCount(r') == 0
    ensures Contents(owner, correlated, r', completed, fetched, handed)
  {
  }

  /** QRM answers. */
  lemma AnswerKeeps(id: Numbering, config: Config, s: State, results: seq<Answer>)
    requires InvFor(id, config, s) && Returning(s.h.outbound, config.resultQueue, s.h.handed, results, s.result)
    ensures InvFor(id, config, s.(results := results))
  {
  }

  /** The result worker receives. */
  lemma ReceiveKeeps(id: Numbering, config: Config, s: State, t: State)
    requires InvFor(id, config, s)
    requires Returning(s.h.outbound, config.resultQueue, s.h.handed, t.results, t.result)
    requires t.h == s.h && t.store == s.store && t.direct == s.direct && t.control == s.control
    requires TransferCount(s.result) == 0 && TransferCount(t.result) == 0
    ensures InvFor(id, config, t)
  {
    ContentsAfterMove(s.h.owner, s.h.correlated, s.result, s.store.completed, s.h.fetched, s.h.handed, t.result);
    PlacesAfterMove(s.h.correlated, s.result, s.store.completed, s.h.fetched, s.h.handed, t.result);
  }

  lemma NumbersAfterNumber(id: Numbering, issued: seq<Issue>, owner: Owner, d: DirectWorker, k: ControlWorker,
                           d': DirectWorker, k': ControlWorker, issue: Issue)
    requires Numbers(id, issued, owner, d, k)
    requires || (k' == k && !d.DirectNumbered? && issue.DirectIssue? &&
                 d' == DirectNumbered(|issued|, id(|issued|), issue.task))
             || (d' == d && !k.ControlNumbered? && k'.ControlNumbered? && issue.ControlIssue? &&
                 k'.index == |issued| && k'.id == id(|issued|) && k'.task == issue.task)
    ensures Numbers(id, issued + [issue], owner, d', k')
  {
    forall i: nat | i < |issued| + 1 && !Holds(d', k', i) ensures id(i) in owner {
      assert i != |issued| && !Holds(d, k, i);
    }
  }

  lemma IdsDistinct(c: Setup, i: nat, j: nat)
    requires i < TWO_60 && j < TWO_60
    ensures IdAt(c, i) == IdAt(c, j) <==> i == j
  {
    assert ToUint64(i) == i && ToUint64(j) == j;
    SameIdIff(i, j, c.uid);
  }

  lemma CounterWraps(n: nat)
    ensures ToUint64(ToUint64(n) + 1) == ToUint64(n + 1)
  {
  }

  lemma NumberKeeps(id: Numbering, config: Config, s: State, t: State, issue: Issue)
    requires InvFor(id, config, s)
    requires t.h == s.h.(issued := s.h.issued + [issue])
    requires t.store == s.store && t.results == s.results && t.result == s.result
    requires Numbers(id, t.h.issued, t.h.owner, t.direct, t.control)
    requires !t.direct.DirectRegistered? || t.direct == s.direct
    requires !t.control.ControlRegistered? || t.control == s.control
    requires !t.control.ControlChecked? || t.control == s.control
    ensures InvFor(id, config, t)
  {
    OutboundsAfterMove(id, config, s.h.owner, s.h.outbound, s.direct, s.control, t.direct, t.control);
  }

  /** A number that is still held has an id that no one has registered. */
  lemma HeldIsFresh(id: Numbering, issued: seq<Issue>, owner: Owner, d: DirectWorker, k: ControlWorker, index: nat)
    requires Numbers(id, issued, owner, d, k) && Holds(d, k, index)
    requires forall j: nat :: j < |issued| && id(j) == id(index) ==> j == index
    ensures index < |issued| && id(index) !in owner
  {
  }

  lemma NumbersAfterRegister(id: Numbering, issued: seq<Issue>, owner: Owner, d: DirectWorker, k: ControlWorker,
                             d': DirectWorker, k': ControlWorker, index: nat)
    requires Numbers(id, issued, owner, d, k) && Holds(d, k, index) && index < |issued|
    requires forall j: nat :: j < |issued| && id(j) == id(index) ==> j == index
    requires forall i: nat :: Holds(d', k', i) <==> Holds(d, k, i) && i != index
    requires HeldNumbers(id, issued, d', k')
    ensures id(index) !in owner
    ensures Numbers(id, issued, owner[id(index) := Registration(index, issued[index])], d', k')
  {
  }

  lemma RegisteredAfterRegister(owner: Owner, correlated: Correlated, pending: map<uint64, PendingTask>, k: uint64,
                                registration: Registration)
    requires Registered(owner, correlated, pending) && k !in owner
    ensures k !in pending
    ensures Registered(owner[k := registration], correlated, pending[k := EntryFor(registration.issue, k)])
  {
  }

  lemma OutboundsAfterRegister(id: Numbering, config: Config, owner: Owner, outbound: map<nat, QuantumTask>,
                               d: DirectWorker, k: ControlWorker, d': DirectWorker, k': ControlWorker, id': uint64,
                               registration: Registration)
    requires Outbounds(id, config, owner, outbound, d, k) && id' !in owner
    requires var owner' := owner[id' := registration];
             && (d'.DirectRegistered? ==> d' == d || IsOutbound(id, config, owner', d'.index, d'.task))
             && (k'.ControlRegistered? ==> k' == k || IsOutbound(id, config, owner', k'.index, k'.task))
    ensures Outbounds(id, config, owner[id' := registration], outbound, d', k')
  {
  }

  lemma ContentsAfterRegister(owner: Owner, correlated: Correlated, result: ResultWorker,
                              completed: map<uint64, CompletedControlTask>, fetched: seq<Fetch>, handed: seq<Handout>,
                              id': uint64, registration: Registration)
    requires Contents(owner, correlated, result, completed, fetched, handed) && id' !in owner
    ensures Contents(owner[id' := registration], correlated, result, completed, fetched, handed)
  {
  }

  lemma RegisterKeeps(id: Numbering, config: Config, s: State, t: State, index: nat)
    requires InvFor(id, config, s) && index < |s.h.issued| && Holds(s.direct, s.control, index)
    requires id(index) !in s.h.owner
    requires var registration := Registration(index, s.h.issued[index]);
             && t.h == s.h.(owner := s.h.owner[id(index) := registration], created := t.h.created)
             && t.store == s.store.AddPending(EntryFor(registration.issue, id(index)))
    requires t.results == s.results && t.result == s.result
    requires Numbers(id, t.h.issued, t.h.owner, t.direct, t.control)
    requires t.direct.DirectRegistered? ==>
               t.direct == s.direct || IsOutbound(id, config, t.h.owner, t.direct.index, t.direct.task)
    requires t.control.ControlRegistered? ==>
               t.control == s.control || IsOutbound(id, config, t.h.owner, t.control.index, t.control.task)
    requires !t.control.ControlChecked? || t.control == s.control
    ensures InvFor(id, config, t)
  {
    var registration := Registration(index, s.h.issued[index]);
    RegisteredAfterRegister(s.h.owner, s.h.correlated, s.store.pending, id(index), registration);
    OutboundsAfterRegister(id, config, s.h.owner, s.h.outbound, s.direct, s.control, t.direct, t.control, id(index),
                           registration);
    ContentsAfterRegister(s.h.owner, s.h.correlated, s.result, s.store.completed, s.h.fetched, s.h.handed, id(index),
                          registration);
  }

  /** Traces outlive more tasks at QRM and more handouts. */
  lemma MatchedStays(outbound: map<nat, QuantumTask>, queue: string, handed: seq<Handout>, correlated: Correlated,
                     outbound': map<nat, QuantumTask>, handed': seq<Handout>)
    requires Matched(outbound, queue, handed, correlated)
    requires forall i <- outbound :: i in outbound' && outbound'[i] == outbound[i]
    requires handed <= handed'
    ensures Matched(outbound', queue, handed', correlated)
  {
    forall k <- correlated ensures Matches(outbound', queue, handed', k, correlated[k]) {
      assert Matches(outbound, queue, handed, k, correlated[k]);
    }
  }

  lemma TrafficAfterSend(id: Numbering, config: Config, owner: Owner, outbound: map<nat, QuantumTask>,
                         index: nat, task: QuantumTask, handed: seq<Handout>, results: seq<Answer>,
                         result: ResultWorker, correlated: Correlated, unknown: seq<Answer>)
    requires forall i <- outbound :: IsOutbound(id, config, owner, i, outbound[i])
    requires IsOutbound(id, config, owner, index, task)
    requires Returning(outbound, config.resultQueue, handed, results, result)
    requires Traffic(id, outbound, config.resultQueue, handed, correlated, unknown)
    ensures Returning(outbound[index := task], config.resultQueue, handed, results, result)
    ensures Traffic(id, outbound[index := task], config.resultQueue, handed, correlated, unknown)
  {
    assert index in outbound ==> outbound[index := task] == outbound;
    MatchedStays(outbound, config.resultQueue, handed, correlated, outbound[index := task], handed);
  }

  lemma OutboundsAfterSend(id: Numbering, config: Config, owner: Owner, outbound: map<nat, QuantumTask>,
                           d: DirectWorker, k: ControlWorker, index: nat, task: QuantumTask)
    requires Outbounds(id, config, owner, outbound, d, k) && IsOutbound(id, config, owner, index, task)
    ensures Outbounds(id, config, owner, outbound[index := task], d, k)
  {
  }

  lemma SendKeeps(id: Numbering, config: Config, s: State, t: State, index: nat, task: QuantumTask)
    requires InvFor(id, config, s)
    requires t.h == s.h.(outbound := s.h.outbound[index := task])
    requires t.store == s.store && t.results == s.results && t.result == s.result
    requires DirectMoves(s.direct, t.direct) && ControlMoves(s.control, t.control)
    requires !t.control.ControlChecked? || t.control == s.control
    requires IsOutbound(id, config, s.h.owner, index, task)
    ensures InvFor(id, config, t)
  {
    NumbersAfterMove(id, s.h.issued, s.h.owner, s.direct, s.control, t.direct, t.control);
    OutboundsAfterMove(id, config, s.h.owner, s.h.outbound, s.direct, s.control, t.direct, t.control);
    OutboundsAfterSend(id, config, s.h.owner, s.h.outbound, t.direct, t.control, index, task);
    TrafficAfterSend(id, config, s.h.owner, s.h.outbound, index, task, s.h.handed, s.results, s.result,
                     s.h.correlated, s.h.unknown);
  }

  // ---------- correlation ----------

  /** A result whose id survived the wire looks under its own id. */
  lemma KeyOfAnswer(id: Numbering, config: Config, owner: Owner, outbound: map<nat, QuantumTask>, answer: Answer)
    requires answer.Answer? && Answers(outbound, answer)
    requires IsOutbound(id, config, owner, answer.origin, outbound[answer.origin])
    ensures id(answer.origin) in owner
    ensures ToUint64(answer.result.taskId) == id(answer.origin) <==> InRange(id(answer.origin))
  {
    ReturnsUnchangedIffInRange(id(answer.origin));
  }

  lemma UnknownsAfterUnknown(id: Numbering, config: Config, owner: Owner, outbound: map<nat, QuantumTask>,
                             handed: seq<Handout>, correlated: Correlated, pending: map<uint64, PendingTask>,
                             unknown: seq<Answer>, answer: Answer)
    requires Unknowns(id, outbound, config.resultQueue, handed, correlated, unknown)
    requires Registered(owner, correlated, pending)
    requires Traced(outbound, config.resultQueue, handed, answer)
    requires answer.Answer? ==> IsOutbound(id, config, owner, answer.origin, outbound[answer.origin])
    requires ToUint64(answer.result.taskId) !in pending
    ensures Unknowns(id, outbound, config.resultQueue, handed, correlated, unknown + [answer])
  {
    if answer.Answer? {
      KeyOfAnswer(id, config, owner, outbound, answer);
    }
  }

  lemma UnknownKeeps(id: Numbering, config: Config, s: State, t: State)
    requires InvFor(id, config, s) && s.result.ResultReceived?
    requires ToUint64(s.result.answer.result.taskId) !in s.store.pending
    requires t.h == s.h.(unknown := s.h.unknown + [s.result.answer]) && t.store == s.store && t.results == s.results
    requires t.direct == s.direct && t.control == s.control && t.result == ResultIdle
    ensures InvFor(id, config, t)
  {
    ReturningAfterMove(s.h.outbound, config.resultQueue, s.h.handed, s.results, s.result, t.result);
    UnknownsAfterUnknown(id, config, s.h.owner, s.h.outbound, s.h.handed, s.h.correlated, s.store.pending,
                         s.h.unknown, s.result.answer);
    ContentsAfterMove(s.h.owner, s.h.correlated, s.result, s.store.completed, s.h.fetched, s.h.handed, t.result);
    PlacesAfterMove(s.h.correlated, s.result, s.store.completed, s.h.fetched, s.h.handed, t.result);
  }

  lemma RegisteredAfterTake(owner: Owner, correlated: Correlated, pending: map<uint64, PendingTask>, k: uint64,
                            answer: Answer)
    requires Registered(owner, correlated, pending) && k in pending
    ensures k in owner && k !in correlated && pending[k] == EntryFor(owner[k].issue, k)
    ensures Registered(owner, correlated[k := answer], pending - {k})
  {
  }

  lemma TrafficAfterTake(id: Numbering, outbound: map<nat, QuantumTask>, queue: string, handed: seq<Handout>,
                         correlated: Correlated, unknown: seq<Answer>, k: uint64, answer: Answer)
    requires Traffic(id, outbound, queue, handed, correlated, unknown)
    requires Traced(outbound, queue, handed, answer) && ToUint64(answer.result.taskId) == k && k !in correlated
    requires forall n :: 0 <= n < |handed| ==> handed[n].key in correlated
    ensures Traffic(id, outbound, queue, handed, correlated[k := answer], unknown)
  {
    var correlated' := correlated[k := answer];
    forall other <- correlated' ensures Matches(outbound, queue, handed, other, correlated'[other]) {
      if other in correlated {
        assert Matches(outbound, queue, handed, other, correlated[other]);
      }
    }
  }

  lemma HandedAreCorrelated(owner: Owner, correlated: Correlated, handed: seq<Handout>)
    requires Handed(owner, correlated, handed)
    ensures forall n :: 0 <= n < |handed| ==> handed[n].key in correlated
  {
    forall n | 0 <= n < |handed| ensures handed[n].key in correlated {
      assert Delivers(owner, correlated, handed[n].key, handed[n].destination, handed[n].result);
    }
  }

  lemma ContentsAfterTake(owner: Owner, correlated: Correlated, r: ResultWorker,
                          completed: map<uint64, CompletedControlTask>, fetched: seq<Fetch>, handed: seq<Handout>,
                          k: uint64, answer: Answer, r': ResultWorker)
    requires Contents(owner, correlated, r, completed, fetched, handed) && k in owner && k !in correlated
    requires var entry := EntryFor(owner[k].issue, k);
             r' == if entry.kind.ControlTask?
                   then ResultStoring(k, CompletedFrom(answer.result, entry))
                   else ResultSending(k, entry.originalResultDestination, RestoredResult(answer.result, entry))
    ensures Contents(owner, correlated[k := answer], r', completed, fetched, handed)
  {
    if owner[k].issue.DirectIssue? {
      RestorationInvertsRegistration(owner[k].issue.task, k, answer.result);
    }
  }

  lemma PlacesAfterTake(owner: Owner, correlated: Correlated, r: ResultWorker,
                        completed: map<uint64, CompletedControlTask>, fetched: seq<Fetch>, handed: seq<Handout>,
                        k: uint64, answer: Answer, r': ResultWorker)
    requires Places(correlated, r, completed, fetched, handed) && TransferCount(r) == 0
    requires Contents(owner, correlated, r, completed, fetched, handed) && k !in correlated
    requires TransferCount(r') == 1 && r'.key == k
    ensures Places(correlated[k := answer], r', completed, fetched, handed)
  {
  }

  lemma TakeKeeps(id: Numbering, config: Config, s: State, t: State, k: uint64)
    requires InvFor(id, config, s) && s.result.ResultReceived?
    requires k == ToUint64(s.result.answer.result.taskId) && k in s.store.pending
    requires t.store == s.store.DropPending(k) && t.h == Correlating(s, k, s.result.answer)
    requires t.results == s.results && t.direct == s.direct && t.control == s.control
    requires var entry := s.store.pending[k];
             t.result == if entry.kind.ControlTask?
                         then ResultStoring(k, CompletedFrom(s.result.answer.result, entry))
                         else ResultSending(k, entry.originalResultDestination,
                                            RestoredResult(s.result.answer.result, entry))
    ensures InvFor(id, config, t)
  {
    ReturningAfterMove(s.h.outbound, config.resultQueue, s.h.handed, s.results, s.result, t.result);
    var answer := s.result.answer;
    RegisteredAfterTake(s.h.owner, s.h.correlated, s.store.pending, k, answer);
    HandedAreCorrelated(s.h.owner, s.h.correlated, s.h.handed);
    TrafficAfterTake(id, s.h.outbound, config.resultQueue, s.h.handed, s.h.correlated, s.h.unknown, k, answer);
    ContentsAfterTake(s.h.owner, s.h.correlated, s.result, s.store.completed, s.h.fetched, s.h.handed, k, answer,
                      t.result);
    PlacesAfterTake(s.h.owner, s.h.correlated, s.result, s.store.completed, s.h.fetched, s.h.handed, k, answer,
                    t.result);
  }

  // ---------- storing, handing out, fetching ----------

  lemma PlacesAfterStore(correlated: Correlated, r: ResultWorker, completed: map<uint64, CompletedControlTask>,
                         fetched: seq<Fetch>, handed: seq<Handout>)
    requires Places(correlated, r, completed, fetched, handed) && r.ResultStoring?
    ensures r.key !in completed
    ensures Places(correlated, ResultIdle, completed[r.key := r.completed], fetched, handed)
  {
    assert InTransfer(r, r.key);
  }

  lemma ContentsAfterStore(owner: Owner, correlated: Correlated, r: ResultWorker,
                           completed: map<uint64, CompletedControlTask>, fetched: seq<Fetch>, handed: seq<Handout>)
    requires Contents(owner, correlated, r, completed, fetched, handed) && r.ResultStoring?
    ensures r.completed.taskId == r.key
    ensures Contents(owner, correlated, ResultIdle, completed[r.key := r.completed], fetched, handed)
  {
  }

  lemma StoreKeeps(id: Numbering, config: Config, s: State, t: State)
    requires InvFor(id, config, s) && s.result.ResultStoring?
    requires t.store == s.store.AddCompleted(s.result.completed) && t.h == s.h && t.results == s.results
    requires t.direct == s.direct && t.control == s.control && t.result == ResultIdle
    ensures InvFor(id, config, t)
  {
    ReturningAfterMove(s.h.outbound, config.resultQueue, s.h.handed, s.results, s.result, t.result);
    PlacesAfterStore(s.h.correlated, s.result, s.store.completed, s.h.fetched, s.h.handed);
    ContentsAfterStore(s.h.owner, s.h.correlated, s.result, s.store.completed, s.h.fetched, s.h.handed);
  }

  lemma HandedAfterHand(owner: Owner, correlated: Correlated, r: ResultWorker,
                        completed: map<uint64, CompletedControlTask>, fetched: seq<Fetch>, handed: seq<Handout>,
                        handout: Handout)
    requires Contents(owner, correlated, r, completed, fetched, handed)
    requires Places(correlated, r, completed, fetched, handed) && HandedOnce(handed)
    requires r == ResultSending(handout.key, handout.destination, handout.result)
    ensures Contents(owner, correlated, ResultIdle, completed, fetched, handed + [handout])
    ensures HandedOnce(handed + [handout])
  {
    assert InTransfer(r, handout.key);
  }

  lemma PlacesAfterHand(correlated: Correlated, r: ResultWorker, completed: map<uint64, CompletedControlTask>,
                        fetched: seq<Fetch>, handed: seq<Handout>, handout: Handout)
    requires Places(correlated, r, completed, fetched, handed)
    requires r == ResultSending(handout.key, handout.destination, handout.result)
    ensures Places(correlated, ResultIdle, completed, fetched, handed + [handout])
  {
    forall k <- correlated ensures k in completed || WasFetched(fetched, k) || WasHanded(handed + [handout], k) {
      if InTransfer(r, k) {
        assert (handed + [handout])[|handed|].key == k;
      } else if WasHanded(handed, k) {
        var n :| 0 <= n < |handed| && handed[n].key == k;
        assert (handed + [handout])[n].key == k;
      }
    }
  }

  /** What was traced stays so when one more result is handed out, and the new handout may come back. */
  lemma TrafficAfterHand(id: Numbering, outbound: map<nat, QuantumTask>, queue: string, handed: seq<Handout>,
                         results: seq<Answer>, r: ResultWorker, correlated: Correlated, unknown: seq<Answer>,
                         handout: Handout, results': seq<Answer>)
    requires Returning(outbound, queue, handed, results, r)
    requires Traffic(id, outbound, queue, handed, correlated, unknown)
    requires || results' == results
             || (&& handout.accepted && handout.destination == queue != ""
                 && results' == results + [Echo(|handed|, handout.result)])
    ensures Returning(outbound, queue, handed + [handout], results', ResultIdle)
    ensures Traffic(id, outbound, queue, handed + [handout], correlated, unknown)
  {
    MatchedStays(outbound, queue, handed, correlated, outbound, handed + [handout]);
  }

  lemma HandKeeps(id: Numbering, config: Config, s: State, t: State, handout: Handout)
    requires InvFor(id, config, s)
    requires s.result == ResultSending(handout.key, handout.destination, handout.result)
    requires t.h == s.h.(handed := s.h.handed + [handout]) && t.store == s.store
    requires || t.results == s.results
             || (&& handout.accepted && handout.destination == config.resultQueue != ""
                 && t.results == s.results + [Echo(|s.h.handed|, handout.result)])
    requires t.direct == s.direct && t.control == s.control && t.result == ResultIdle
    ensures InvFor(id, config, t)
  {
    TrafficAfterHand(id, s.h.outbound, config.resultQueue, s.h.handed, s.results, s.result, s.h.correlated,
                     s.h.unknown, handout, t.results);
    HandedAfterHand(s.h.owner, s.h.correlated, s.result, s.store.completed, s.h.fetched, s.h.handed, handout);
    PlacesAfterHand(s.h.correlated, s.result, s.store.completed, s.h.fetched, s.h.handed, handout);
  }

  lemma ContentsAfterFetch(owner: Owner, correlated: Correlated, r: ResultWorker,
                           completed: map<uint64, CompletedControlTask>, fetched: seq<Fetch>, handed: seq<Handout>,
                           fetch: Fetch)
    requires Contents(owner, correlated, r, completed, fetched, handed)
    requires fetch.key in completed && completed[fetch.key] == fetch.task
    ensures Contents(owner, correlated, r, completed - {fetch.key}, fetched + [fetch], handed)
  {
  }

  lemma PlacesAfterFetch(correlated: Correlated, r: ResultWorker, completed: map<uint64, CompletedControlTask>,
                         fetched: seq<Fetch>, handed: seq<Handout>, fetch: Fetch)
    requires Places(correlated, r, completed, fetched, handed) && FetchedOnce(fetched)
    requires fetch.key in completed
    ensures Places(correlated, r, completed - {fetch.key}, fetched + [fetch], handed)
    ensures FetchedOnce(fetched + [fetch])
  {
    var fetched' := fetched + [fetch];
    assert fetched'[|fetched|].key == fetch.key;
    forall k: uint64 ensures WasFetched(fetched', k) <==> WasFetched(fetched, k) || k == fetch.key {
      if WasFetched(fetched, k) {
        var n :| 0 <= n < |fetched| && fetched[n].key == k;
        assert fetched'[n].key == k;
      }
    }
  }

  lemma ChecksAfterFetch(completed: map<uint64, CompletedControlTask>, k: uint64)
    requires k in completed
    ensures forall other <- completed :: other != k ==> other in completed - {k}
  {
  }

  lemma FetchKeeps(id: Numbering, config: Config, s: State, t: State, fetch: Fetch)
    requires InvFor(id, config, s)
    requires fetch.key in s.store.completed && s.store.completed[fetch.key] == fetch.task
    requires t.store == s.store.DropCompleted(fetch.key) && t.h == s.h.(fetched := s.h.fetched + [fetch])
    requires t.results == s.results && t.result == s.result && t.direct == s.direct
    requires ControlMoves(s.control, t.control) && !t.control.ControlChecked?
    ensures InvFor(id, config, t)
  {
    OutboundsAfterMove(id, config, s.h.owner, s.h.outbound, s.direct, s.control, t.direct, t.control);
    NumbersAfterMove(id, s.h.issued, s.h.owner, s.direct, s.control, t.direct, t.control);
    ContentsAfterFetch(s.h.owner, s.h.correlated, s.result, s.store.completed, s.h.fetched, s.h.handed, fetch);
    PlacesAfterFetch(s.h.correlated, s.result, s.store.completed, s.h.fetched, s.h.handed, fetch);
    ChecksAfterFetch(s.store.completed, fetch.key);
  }
}
