/**
 The life of a pending assistant reply as a state machine.

 Actors: `send` and `regenerate` (app/services/message_service.py), the consumer of
 chat.response.generated (app/events/consumers.py) and the timeout pass
 (app/workers/pending_timeout_worker.py). They share message rows, the Redis markers (a key and a
 sorted-set entry per response id), the inbox and the outbox. One step is the code between two
 `await` points; between steps any other actor may run, an actor may crash, and every Redis or
 Cassandra call may fail with or without having taken effect.

 All of these stores are keyed by message id, so the state is one record per id, of everything
 the stores hold under that id. The rows are those of one conversation.
 */
module ReplyProtocol {
  import opened Wrappers
  import opened MessageRows

  type Id = nat

  /** The columns of a message row that the protocol reads and writes. */
  datatype Slot = Slot(sender: Sender, content: string, status: Status)

  const TIMEOUT_MESSAGE := "Generation timed out: no response from the AI service."

  // ------------------------------------------------------------------ the row writes

  function Reply(content: string, status: Status): Option<Slot> {
    Some(Slot(Assistant, content, status))
  }

  /** `delete`: an UPDATE of the status column; on a missing row it creates one without a sender. */
  function SoftDeleted(row: Option<Slot>): Option<Slot> {
    if row.Some? then Some(row.value.(status := Deleted)) else Some(Slot(NoSender, "", Deleted))
  }

  /** `_is_writable_assistant_row` */
  predicate Writable(row: Option<Slot>) {
    row.Some? ==> row.value.sender == Assistant
  }

  /** `finalize_assistant_message` */
  function Finalized(row: Option<Slot>, content: string): Option<Slot> {
    if Writable(row) then Reply(content, Sent) else row
  }

  /** `fail_assistant_message` */
  function FailedBy(row: Option<Slot>, error: string): Option<Slot> {
    if !Writable(row) then row
    else if row.Some? && row.value.status == Sent && row.value.content != "" then row
    else Reply(error, Failed)
  }

  /** The guard and write of the timeout pass. */
  function TimedOut(row: Option<Slot>): Option<Slot> {
    if row.Some? && row.value.sender == Assistant && row.value.status == Sent then row
    else Reply(TIMEOUT_MESSAGE, Failed)
  }

  // ------------------------------------------------------------------ actors

  /** What a request does besides opening the reply: store the prompt, or replace an older answer. */
  datatype Kind = Prompt(uid: Id, text: string) | Regeneration(target: Option<Id>)

  /** Where `send`/`regenerate` is. `Undo*` is the compensation; `rowToo`: the placeholder is still to be removed. */
  datatype SendPc =
    | SetKey
    | AddDeadline
    | Stage
    | UndoKey(rowToo: bool)
    | UndoDeadline(rowToo: bool)
    | UndoRow

  datatype Send = Send(kind: Kind, pc: SendPc) {
    /** The request can still be staged. */
    predicate Opening() { pc.SetKey? || pc.AddDeadline? || pc.Stage? }

    /** It gave up before the batch and will remove its placeholder. */
    predicate GaveUpEarly() {
      match pc
      case UndoKey(rowToo) => rowToo
      case UndoDeadline(rowToo) => rowToo
      case UndoRow => true
      case _ => false
    }
  }

  datatype HandlerPc = DropKey | DropDeadline | Save

  datatype SweepPc = Next | Probed(found: bool) | SweepKey | SweepDeadline

  datatype Proc =
    | Handler(rid: Id, hpc: HandlerPc)
      // `due` is history: the overdue requests the pass set out to settle; `clean`: no entry failed so far
    | Sweep(todo: seq<Id>, spc: SweepPc, due: set<Id>, clean: bool)

  /** What an id was allocated as. */
  datatype Role = Unallocated | ResponseId | PromptId

  /** Everything kept under one message id. */
  datatype Entry = Entry(
    row: Option<Slot>,
    key: bool,                  // pending_response:<id> exists
    deadline: Option<int>,      // its score in pending_response:zset
    inbox: bool,                // its final event was handled to the end
    staged: bool,               // the outbox holds its request
    send: Option<Send>,         // the running send/regenerate call that allocated it
    role: Role,
    answered: Option<string>,   // history: the success event that was written
    errored: bool,              // history: an error event was handled
    removed: bool               // history: the row was deleted on purpose
  )

  const BLANK := Entry(None, false, None, false, false, None, Unallocated, None, false, false)

  datatype State = State(entries: map<Id, Entry>, procs: map<nat, Proc>) {
    function At(id: Id): Entry {
      if id in entries then entries[id] else BLANK
    }

    function Put(id: Id, e: Entry): State {
      this.(entries := entries[id := e])
    }

    function PutProc(pid: nat, p: Proc): State {
      this.(procs := procs[pid := p])
    }

    function DropProc(pid: nat): State {
      this.(procs := procs - {pid})
    }
  }

  const INIT := State(map[], map[])

  // ------------------------------------------------------------------ steps

  /** The outcome of a remote call: done, failed without effect, or reported as failed but applied. */
  datatype Io = Done | Lost | Applied

  /** One await of `send`/`regenerate` outside the batch. */
  datatype SendCall =
    | RedisSet(io: Io)
    | RedisAdd(score: int, io: Io)
    | UndoRedisKey(io: Io)
    | UndoRedisDeadline(io: Io)
    | UndoPlaceholder(deleteOk: bool)
    | CrashSend

  /** One await of a handler or a timeout pass, on the id it has in hand. */
  datatype ProcCall =
    | HandlerKey(io: Io)
    | HandlerDeadline(io: Io)
    | HandlerSave
    | Probe
    | Judge
    | SweepDropKey(io: Io)
    | SweepDropDeadline(io: Io)
    | SweepError

  datatype Label =
    | Begin(rid: Id, kind: Kind)
    | Call(rid: Id, call: SendCall)
    | StageRequest(rid: Id, io: Io, deleteOk: bool)
    | Deliver(pid: nat, rid: Id, success: bool, text: string)
    | Scan(pid: nat, now: int, todo: seq<Id>)
    | Move(pid: nat, move: ProcCall)
    | Crash(pid: nat)
    | Remove(id: Id)

  predicate Overdue(e: Entry, now: int) {
    e.deadline.Some? && e.deadline.value <= now
  }

  /** The call is the one `send`/`regenerate` is waiting for. */
  predicate Awaits(x: Send, c: SendCall) {
    match c
    case RedisSet(_) => x.pc.SetKey?
    case RedisAdd(_, _) => x.pc.AddDeadline?
    case UndoRedisKey(_) => x.pc.UndoKey?
    case UndoRedisDeadline(_) => x.pc.UndoDeadline?
    case UndoPlaceholder(_) => x.pc.UndoRow?
    case CrashSend => true
  }

  predicate ProcAwaits(p: Proc, c: ProcCall) {
    match p
    case Handler(_, hpc) =>
      if c.HandlerKey? then hpc.DropKey? else if c.HandlerDeadline? then hpc.DropDeadline? else c.HandlerSave? && hpc.Save?
    case Sweep(todo, spc, _, _) =>
      && todo != []
      && match c
         case Probe => spc.Next?
         case Judge => spc.Probed?
         case SweepDropKey(_) => spc.SweepKey?
         case SweepDropDeadline(_) => spc.SweepDeadline?
         case SweepError => true
         case _ => false
  }

  predicate Enabled(s: State, l: Label) {
    match l
    case Begin(rid, kind) => s.At(rid) == BLANK && (kind.Prompt? ==> s.At(kind.uid) == BLANK && kind.uid != rid)
    case Call(rid, c) => s.At(rid).send.Some? && Awaits(s.At(rid).send.value, c)
    case StageRequest(rid, _, _) => s.At(rid).send.Some? && s.At(rid).send.value.pc.Stage?
      // one success text per response id
    case Deliver(pid, rid, success, text) =>
      pid !in s.procs && (success && s.At(rid).answered.Some? ==> text == s.At(rid).answered.value)
    case Scan(pid, now, todo) =>
      && pid !in s.procs
      && (forall id | id in todo :: Overdue(s.At(id), now))
      && (forall id | id in s.entries :: Overdue(s.At(id), now) ==> id in todo)
    case Move(pid, c) => pid in s.procs && ProcAwaits(s.procs[pid], c)
    case Crash(pid) => pid in s.procs
    case Remove(id) => true
  }

  function SendTo(e: Entry, pc: SendPc): Entry
    requires e.send.Some?
  {
    e.(send := Some(e.send.value.(pc := pc)))
  }

  function RemovedEntry(e: Entry): Entry {
    e.(row := SoftDeleted(e.row), removed := true)
  }

  function WithoutKey(e: Entry, io: Io): Entry {
    if io.Lost? then e else e.(key := false)
  }

  function WithoutDeadline(e: Entry, io: Io): Entry {
    if io.Lost? then e else e.(deadline := None)
  }

  function AfterCall(e: Entry, c: SendCall): Entry
    requires e.send.Some? && Awaits(e.send.value, c)
  {
    match c
    case RedisSet(io) => SendTo(e.(key := e.key || !io.Lost?), if io.Done? then AddDeadline else UndoKey(true))
    case RedisAdd(score, io) =>
      SendTo(e.(deadline := if io.Lost? then e.deadline else Some(score)), if io.Done? then Stage else UndoKey(true))
    case UndoRedisKey(io) =>
      var rowToo := e.send.value.pc.rowToo;
      var t := WithoutKey(e, io);
      if io.Done? then SendTo(t, UndoDeadline(rowToo)) else if rowToo then SendTo(t, UndoRow) else t.(send := None)
    case UndoRedisDeadline(io) =>
      var t := WithoutDeadline(e, io);
      if e.send.value.pc.rowToo then SendTo(t, UndoRow) else t.(send := None)
    case UndoPlaceholder(deleteOk) => (if deleteOk then RemovedEntry(e) else e).(send := None)
    case CrashSend => e.(send := None)
  }

  /** `create_with_outbox` as far as the response id goes: its event, and for `regenerate` its row again. */
  function StagedEntry(e: Entry, kind: Kind): Entry {
    e.(staged := true, row := if kind.Regeneration? then Reply("", Pending) else e.row)
  }

  /** The response id after the batch and everything up to the next await. */
  function AfterStage(e: Entry, io: Io, deleteOk: bool): Entry
    requires e.send.Some?
  {
    var t := if io.Lost? then e else StagedEntry(e, e.send.value.kind);
    if io.Done? then t.(send := None)
    else SendTo(if deleteOk then RemovedEntry(t) else t, UndoKey(false))
  }

  /** The rest of the batch: the prompt row. */
  function WithPrompt(s: State, kind: Kind): State {
    if kind.Prompt? then s.Put(kind.uid, s.At(kind.uid).(row := Some(Slot(User, kind.text, Sent)))) else s
  }

  /** What follows a staged regeneration: the removal of the replaced answer. */
  function WithoutReplaced(s: State, kind: Kind): State {
    if kind.Regeneration? && kind.target.Some? then s.Put(kind.target.value, RemovedEntry(s.At(kind.target.value)))
    else s
  }

  function StageStep(s: State, rid: Id, io: Io, deleteOk: bool): State
    requires s.At(rid).send.Some?
  {
    var kind := s.At(rid).send.value.kind;
    var t := s.Put(rid, AfterStage(s.At(rid), io, deleteOk));
    var u := if io.Lost? then t else WithPrompt(t, kind);
    if io.Done? && deleteOk then WithoutReplaced(u, kind) else u
  }

  /** The guarded write of the final event. */
  function AnsweredEntry(e: Entry, success: bool, text: string): Entry {
    if success then e.(row := Finalized(e.row, text), answered := Some(text))
    else e.(row := FailedBy(e.row, text), errored := true)
  }

  /** The id a process has in hand. */
  function InHand(p: Proc): Id
    requires p.Sweep? ==> p.todo != []
  {
    if p.Handler? then p.rid else p.todo[0]
  }

  function AfterMove(e: Entry, p: Proc, c: ProcCall): Entry
    requires ProcAwaits(p, c)
  {
    match c
    case HandlerKey(io) => WithoutKey(e, io)
    case HandlerDeadline(io) => WithoutDeadline(e, io)
    case HandlerSave => e.(inbox := true)
    case Probe => e
    case Judge => if p.spc.found then e.(row := TimedOut(e.row)) else e
    case SweepDropKey(io) => WithoutKey(e, io)
    case SweepDropDeadline(io) => WithoutDeadline(e, io)
    case SweepError => e
  }

  /** The pass goes on to the next entry. */
  function NextEntry(p: Proc, ok: bool): Proc
    requires p.Sweep? && p.todo != []
  {
    Sweep(p.todo[1..], Next, p.due, p.clean && ok)
  }

  /** Where the process goes on; None when it is over. */
  function ProcAfter(e: Entry, p: Proc, c: ProcCall): Option<Proc>
    requires ProcAwaits(p, c)
  {
    match c
    case HandlerKey(io) => Some(p.(hpc := if io.Done? then DropDeadline else Save))
    case HandlerDeadline(io) => Some(p.(hpc := Save))
    case HandlerSave => None
    case Probe => Some(p.(spc := Probed(e.key)))
    case Judge => Some(p.(spc := if p.spc.found then SweepKey else SweepDeadline))
    case SweepDropKey(io) => Some(if io.Done? then p.(spc := SweepDeadline) else NextEntry(p, false))
    case SweepDropDeadline(io) => Some(NextEntry(p, io.Done?))
    case SweepError => Some(NextEntry(p, false))
  }

  function Step(s: State, l: Label): State
    requires Enabled(s, l)
  {
    match l
    case Begin(rid, kind) =>
      var t := s.Put(rid, BLANK.(row := Reply("", Pending), send := Some(Send(kind, SetKey)), role := ResponseId));
      if kind.Prompt? then t.Put(kind.uid, BLANK.(role := PromptId)) else t
    case Call(rid, c) => s.Put(rid, AfterCall(s.At(rid), c))
    case StageRequest(rid, io, deleteOk) => StageStep(s, rid, io, deleteOk)
    case Deliver(pid, rid, success, text) =>
      if s.At(rid).inbox || !Writable(s.At(rid).row) then s
      else s.Put(rid, AnsweredEntry(s.At(rid), success, text)).PutProc(pid, Handler(rid, DropKey))
    case Scan(pid, now, todo) =>
      s.PutProc(pid, Sweep(todo, Next, set id | id in s.entries && s.At(id).staged && Overdue(s.At(id), now), true))
    case Move(pid, c) =>
      var p := s.procs[pid];
      var e := s.At(InHand(p));
      var next := ProcAfter(e, p, c);
      var t := s.Put(InHand(p), AfterMove(e, p, c));
      if next.Some? then t.PutProc(pid, next.value) else t.DropProc(pid)
    case Crash(pid) => s.DropProc(pid)
    case Remove(id) => s.Put(id, RemovedEntry(s.At(id)))
  }

  // ------------------------------------------------------------------ runs

  predicate IsRun(s: State, ls: seq<Label>)
    decreases |ls|
  {
    ls == [] || (Enabled(s, ls[0]) && IsRun(Step(s, ls[0]), ls[1..]))
  }

  /** The state a run ends in. */
  function After(s: State, ls: seq<Label>): State
    requires IsRun(s, ls)
    decreases |ls|
  {
    if ls == [] then s else After(Step(s, ls[0]), ls[1..])
  }

  lemma RunCons(s: State, l: Label, ls: seq<Label>)
    requires Enabled(s, l) && IsRun(Step(s, l), ls)
    ensures IsRun(s, [l] + ls) && After(s, [l] + ls) == After(Step(s, l), ls)
  {
    assert ([l] + ls)[1..] == ls;
  }

  lemma RunPair(s: State, k: Label, l: Label)
    requires Enabled(s, k) && Enabled(Step(s, k), l)
    ensures IsRun(s, [k, l]) && After(s, [k, l]) == Step(Step(s, k), l)
  {
    RunCons(Step(s, k), l, []);
    RunCons(s, k, [l] + []);
    assert [k, l] == [k] + ([l] + []);
  }

  lemma {:induction false} RunConcat(s: State, a: seq<Label>, b: seq<Label>)
    requires IsRun(s, a) && IsRun(After(s, a), b)
    ensures IsRun(s, a + b) && After(s, a + b) == After(After(s, a), b)
    decreases |a|
  {
    if a == [] {
      assert a + b == b;
    } else {
      assert (a + b)[0] == a[0] && (a + b)[1..] == a[1..] + b;
      RunConcat(Step(s, a[0]), a[1..], b);
    }
  }

  lemma RunSnoc(s: State, ls: seq<Label>, l: Label)
    requires IsRun(s, ls) && Enabled(After(s, ls), l)
    ensures IsRun(s, ls + [l]) && After(s, ls + [l]) == Step(After(s, ls), l)
  {
    RunCons(After(s, ls), l, []);
    assert [l] + [] == [l];
    RunConcat(s, ls, [l]);
  }
}
