/**
 What every run of the reply protocol keeps: no staged request is stranded, a clean timeout pass
 settles everything overdue, and an answer stays.
 */
module ReplyGuarantees {
  import opened Wrappers
  import opened MessageRows
  import opened ReplyProtocol

  predicate Opening(e: Entry) {
    e.send.Some? && e.send.value.Opening()
  }

  predicate OpenRegeneration(e: Entry) {
    Opening(e) && e.send.value.kind.Regeneration?
  }

  /** The reply is sent, failed or deleted. */
  predicate Settled(e: Entry) {
    e.row.Some? && e.row.value.status != Pending
  }

  /** A published request is settled, or its marker is complete, so a timeout pass will find it. */
  predicate NotStranded(e: Entry) {
    e.staged ==> Settled(e) || (e.key && e.deadline.Some?)
  }

  /**
   The conditions under which nobody is stranded. Before the step one can check that no reply comes
   for a `regenerate` call that has not been published yet, and that a timeout pass does not start
   while the deadline of such a call has passed. The third is about how the step itself turns out:
   a batch that was applied although it was reported as failed is followed by a successful removal
   of the placeholder, unless it published a prompt whose reply is settled already.
   */
  predicate Benign(s: State, l: Label) {
    match l
    case Deliver(_, rid, _, _) => !OpenRegeneration(s.At(rid))
    case Scan(_, _, todo) => forall id | id in todo :: !OpenRegeneration(s.At(id))
    case StageRequest(rid, io, deleteOk) => io.Applied? && !deleteOk ==> !OpenRegeneration(s.At(rid)) && Settled(s.At(rid))
    case _ => true
  }

  // ------------------------------------------------------------------ the invariant

  /** What holds of the record of every id. */
  predicate EntryOk(e: Entry) {
    IdOk(e) && SendOk(e) && NotStranded(e) && AnswerOk(e)
  }

  /** Only response ids have markers, events and replies, and their rows are the assistant's. */
  predicate IdOk(e: Entry) {
    && (e.key || e.deadline.Some? || e.staged || e.send.Some? ==> e.role.ResponseId?)
    && (e.role.ResponseId? ==> e.row.Some? && e.row.value.sender == Assistant)
  }

  predicate SendOk(e: Entry) {
    e.send.Some? ==>
      var pc := e.send.value.pc;
      && (Opening(e) || e.send.value.GaveUpEarly() ==> !e.staged)
      && (pc.SetKey? || pc.AddDeadline? ==> e.deadline.None?)
      && (pc.AddDeadline? && (OpenRegeneration(e) || !Settled(e)) ==> e.key)
      && (OpenRegeneration(e) ==> e.answered.None? && !e.errored)
      && (pc.Stage? && (OpenRegeneration(e) || !Settled(e)) ==> e.key && e.deadline.Some?)
      && (e.staged ==> Settled(e))
  }

  predicate AnswerOk(e: Entry) {
    && (e.role.ResponseId? && e.answered.Some? && !e.removed && (e.answered.value != "" || !e.errored) ==>
          e.row == Reply(e.answered.value, Sent))
    && (e.role.ResponseId? && e.row.Some? && e.row.value.status == Sent ==>
          e.answered == Some(e.row.value.content))
    && (e.inbox ==> e.answered.Some? || e.errored)
  }

  /** A timeout pass may deal with this id. */
  predicate Sweepable(e: Entry) {
    && e.role.ResponseId?
    && !OpenRegeneration(e)
    && (Opening(e) ==> e.send.value.pc.Stage?)
  }

  predicate HandlerOk(e: Entry) {
    !OpenRegeneration(e) && Settled(e) && (e.answered.Some? || e.errored)
  }

  /** The entry in hand may lose its marker: it is settled, or its request will never be published. */
  predicate Idle(e: Entry) {
    e.staged || Opening(e) ==> Settled(e)
  }

  predicate InHandOk(e: Entry, pc: SweepPc) {
    !pc.Next? && pc != Probed(true) ==> Idle(e)
  }

  ghost predicate ProcOk(s: State, pid: nat) {
    pid in s.procs ==>
      match s.procs[pid]
      case Handler(rid, _) => HandlerOk(s.At(rid))
      case Sweep(todo, spc, due, clean) =>
        && (forall id :: id in todo ==> Sweepable(s.At(id)))
        && (todo != [] ==> InHandOk(s.At(todo[0]), spc))
        && (forall id :: id in due ==> s.At(id).staged)
        && (clean ==> forall id :: id in due ==> id in todo || Settled(s.At(id)))
  }

  ghost predicate Inv(s: State) {
    && (forall id :: EntryOk(s.At(id)))
    && (forall pid :: ProcOk(s, pid))
    && (forall id :: PromptOk(s, id))
  }

  /** The prompt a call is going to store has an id of its own. */
  predicate PromptOk(s: State, id: Id) {
    s.At(id).send.Some? && s.At(id).send.value.kind.Prompt? ==> s.At(s.At(id).send.value.kind.uid).role.PromptId?
  }

  lemma InitInv()
    ensures Inv(INIT)
  {
  }

  // ------------------------------------------------------------------ one step keeps it

  /** What a step does to one record: it stays in order, and a settled or sweepable reply stays so. */
  predicate Kept(e: Entry, f: Entry) {
    && EntryOk(f)
    && (e.staged ==> f.staged)
    && (e.role != Unallocated ==> f.role == e.role)
    && (f.send.Some? && e.role != Unallocated ==> e.send.Some? && e.send.value.kind == f.send.value.kind)
    && (Settled(e) && !OpenRegeneration(e) ==> Settled(f))
    && (Sweepable(e) ==> Sweepable(f))
    && (Sweepable(e) && Idle(e) ==> Idle(f))
    && (HandlerOk(e) ==> HandlerOk(f))
    && Remembers(e, f)
  }

  /** Histories only grow. */
  predicate Remembers(e: Entry, f: Entry) {
    && (e.answered.Some? ==> f.answered == e.answered)
    && (e.errored ==> f.errored)
    && (e.removed ==> f.removed)
  }

  lemma OpeningCallKept(e: Entry, c: SendCall)
    requires EntryOk(e) && e.send.Some? && Awaits(e.send.value, c) && (c.RedisSet? || c.RedisAdd?)
    ensures Kept(e, AfterCall(e, c))
  {
  }

  /** A call that gives up, or goes on giving up, may leave the markers in any state. */
  lemma GivingUpKept(e: Entry, f: Entry)
    requires EntryOk(e) && e.send.Some? && f == e.(key := f.key, deadline := f.deadline, send := f.send)
    requires f.send.Some? ==> !Opening(f) && f.send.value.kind == e.send.value.kind
    requires f.send.Some? && f.send.value.GaveUpEarly() ==> !e.staged
    requires e.staged ==> Settled(e)
    ensures Kept(e, f)
  {
  }

  lemma UndoKeyKept(e: Entry, c: SendCall)
    requires EntryOk(e) && e.send.Some? && Awaits(e.send.value, c) && c.UndoRedisKey?
    ensures Kept(e, AfterCall(e, c))
  {
    var f := AfterCall(e, c);
    assert f == e.(key := f.key, deadline := f.deadline, send := f.send);
    assert f.send.Some? ==> !Opening(f) && f.send.value.kind == e.send.value.kind && (f.send.value.GaveUpEarly() ==> !e.staged);
    hide Kept, EntryOk, AfterCall;
    GivingUpKept(e, f);
  }

  lemma UndoDeadlineKept(e: Entry, c: SendCall)
    requires EntryOk(e) && e.send.Some? && Awaits(e.send.value, c) && c.UndoRedisDeadline?
    ensures Kept(e, AfterCall(e, c))
  {
    var f := AfterCall(e, c);
    assert f == e.(key := f.key, deadline := f.deadline, send := f.send);
    assert f.send.Some? ==> !Opening(f) && f.send.value.kind == e.send.value.kind && (f.send.value.GaveUpEarly() ==> !e.staged);
    hide Kept, EntryOk, AfterCall;
    GivingUpKept(e, f);
  }

  lemma UndoPlaceholderKept(e: Entry, c: SendCall)
    requires EntryOk(e) && e.send.Some? && Awaits(e.send.value, c) && c.UndoPlaceholder?
    ensures Kept(e, AfterCall(e, c))
  {
  }

  lemma CrashKept(e: Entry)
    requires EntryOk(e) && e.send.Some?
    ensures Kept(e, AfterCall(e, CrashSend))
  {
  }

  lemma UndoCallKept(e: Entry, c: SendCall)
    requires EntryOk(e) && e.send.Some? && Awaits(e.send.value, c) && !c.RedisSet? && !c.RedisAdd?
    ensures Kept(e, AfterCall(e, c))
  {
    hide EntryOk, Kept, AfterCall, Awaits;
    if c.UndoPlaceholder? {
      UndoPlaceholderKept(e, c);
    } else if c.CrashSend? {
      CrashKept(e);
    } else if c.UndoRedisKey? {
      UndoKeyKept(e, c);
    } else {
      UndoDeadlineKept(e, c);
    }
  }

  lemma CallKept(e: Entry, c: SendCall)
    requires EntryOk(e) && e.send.Some? && Awaits(e.send.value, c)
    ensures Kept(e, AfterCall(e, c))
  {
    if c.RedisSet? || c.RedisAdd? {
      OpeningCallKept(e, c);
    } else {
      UndoCallKept(e, c);
    }
  }

  lemma StageKept(e: Entry, io: Io, deleteOk: bool)
    requires EntryOk(e) && e.send.Some? && e.send.value.pc.Stage?
    requires io.Applied? && !deleteOk ==> !OpenRegeneration(e) && Settled(e)
    ensures Kept(e, AfterStage(e, io, deleteOk))
  {
  }

  lemma AnswerKept(e: Entry, success: bool, text: string)
    requires EntryOk(e) && !OpenRegeneration(e) && Writable(e.row) && (success && e.answered.Some? ==> text == e.answered.value)
    ensures Kept(e, AnsweredEntry(e, success, text)) && HandlerOk(AnsweredEntry(e, success, text))
  {
  }

  lemma RemovalKept(e: Entry)
    requires EntryOk(e)
    ensures Kept(e, RemovedEntry(e))
  {
  }

  /** What a process may rely on about the id it has in hand. */
  predicate HandOk(e: Entry, p: Proc) {
    if p.Handler? then HandlerOk(e) else Sweepable(e) && InHandOk(e, p.spc)
  }

  lemma HandlerMoveKept(e: Entry, p: Proc, c: ProcCall)
    requires EntryOk(e) && p.Handler? && ProcAwaits(p, c) && HandlerOk(e)
    ensures Kept(e, AfterMove(e, p, c)) && HandlerOk(AfterMove(e, p, c))
  {
  }

  lemma SweepMoveKept(e: Entry, p: Proc, c: ProcCall)
    requires EntryOk(e) && p.Sweep? && ProcAwaits(p, c) && HandOk(e, p)
    ensures Kept(e, AfterMove(e, p, c))
    ensures ProcAfter(e, p, c).Some? && ProcAfter(e, p, c).value.todo == p.todo ==>
              HandOk(AfterMove(e, p, c), ProcAfter(e, p, c).value)
  {
  }

  lemma MoveKept(e: Entry, p: Proc, c: ProcCall)
    requires EntryOk(e) && ProcAwaits(p, c) && HandOk(e, p)
    ensures Kept(e, AfterMove(e, p, c))
    ensures ProcAfter(e, p, c).Some? && (p.Handler? || ProcAfter(e, p, c).value.todo == p.todo) ==>
              HandOk(AfterMove(e, p, c), ProcAfter(e, p, c).value)
  {
    hide EntryOk, Kept, AfterMove, HandlerOk;
    if p.Handler? {
      HandlerMoveKept(e, p, c);
    } else {
      SweepMoveKept(e, p, c);
    }
  }

  /** A stored prompt. */
  function PromptEntry(e: Entry, text: string): Entry {
    e.(row := Some(Slot(User, text, Sent)))
  }

  lemma PromptKept(e: Entry, text: string)
    requires EntryOk(e) && e.role.PromptId?
    ensures Kept(e, PromptEntry(e, text))
  {
  }

  lemma KeptThenRemoved(e: Entry, f: Entry)
    requires Kept(e, f)
    ensures Kept(e, RemovedEntry(f))
  {
  }

  lemma NothingKept(e: Entry)
    requires EntryOk(e)
    ensures Kept(e, e)
  {
  }

  /** The batch touches its response id, its prompt id, and at most one replaced answer. */
  lemma StageTouches(s: State, l: Label, id: Id)
    requires l.StageRequest? && Enabled(s, l)
    ensures var e := if id == l.rid then AfterStage(s.At(id), l.io, l.deleteOk) else s.At(id);
            var f := Step(s, l).At(id);
            var kind := s.At(l.rid).send.value.kind;
            f == e || f == RemovedEntry(e) || (kind.Prompt? && id == kind.uid && f == PromptEntry(e, kind.text))
  {
  }

  lemma StageStepKept(s: State, l: Label, id: Id)
    requires EntryOk(s.At(id)) && l.StageRequest? && Enabled(s, l) && Benign(s, l)
    requires EntryOk(s.At(l.rid)) && PromptOk(s, l.rid)
    ensures Kept(s.At(id), Step(s, l).At(id))
  {
    var e := if id == l.rid then AfterStage(s.At(id), l.io, l.deleteOk) else s.At(id);
    var kind := s.At(l.rid).send.value.kind;
    assert kind.Prompt? && id == kind.uid ==> s.At(id).role.PromptId? && id != l.rid;
    StageTouches(s, l, id);
    StageKept(s.At(l.rid), l.io, l.deleteOk);
    hide Step, AfterStage, Kept, EntryOk, PromptOk, Benign, RemovedEntry, PromptEntry;
    if id != l.rid {
      NothingKept(s.At(id));
    }
    KeptThenRemoved(s.At(id), e);
    if kind.Prompt? && id == kind.uid {
      PromptKept(s.At(id), kind.text);
    }
  }

  lemma MoveStepKept(s: State, l: Label, id: Id)
    requires EntryOk(s.At(id)) && l.Move? && Enabled(s, l) && EntryOk(s.At(InHand(s.procs[l.pid])))
    requires HandOk(s.At(InHand(s.procs[l.pid])), s.procs[l.pid])
    ensures Kept(s.At(id), Step(s, l).At(id))
  {
    MoveKept(s.At(InHand(s.procs[l.pid])), s.procs[l.pid], l.move);
  }

  lemma StepKept(s: State, l: Label, id: Id)
    requires Inv(s) && Enabled(s, l) && Benign(s, l)
    ensures Kept(s.At(id), Step(s, l).At(id))
  {
    assert EntryOk(s.At(id));
    if l.StageRequest? {
      assert EntryOk(s.At(l.rid)) && PromptOk(s, l.rid);
      StageStepKept(s, l, id);
    } else if l.Move? {
      assert ProcOk(s, l.pid);
      assert EntryOk(s.At(InHand(s.procs[l.pid])));
      MoveStepKept(s, l, id);
    } else {
      ShortStepKept(s, l, id);
    }
  }

  lemma ShortStepKept(s: State, l: Label, id: Id)
    requires EntryOk(s.At(id)) && Enabled(s, l) && Benign(s, l) && !l.StageRequest? && !l.Move?
    ensures Kept(s.At(id), Step(s, l).At(id))
  {
    match l
    case Begin(rid, kind) =>
    case Call(rid, c) => if rid == id { CallKept(s.At(id), c); }
    case Deliver(pid, rid, success, text) =>
      if rid == id && !s.At(id).inbox && Writable(s.At(id).row) {
        AnswerKept(s.At(id), success, text);
      }
    case Scan(pid, now, todo) =>
    case Crash(pid) =>
    case Remove(other) => RemovalKept(s.At(id));
  }

  lemma StepPrompt(s: State, l: Label, id: Id)
    requires Inv(s) && Enabled(s, l) && Benign(s, l)
    ensures PromptOk(Step(s, l), id)
  {
    assert PromptOk(s, id) && EntryOk(s.At(id));
    StepKept(s, l, id);
    if s.At(id).send.Some? && s.At(id).send.value.kind.Prompt? {
      StepKept(s, l, s.At(id).send.value.kind.uid);
    }
  }

  /** A process that does not move stays in order. */
  lemma IdleProc(s: State, t: State, pid: nat)
    requires ProcOk(s, pid) && pid in t.procs && pid in s.procs && t.procs[pid] == s.procs[pid]
    requires forall id :: EntryOk(s.At(id)) && Kept(s.At(id), t.At(id))
    ensures ProcOk(t, pid)
  {
    if s.procs[pid].Sweep? {
      forall id | id in s.procs[pid].due ensures EntryOk(s.At(id)) {
      }
    }
  }

  /** The process that moves stays in order. */
  lemma MovedProc(s: State, l: Label)
    requires l.Move? && Enabled(s, l) && ProcOk(s, l.pid)
    requires forall id :: EntryOk(s.At(id)) && Kept(s.At(id), Step(s, l).At(id))
    ensures ProcOk(Step(s, l), l.pid)
  {
    var p, t := s.procs[l.pid], Step(s, l);
    var id := InHand(p);
    assert EntryOk(s.At(id));
    MoveKept(s.At(id), p, l.move);
    if p.Sweep? && l.pid in t.procs {
      var q := t.procs[l.pid];
      assert forall x :: x in q.todo ==> x in p.todo;
      assert q.todo == p.todo || (q.todo == p.todo[1..] && q.spc.Next?);
      assert q.clean && q.todo != p.todo ==> InHandOk(s.At(id), p.spc) && p.spc.SweepDeadline?;
    }
  }

  lemma StepProc(s: State, l: Label, pid: nat)
    requires Inv(s) && Enabled(s, l) && Benign(s, l)
    ensures ProcOk(Step(s, l), pid)
  {
    var t := Step(s, l);
    assert ProcOk(s, pid);
    forall id ensures EntryOk(s.At(id)) && Kept(s.At(id), t.At(id)) {
      StepKept(s, l, id);
    }
    if pid in s.procs && pid in t.procs && t.procs[pid] == s.procs[pid] {
      IdleProc(s, t, pid);
    } else if l.Move? && l.pid == pid {
      MovedProc(s, l);
    }
  }

  lemma StepInv(s: State, l: Label)
    requires Inv(s) && Enabled(s, l) && Benign(s, l)
    ensures Inv(Step(s, l))
  {
    forall id ensures EntryOk(Step(s, l).At(id)) { StepKept(s, l, id); }
    forall pid ensures ProcOk(Step(s, l), pid) { StepProc(s, l, pid); }
    forall id ensures PromptOk(Step(s, l), id) { StepPrompt(s, l, id); }
  }

  // ------------------------------------------------------------------ whole runs

  ghost predicate BenignRun(s: State, ls: seq<Label>)
    requires IsRun(s, ls)
    decreases |ls|
  {
    ls == [] || (Benign(s, ls[0]) && BenignRun(Step(s, ls[0]), ls[1..]))
  }

  lemma {:induction false} RunInv(s: State, ls: seq<Label>)
    requires Inv(s) && IsRun(s, ls) && BenignRun(s, ls)
    ensures Inv(After(s, ls))
    decreases |ls|
  {
    if ls != [] {
      StepInv(s, ls[0]);
      RunInv(Step(s, ls[0]), ls[1..]);
    }
  }

  /** In every reachable state, each published request is answered, failed or deleted, or still has its whole marker. */
  lemma NobodyIsStranded(ls: seq<Label>, rid: Id)
    requires IsRun(INIT, ls) && BenignRun(INIT, ls)
    ensures var e := After(INIT, ls).At(rid);
            e.staged ==> e.row.Some? && (e.row.value.status != Pending || (e.key && e.deadline.Some?))
  {
    InitInv();
    RunInv(INIT, ls);
    assert EntryOk(After(INIT, ls).At(rid));
  }

  /** The process `pid` is the pass that set out to settle `due`. */
  ghost predicate Settling(s: State, pid: nat, due: set<Id>) {
    pid in s.procs && s.procs[pid].Sweep? && s.procs[pid].due == due
  }

  lemma {:induction false} PassGoesOn(s: State, ls: seq<Label>, pid: nat, due: set<Id>)
    requires IsRun(s, ls) && Settling(s, pid, due) && Crash(pid) !in ls
    ensures Settling(After(s, ls), pid, due)
    decreases |ls|
  {
    if ls != [] {
      assert ls[0] in ls && forall l :: l in ls[1..] ==> l in ls;
      PassGoesOn(Step(s, ls[0]), ls[1..], pid, due);
    }
  }

  /**
   A timeout pass that finishes without an error leaves no reply pending whose request was
   published and whose deadline had passed when it started, whatever runs in between.
   */
  lemma CleanPassSettlesOverdue(s: State, pid: nat, now: int, todo: seq<Id>, ls: seq<Label>, rid: Id)
    requires Inv(s) && Enabled(s, Scan(pid, now, todo)) && Benign(s, Scan(pid, now, todo))
    requires IsRun(Step(s, Scan(pid, now, todo)), ls) && BenignRun(Step(s, Scan(pid, now, todo)), ls)
    requires Crash(pid) !in ls
    requires var p := After(Step(s, Scan(pid, now, todo)), ls).procs;
             pid in p && p[pid].Sweep? && p[pid].todo == [] && p[pid].clean
    requires s.At(rid).staged && !Settled(s.At(rid)) && s.At(rid).deadline.value <= now
    ensures Settled(After(Step(s, Scan(pid, now, todo)), ls).At(rid))
  {
    var t := Step(s, Scan(pid, now, todo));
    StepInv(s, Scan(pid, now, todo));
    RunInv(t, ls);
    var due := t.procs[pid].due;
    PassGoesOn(t, ls, pid, due);
    assert EntryOk(s.At(rid));
    assert rid in due;
    assert ProcOk(After(t, ls), pid);
  }

  /** The step soft-deletes the row of an id on purpose. */
  predicate Removes(s: State, l: Label, id: Id) {
    match l
    case Remove(other) => other == id
    case Call(rid, UndoPlaceholder(deleteOk)) => deleteOk && rid == id
    case StageRequest(rid, io, deleteOk) =>
      deleteOk && if io.Done? then s.At(rid).send.Some? && s.At(rid).send.value.kind == Regeneration(Some(id)) else rid == id
    case _ => false
  }

  ghost predicate NeverRemoved(s: State, ls: seq<Label>, id: Id)
    requires IsRun(s, ls)
    decreases |ls|
  {
    ls == [] || (!Removes(s, ls[0], id) && NeverRemoved(Step(s, ls[0]), ls[1..], id))
  }

  lemma AnswerSurvivesShortStep(s: State, l: Label, rid: Id, text: string)
    requires Enabled(s, l) && Benign(s, l) && !Removes(s, l, rid) && !l.StageRequest? && !l.Move?
    requires EntryOk(s.At(rid)) && s.At(rid).role.ResponseId? && s.At(rid).row == Reply(text, Sent) && text != ""
    ensures Step(s, l).At(rid).row == Reply(text, Sent)
  {
    if l.Deliver? {
      assert s.At(rid).answered == Some(text);
    } else if l.Call? && l.rid == rid {
      AnswerSurvivesCall(s.At(rid), l.call);
    }
    hide EntryOk, Benign, AfterCall;
  }

  lemma OpeningKeepsRow(e: Entry, c: SendCall)
    requires e.send.Some? && Awaits(e.send.value, c) && (c.RedisSet? || c.RedisAdd?)
    ensures AfterCall(e, c).row == e.row
  {
  }

  lemma UndoKeepsRow(e: Entry, c: SendCall)
    requires e.send.Some? && Awaits(e.send.value, c) && (c.UndoRedisKey? || c.UndoRedisDeadline?)
    ensures AfterCall(e, c).row == e.row
  {
    hide RemovedEntry;
  }

  lemma AnswerSurvivesCall(e: Entry, c: SendCall)
    requires e.send.Some? && Awaits(e.send.value, c) && c != UndoPlaceholder(true)
    ensures AfterCall(e, c).row == e.row
  {
    if c.RedisSet? || c.RedisAdd? {
      OpeningKeepsRow(e, c);
      hide AfterCall;
    } else if c.UndoRedisKey? || c.UndoRedisDeadline? {
      UndoKeepsRow(e, c);
      hide AfterCall;
    }
  }

  lemma MoveKeepsAnswer(e: Entry, p: Proc, c: ProcCall, text: string)
    requires ProcAwaits(p, c) && e.row == Reply(text, Sent) && text != ""
    ensures AfterMove(e, p, c).row == Reply(text, Sent)
  {
  }

  lemma AnswerSurvivesMove(s: State, l: Label, rid: Id, text: string)
    requires Enabled(s, l) && l.Move?
    requires s.At(rid).row == Reply(text, Sent) && text != ""
    ensures Step(s, l).At(rid).row == Reply(text, Sent)
  {
    if InHand(s.procs[l.pid]) == rid {
      MoveKeepsAnswer(s.At(rid), s.procs[l.pid], l.move, text);
    }
    hide AfterMove, ProcAfter;
  }

  lemma AnswerSurvivesStage(s: State, l: Label, rid: Id, text: string)
    requires Enabled(s, l) && Benign(s, l) && !Removes(s, l, rid) && l.StageRequest?
    requires EntryOk(s.At(rid)) && PromptOk(s, l.rid) && EntryOk(s.At(l.rid))
    requires s.At(rid).role.ResponseId? && s.At(rid).row == Reply(text, Sent) && text != ""
    ensures Step(s, l).At(rid).row == Reply(text, Sent)
  {
    assert s.At(rid).answered.Some?;
    assert l.rid == rid ==> !OpenRegeneration(s.At(rid)) && s.At(rid).send.value.kind.Prompt?;
    assert s.At(l.rid).send.value.kind.Prompt? ==> s.At(l.rid).send.value.kind.uid != rid;
    hide EntryOk, PromptOk, Benign, Settled, Opening, OpenRegeneration;
  }

  lemma AnswerSurvivesStep(s: State, l: Label, rid: Id, text: string)
    requires Inv(s) && Enabled(s, l) && Benign(s, l) && !Removes(s, l, rid)
    requires s.At(rid).role.ResponseId? && s.At(rid).row == Reply(text, Sent) && text != ""
    ensures Step(s, l).At(rid).row == Reply(text, Sent)
  {
    assert EntryOk(s.At(rid));
    hide Step;
    if l.StageRequest? {
      assert PromptOk(s, l.rid) && EntryOk(s.At(l.rid));
      AnswerSurvivesStage(s, l, rid, text);
    } else if l.Move? {
      AnswerSurvivesMove(s, l, rid, text);
    } else {
      AnswerSurvivesShortStep(s, l, rid, text);
    }
  }

  /** A stored answer with text in it is never failed or changed: not by errors, redelivery or timeouts. */
  lemma {:induction false} AnswerStays(s: State, ls: seq<Label>, rid: Id, text: string)
    requires Inv(s) && IsRun(s, ls) && BenignRun(s, ls) && NeverRemoved(s, ls, rid)
    requires s.At(rid).role.ResponseId? && s.At(rid).row == Reply(text, Sent) && text != ""
    ensures After(s, ls).At(rid).row == Reply(text, Sent)
    decreases |ls|
  {
    if ls != [] {
      AnswerSurvivesStep(s, ls[0], rid, text);
      StepKept(s, ls[0], rid);
      StepInv(s, ls[0]);
      AnswerStays(Step(s, ls[0]), ls[1..], rid, text);
    }
  }
}
