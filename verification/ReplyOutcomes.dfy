/**
 More on the reply protocol: prompts are never touched, a late answer wins, and the conditions of
 `ReplyGuarantees.Benign` are exact: each step that is not benign can be followed by benign ones
 that strand a request.
 */
module ReplyOutcomes {
  import opened Wrappers
  import opened MessageRows
  import opened ReplyProtocol
  import opened ReplyGuarantees

  // ------------------------------------------------------------------ prompts, in every run whatever its steps

  /** The call is about to store a prompt under `uid`. */
  predicate WillStore(e: Entry, uid: Id) {
    Opening(e) && e.send.value.kind.Prompt? && e.send.value.kind.uid == uid
  }

  predicate RoleOk(e: Entry) {
    && (e.key || e.deadline.Some? || e.send.Some? ==> e.role.ResponseId?)
    && (e.role.ResponseId? ==> e.row.Some? && e.row.value.sender == Assistant)
    && (e.row.Some? && e.row.value.sender == User ==> e.role.PromptId?)
  }

  ghost predicate PromptsOk(s: State) {
    && (forall id :: RoleOk(s.At(id)))
    && (forall a, uid :: WillStore(s.At(a), uid) ==>
          s.At(uid).role.PromptId? && !HoldsPrompt(s.At(uid)))
    && (forall a, b, uid :: WillStore(s.At(a), uid) && WillStore(s.At(b), uid) ==> a == b)
    && (forall pid, id :: pid in s.procs && s.procs[pid].Sweep? && id in s.procs[pid].todo ==> s.At(id).role.ResponseId?)
  }

  /** Sender and text of a prompt, if there is one. */
  predicate SamePrompt(e: Entry, f: Entry) {
    e.row.Some? && e.row.value.sender == User ==>
      f.row.Some? && f.row.value.sender == User && f.row.value.content == e.row.value.content
  }

  predicate HoldsPrompt(e: Entry) {
    e.row.Some? && e.row.value.sender == User
  }

  /** What a step does to one record, unless it stores a prompt there. */
  predicate Respects(e: Entry, f: Entry) {
    && RoleOk(f)
    && SamePrompt(e, f)
    && (e.role != Unallocated ==> f.role == e.role && (HoldsPrompt(f) ==> HoldsPrompt(e)))
    && (e.role != Unallocated && Opening(f) ==> Opening(e) && f.send.value.kind == e.send.value.kind)
  }

  lemma CallRespects(e: Entry, c: SendCall)
    requires RoleOk(e) && e.send.Some? && Awaits(e.send.value, c)
    ensures Respects(e, AfterCall(e, c))
  {
  }

  lemma ShortStepRespects(s: State, l: Label, id: Id)
    requires Enabled(s, l) && RoleOk(s.At(id)) && !l.StageRequest? && !l.Move?
    ensures Respects(s.At(id), Step(s, l).At(id))
    ensures !l.Begin? && Opening(Step(s, l).At(id)) ==> Opening(s.At(id))
  {
    if l.Call? && l.rid == id {
      CallRespects(s.At(id), l.call);
    }
  }

  lemma MoveRespects(e: Entry, p: Proc, c: ProcCall)
    requires RoleOk(e) && ProcAwaits(p, c) && (p.Sweep? ==> e.role.ResponseId?)
    ensures Respects(e, AfterMove(e, p, c))
    ensures Opening(AfterMove(e, p, c)) ==> Opening(e)
  {
  }

  lemma MoveStepRespects(s: State, l: Label, id: Id)
    requires l.Move? && Enabled(s, l) && RoleOk(s.At(id))
    requires s.procs[l.pid].Sweep? ==> s.At(InHand(s.procs[l.pid])).role.ResponseId?
    ensures Respects(s.At(id), Step(s, l).At(id))
    ensures Opening(Step(s, l).At(id)) ==> Opening(s.At(id))
  {
    if InHand(s.procs[l.pid]) == id {
      MoveRespects(s.At(id), s.procs[l.pid], l.move);
    }
  }

  lemma StagedRespects(e: Entry, io: Io, deleteOk: bool)
    requires RoleOk(e) && e.send.Some?
    ensures var f := AfterStage(e, io, deleteOk);
            Respects(e, f) && !Opening(f) && f.role == e.role && f.row.Some? && f.row.value.sender == Assistant
  {
  }

  lemma RemovedRespects(e: Entry)
    requires RoleOk(e)
    ensures RoleOk(RemovedEntry(e)) && SamePrompt(e, RemovedEntry(e)) && (HoldsPrompt(RemovedEntry(e)) ==> HoldsPrompt(e))
  {
  }

  lemma StageRespects(s: State, l: Label, id: Id)
    requires l.StageRequest? && Enabled(s, l) && RoleOk(s.At(id)) && RoleOk(s.At(l.rid))
    requires WillStore(s.At(l.rid), id) ==> s.At(id).role.PromptId? && !HoldsPrompt(s.At(id))
    ensures WillStore(s.At(l.rid), id) || Respects(s.At(id), Step(s, l).At(id))
    ensures RoleOk(Step(s, l).At(id)) && SamePrompt(s.At(id), Step(s, l).At(id))
    ensures Step(s, l).At(id).role == s.At(id).role && !Opening(Step(s, l).At(l.rid))
    ensures Opening(Step(s, l).At(id)) ==> Opening(s.At(id)) && Step(s, l).At(id).send == s.At(id).send
  {
    StageTouches(s, l, id);
    StageTouches(s, l, l.rid);
    StagedRespects(s.At(l.rid), l.io, l.deleteOk);
    RemovedRespects(s.At(id));
    RemovedRespects(AfterStage(s.At(l.rid), l.io, l.deleteOk));
    hide Step, AfterStage;
  }

  /** A step other than the batch, on any record. */
  lemma OtherStepRespects(s: State, l: Label, id: Id)
    requires PromptsOk(s) && Enabled(s, l) && !l.StageRequest?
    ensures Respects(s.At(id), Step(s, l).At(id))
    ensures !l.Begin? && Opening(Step(s, l).At(id)) ==> Opening(s.At(id))
  {
    assert RoleOk(s.At(id));
    if l.Move? {
      assert s.procs[l.pid].Sweep? ==> InHand(s.procs[l.pid]) in s.procs[l.pid].todo;
      MoveStepRespects(s, l, id);
    } else {
      ShortStepRespects(s, l, id);
    }
  }

  lemma StepRoles(s: State, l: Label, id: Id)
    requires PromptsOk(s) && Enabled(s, l)
    ensures RoleOk(Step(s, l).At(id)) && SamePrompt(s.At(id), Step(s, l).At(id))
    ensures s.At(id).role != Unallocated ==> Step(s, l).At(id).role == s.At(id).role
  {
    if l.StageRequest? {
      assert RoleOk(s.At(id)) && RoleOk(s.At(l.rid));
      StageRespects(s, l, id);
    } else {
      OtherStepRespects(s, l, id);
    }
  }

  lemma StepWillStore(s: State, l: Label, a: Id, uid: Id)
    requires PromptsOk(s) && Enabled(s, l) && WillStore(Step(s, l).At(a), uid)
    ensures WillStore(s.At(a), uid) || (l.Begin? && l.rid == a && l.kind.Prompt? && l.kind.uid == uid)
    ensures Step(s, l).At(uid).role.PromptId? && !HoldsPrompt(Step(s, l).At(uid))
  {
    if l.StageRequest? {
      assert RoleOk(s.At(a)) && RoleOk(s.At(l.rid)) && RoleOk(s.At(uid));
      StageRespects(s, l, a);
      StageRespects(s, l, uid);
    } else {
      OtherStepRespects(s, l, a);
      OtherStepRespects(s, l, uid);
    }
  }

  lemma StepPrompts(s: State, l: Label)
    requires PromptsOk(s) && Enabled(s, l)
    ensures PromptsOk(Step(s, l))
  {
    var t := Step(s, l);
    forall id
      ensures RoleOk(t.At(id))
      ensures s.At(id).role.ResponseId? ==> t.At(id).role.ResponseId?
    {
      StepRoles(s, l, id);
    }
    forall a, uid | WillStore(t.At(a), uid)
      ensures t.At(uid).role.PromptId? && !HoldsPrompt(t.At(uid))
    {
      StepWillStore(s, l, a, uid);
    }
    forall a, b, uid | WillStore(t.At(a), uid) && WillStore(t.At(b), uid)
      ensures a == b
    {
      StepWillStore(s, l, a, uid);
      StepWillStore(s, l, b, uid);
    }
    StepTodo(s, l);
  }

  lemma StepTodo(s: State, l: Label)
    requires PromptsOk(s) && Enabled(s, l)
    ensures forall pid, id :: pid in Step(s, l).procs && Step(s, l).procs[pid].Sweep? && id in Step(s, l).procs[pid].todo ==>
              Step(s, l).At(id).role.ResponseId?
  {
    var t := Step(s, l);
    forall pid, id | pid in t.procs && t.procs[pid].Sweep? && id in t.procs[pid].todo
      ensures t.At(id).role.ResponseId?
    {
      StepRoles(s, l, id);
      assert RoleOk(s.At(id));
    }
  }

  /** No run ever changes the sender or the text of a prompt, whatever its steps, even replies for unknown ids. */
  lemma {:induction false} PromptsNeverChange(s: State, ls: seq<Label>, uid: Id)
    requires PromptsOk(s) && IsRun(s, ls)
    requires s.At(uid).row.Some? && s.At(uid).row.value.sender == User
    ensures var row := After(s, ls).At(uid).row;
            row.Some? && row.value.sender == User && row.value.content == s.At(uid).row.value.content
    decreases |ls|
  {
    if ls != [] {
      StepRoles(s, ls[0], uid);
      StepPrompts(s, ls[0]);
      PromptsNeverChange(Step(s, ls[0]), ls[1..], uid);
    }
  }

  /** `PromptsOk` holds in every reachable state. */
  lemma {:induction false} RunPrompts(s: State, ls: seq<Label>)
    requires PromptsOk(s) && IsRun(s, ls)
    ensures PromptsOk(INIT) && PromptsOk(After(s, ls))
    decreases |ls|
  {
    if ls != [] {
      StepPrompts(s, ls[0]);
      RunPrompts(Step(s, ls[0]), ls[1..]);
    }
  }

  // ------------------------------------------------------------------ a late answer wins

  lemma {:induction false} RunRemembers(s: State, ls: seq<Label>, rid: Id)
    requires Inv(s) && IsRun(s, ls) && BenignRun(s, ls)
    ensures Remembers(s.At(rid), After(s, ls).At(rid)) && (s.At(rid).staged ==> After(s, ls).At(rid).staged)
    decreases |ls|
  {
    if ls != [] {
      StepKept(s, ls[0], rid);
      StepInv(s, ls[0]);
      RunRemembers(Step(s, ls[0]), ls[1..], rid);
    }
  }

  /**
   Deliver the success event of a published request any number of times, with crashes before the
   inbox is saved, and run any number of timeout passes before, between and after: once it was
   delivered, the row holds the answer, unless it was deleted on purpose or an error event for
   the same reply came first.
   */
  lemma Confluence(s: State, pid: nat, rid: Id, text: string, ls: seq<Label>)
    requires Inv(s) && Enabled(s, Deliver(pid, rid, true, text)) && s.At(rid).staged
    requires IsRun(Step(s, Deliver(pid, rid, true, text)), ls)
    requires BenignRun(Step(s, Deliver(pid, rid, true, text)), ls)
    requires var e := After(Step(s, Deliver(pid, rid, true, text)), ls).At(rid);
             !e.removed && (!e.errored || (text != "" && (s.At(rid).answered.Some? || !s.At(rid).inbox)))
    ensures After(Step(s, Deliver(pid, rid, true, text)), ls).At(rid).row == Reply(text, Sent)
  {
    var l := Deliver(pid, rid, true, text);
    var t := Step(s, l);
    assert EntryOk(s.At(rid));
    StepInv(s, l);
    RunInv(t, ls);
    StepKept(s, l, rid);
    RunRemembers(t, ls, rid);
    assert EntryOk(After(t, ls).At(rid));
  }

  /**
   So the answer wins over the timeout: a pass writes the timeout message into a pending reply, anything
   benign happens, the success event comes at last, and anything benign happens again. The row ends with
   the answer, unless it was deleted on purpose or the event was a duplicate.
   */
  lemma LateAnswerWins(s: State, sweeper: nat, mid: seq<Label>, pid: nat, rid: Id, text: string, ls: seq<Label>)
    requires Inv(s) && s.At(rid).staged && s.At(rid).row == Reply("", Pending)
    requires Enabled(s, Move(sweeper, Judge)) && InHand(s.procs[sweeper]) == rid && s.procs[sweeper].spc.found
    requires var t := Step(s, Move(sweeper, Judge));
             && IsRun(t, mid) && BenignRun(t, mid)
             && var u := After(t, mid);
                && !u.At(rid).inbox && text != "" && Enabled(u, Deliver(pid, rid, true, text))
                && var v := Step(u, Deliver(pid, rid, true, text));
                   IsRun(v, ls) && BenignRun(v, ls) && !After(v, ls).At(rid).removed
    ensures var t := Step(s, Move(sweeper, Judge));
            && t.At(rid).row == Reply(TIMEOUT_MESSAGE, Failed)
            && After(Step(After(t, mid), Deliver(pid, rid, true, text)), ls).At(rid).row == Reply(text, Sent)
  {
    var t := Step(s, Move(sweeper, Judge));
    assert t.At(rid).row == Reply(TIMEOUT_MESSAGE, Failed) && t.At(rid).staged;
    StepInv(s, Move(sweeper, Judge));
    hide Inv, Step, Enabled, IsRun, After;
    RunInv(t, mid);
    RunRemembers(t, mid, rid);
    Confluence(After(t, mid), pid, rid, text, ls);
  }

  // ------------------------------------------------------------------ why the conditions are there

  /** Benign in any state. */
  predicate Harmless(l: Label) {
    l.Move? || l.Call? || (l.StageRequest? && l.io.Done?)
  }

  lemma {:induction false} HarmlessRun(s: State, ls: seq<Label>)
    requires IsRun(s, ls) && forall l :: l in ls ==> Harmless(l)
    ensures BenignRun(s, ls)
    decreases |ls|
  {
    if ls != [] {
      assert Harmless(ls[0]) && forall l :: l in ls[1..] ==> l in ls;
      HarmlessRun(Step(s, ls[0]), ls[1..]);
    }
  }

  /** A pass that fails on its next n entries. */
  function Skipping(pid: nat, n: nat): seq<Label> {
    if n == 0 then [] else [Move(pid, SweepError)] + Skipping(pid, n - 1)
  }

  ghost predicate SameEntries(s: State, t: State) {
    forall id :: t.At(id) == s.At(id)
  }

  lemma {:induction false} SkippingRuns(s: State, pid: nat, n: nat)
    requires pid in s.procs && s.procs[pid].Sweep? && s.procs[pid].spc == Next && n <= |s.procs[pid].todo|
    ensures var ls := Skipping(pid, n);
            && IsRun(s, ls) && (forall l :: l in ls ==> Harmless(l))
            && var t := After(s, ls);
               && SameEntries(s, t)
               && pid in t.procs && t.procs[pid].Sweep? && t.procs[pid].spc == Next
               && t.procs[pid].todo == s.procs[pid].todo[n..]
    decreases n
  {
    if n > 0 {
      var l := Move(pid, SweepError);
      var t := Step(s, l);
      assert SameEntries(s, t);
      assert t.procs[pid].todo == s.procs[pid].todo[1..];
      assert s.procs[pid].todo[1..][n - 1..] == s.procs[pid].todo[n..];
      hide Step, Enabled;
      SkippingRuns(t, pid, n - 1);
      RunCons(s, l, Skipping(pid, n - 1));
    }
  }

  /** A pass that finds the marker of its next entry fails the reply and clears the marker. */
  function Settles(pid: nat): seq<Label> {
    [Move(pid, Probe), Move(pid, Judge)] + [Move(pid, SweepDropKey(Done)), Move(pid, SweepDropDeadline(Done))]
  }

  lemma SettlesRuns(s: State, pid: nat, rid: Id)
    requires pid in s.procs && s.procs[pid].Sweep? && s.procs[pid].spc == Next
    requires s.procs[pid].todo != [] && s.procs[pid].todo[0] == rid && s.At(rid).key
    ensures var ls := Settles(pid);
            && IsRun(s, ls) && (forall l :: l in ls ==> Harmless(l))
            && After(s, ls).At(rid) == s.At(rid).(row := TimedOut(s.At(rid).row), key := false, deadline := None)
  {
    hide IsRun, After, TimedOut;
    var t := Step(Step(s, Move(pid, Probe)), Move(pid, Judge));
    RunPair(s, Move(pid, Probe), Move(pid, Judge));
    RunPair(t, Move(pid, SweepDropKey(Done)), Move(pid, SweepDropDeadline(Done)));
    hide Step, Enabled;
    RunConcat(s, [Move(pid, Probe), Move(pid, Judge)], [Move(pid, SweepDropKey(Done)), Move(pid, SweepDropDeadline(Done))]);
  }

  /** How a pass that started at `todo` strands the reply at place k. */
  function Stranding(pid: nat, k: nat, rid: Id): seq<Label> {
    Skipping(pid, k) + Settles(pid) + [StageRequest(rid, Done, false)]
  }

  /**
   If the deadline of a `regenerate` call passes before its batch, a timeout pass clears the
   marker and the batch then opens the row again: published, pending, and nobody will ever fail it.
   Whenever a pass starts in such a state, this can follow, with benign steps only.
   */
  lemma LateScanStrands(s: State, pid: nat, now: int, todo: seq<Id>, k: nat)
    requires Enabled(s, Scan(pid, now, todo)) && k < |todo|
    requires EntryOk(s.At(todo[k])) && OpenRegeneration(s.At(todo[k]))
    ensures var t, ls := Step(s, Scan(pid, now, todo)), Stranding(pid, k, todo[k]);
            && IsRun(t, ls) && BenignRun(t, ls)
            && !NotStranded(After(t, ls).At(todo[k])) && After(t, ls).At(todo[k]).row == Reply("", Pending)
  {
    var rid := todo[k];
    var t := Step(s, Scan(pid, now, todo));
    var e := s.At(rid);
    assert Overdue(e, now);
    assert e.send.value.pc.Stage? && e.key;
    assert t.At(rid) == e;
    hide IsRun, After, Step, NotStranded, TimedOut;
    SkippingRuns(t, pid, k);
    var u := After(t, Skipping(pid, k));
    assert u.At(rid) == e;
    SettlesRuns(u, pid, rid);
    var v := After(u, Settles(pid));
    ReopensRuns(v, rid);
    RunConcat(t, Skipping(pid, k), Settles(pid));
    RunConcat(t, Skipping(pid, k) + Settles(pid), [StageRequest(rid, Done, false)]);
    HarmlessRun(t, Stranding(pid, k, rid));
  }

  lemma ReopensRuns(s: State, rid: Id)
    requires s.At(rid).send.Some? && s.At(rid).send.value.pc.Stage? && s.At(rid).send.value.kind.Regeneration?
    requires !s.At(rid).key
    ensures var ls := [StageRequest(rid, Done, false)];
            IsRun(s, ls) && After(s, ls).At(rid).row == Reply("", Pending) && !NotStranded(After(s, ls).At(rid))
  {
    RunSnoc(s, [], StageRequest(rid, Done, false));
    assert [] + [StageRequest(rid, Done, false)] == [StageRequest(rid, Done, false)];
  }

  /** The compensation after a batch whose error was only reported, when the placeholder stays. */
  function Undoing(rid: Id): seq<Label> {
    [Call(rid, UndoRedisKey(Done)), Call(rid, UndoRedisDeadline(Done))]
  }

  /**
   If the batch was applied although it reported an error, and the removal of the placeholder fails
   too, the compensation clears the marker of a request that is published. It is stranded by that
   exactly if the step was not benign.
   */
  lemma FailedCleanupStrands(s: State, rid: Id)
    requires Enabled(s, StageRequest(rid, Applied, false)) && EntryOk(s.At(rid)) && PromptOk(s, rid)
    ensures var t, ls := Step(s, StageRequest(rid, Applied, false)), Undoing(rid);
            && IsRun(t, ls) && BenignRun(t, ls)
            && (NotStranded(After(t, ls).At(rid)) <==> Benign(s, StageRequest(rid, Applied, false)))
  {
    var t := Step(s, StageRequest(rid, Applied, false));
    assert t.At(rid) == SendTo(StagedEntry(s.At(rid), s.At(rid).send.value.kind), UndoKey(false));
    UndoingRuns(t, rid);
    HarmlessRun(t, Undoing(rid));
  }

  lemma UndoingRuns(s: State, rid: Id)
    requires s.At(rid).send.Some? && s.At(rid).send.value.pc == UndoKey(false)
    ensures IsRun(s, Undoing(rid))
    ensures After(s, Undoing(rid)).At(rid) == s.At(rid).(key := false, deadline := None, send := None)
  {
    RunPair(s, Undoing(rid)[0], Undoing(rid)[1]);
  }

  /** A regeneration goes on to its batch. */
  function Opens(rid: Id, pc: SendPc): seq<Label>
    decreases if pc.SetKey? then 2 else if pc.AddDeadline? then 1 else 0
  {
    match pc
    case SetKey => [Call(rid, RedisSet(Done))] + Opens(rid, AddDeadline)
    case AddDeadline => [Call(rid, RedisAdd(0, Done))] + Opens(rid, Stage)
    case _ => [StageRequest(rid, Done, false)]
  }

  lemma CallReaches(s: State, rid: Id, c: SendCall)
    requires Enabled(s, Call(rid, c))
    ensures var t := Step(s, Call(rid, c)); t.At(rid) == AfterCall(s.At(rid), c) && t.procs == s.procs
  {
  }

  lemma {:induction false} OpensRuns(s: State, rid: Id)
    requires OpenRegeneration(s.At(rid))
    ensures var ls := Opens(rid, s.At(rid).send.value.pc);
            && IsRun(s, ls) && (forall l :: l in ls ==> Harmless(l))
            && var t := After(s, ls);
               t.At(rid).staged && t.At(rid).row == Reply("", Pending) && t.procs == s.procs
    decreases if s.At(rid).send.value.pc.SetKey? then 2 else if s.At(rid).send.value.pc.AddDeadline? then 1 else 0
  {
    var pc := s.At(rid).send.value.pc;
    var l := Opens(rid, pc)[0];
    if pc.Stage? {
      RunSnoc(s, [], l);
      assert [] + [l] == [l];
    } else {
      assert Enabled(s, l);
      CallReaches(s, rid, l.call);
      hide Step, Enabled;
      var t := Step(s, l);
      OpensRuns(t, rid);
      RunCons(s, l, Opens(rid, t.At(rid).send.value.pc));
    }
  }

  function EarlyReply(pid: nat, rid: Id, pc: SendPc): seq<Label> {
    Opens(rid, pc) + [Move(pid, HandlerKey(Done)), Move(pid, HandlerDeadline(Done))]
  }

  /**
   If a reply comes for a regeneration that has not been published yet, its handler may clear the
   marker after the batch has opened the row again.
   */
  lemma EarlyReplyStrands(s: State, l: Label)
    requires Inv(s) && Enabled(s, l) && l.Deliver? && OpenRegeneration(s.At(l.rid))
    ensures var t, ls := Step(s, l), EarlyReply(l.pid, l.rid, s.At(l.rid).send.value.pc);
            && IsRun(t, ls) && BenignRun(t, ls)
            && !NotStranded(After(t, ls).At(l.rid)) && After(t, ls).At(l.rid).row == Reply("", Pending)
  {
    var rid, pc := l.rid, s.At(l.rid).send.value.pc;
    assert EntryOk(s.At(rid));
    var t := Step(s, l);
    assert t.At(rid).send == s.At(rid).send && l.pid in t.procs && t.procs[l.pid] == Handler(rid, DropKey);
    hide IsRun, After, Inv;
    OpensRuns(t, rid);
    var u := After(t, Opens(rid, pc));
    HandlerClears(u, l.pid, rid);
    RunConcat(t, Opens(rid, pc), [Move(l.pid, HandlerKey(Done)), Move(l.pid, HandlerDeadline(Done))]);
    HarmlessRun(t, EarlyReply(l.pid, rid, pc));
  }

  lemma HandlerClears(s: State, pid: nat, rid: Id)
    requires pid in s.procs && s.procs[pid] == Handler(rid, DropKey)
    ensures var ls := [Move(pid, HandlerKey(Done)), Move(pid, HandlerDeadline(Done))];
            IsRun(s, ls) && After(s, ls).At(rid) == s.At(rid).(key := false, deadline := None)
  {
    RunPair(s, Move(pid, HandlerKey(Done)), Move(pid, HandlerDeadline(Done)));
  }

  /** Whatever benign steps follow, nobody is ever stranded. */
  ghost predicate StaysSafe(s: State) {
    forall ls, rid {:trigger After(s, ls).At(rid)} :: IsRun(s, ls) && BenignRun(s, ls) ==> NotStranded(After(s, ls).At(rid))
  }

  /** The conditions are exact: a step is safe, whatever benign steps follow, if and only if it is benign itself. */
  lemma BenignIsExact(s: State, l: Label)
    requires Inv(s) && Enabled(s, l)
    ensures Benign(s, l) <==> StaysSafe(Step(s, l))
  {
    var t := Step(s, l);
    hide Step, IsRun, After;
    if Benign(s, l) {
      StepInv(s, l);
      forall ls, rid | IsRun(t, ls) && BenignRun(t, ls) ensures NotStranded(After(t, ls).At(rid)) {
        RunInv(t, ls);
        assert EntryOk(After(t, ls).At(rid));
      }
    } else if l.Scan? {
      var k :| 0 <= k < |l.todo| && OpenRegeneration(s.At(l.todo[k]));
      assert EntryOk(s.At(l.todo[k]));
      LateScanStrands(s, l.pid, l.now, l.todo, k);
    } else if l.Deliver? {
      EarlyReplyStrands(s, l);
    } else {
      assert EntryOk(s.At(l.rid)) && PromptOk(s, l.rid);
      FailedCleanupStrands(s, l.rid);
    }
  }

  // ------------------------------------------------------------------ reached from the start

  /** A reply opened under id 1, its marker complete and due at 120. */
  function Opened(kind: Kind): seq<Label> {
    [Begin(1, kind)] + [Call(1, RedisSet(Done)), Call(1, RedisAdd(120, Done))]
  }

  lemma OpenedRuns(kind: Kind)
    requires kind.Prompt? ==> kind.uid == 2
    ensures IsRun(INIT, Opened(kind))
    ensures After(INIT, Opened(kind)).At(1) ==
              Entry(Reply("", Pending), true, Some(120), false, false, Some(Send(kind, Stage)), ResponseId, None, false, false)
    ensures After(INIT, Opened(kind)).entries.Keys <= {1, 2} && After(INIT, Opened(kind)).procs == map[]
    ensures After(INIT, Opened(kind)).At(2).deadline.None?
  {
    var s := Step(INIT, Begin(1, kind));
    RunPair(s, Call(1, RedisSet(Done)), Call(1, RedisAdd(120, Done)));
    RunCons(INIT, Begin(1, kind), [Call(1, RedisSet(Done)), Call(1, RedisAdd(120, Done))]);
  }

  const REGENERATION := Regeneration(None)

  /** A regeneration whose deadline passes, and a pass that starts just then. */
  lemma LateRegenerationIsStranded()
    ensures var ls := Opened(REGENERATION) + ([Scan(0, 121, [1])] + Stranding(0, 0, 1));
            && IsRun(INIT, ls)
            && !NotStranded(After(INIT, ls).At(1))
            && After(INIT, ls).At(1).row == Reply("", Pending)
  {
    OpenedRuns(REGENERATION);
    hide IsRun, After;
    var s := After(INIT, Opened(REGENERATION));
    assert EntryOk(s.At(1)) && Enabled(s, Scan(0, 121, [1]));
    LateScanStrands(s, 0, 121, [1], 0);
    RunCons(s, Scan(0, 121, [1]), Stranding(0, 0, 1));
    RunConcat(INIT, Opened(REGENERATION), [Scan(0, 121, [1])] + Stranding(0, 0, 1));
  }

  /** A send whose batch is applied but reported as failed, and whose placeholder cannot be removed. */
  lemma FailedCleanupIsStranded()
    ensures var ls := Opened(Prompt(2, "hi")) + ([StageRequest(1, Applied, false)] + Undoing(1));
            IsRun(INIT, ls) && !NotStranded(After(INIT, ls).At(1))
  {
    OpenedRuns(Prompt(2, "hi"));
    hide IsRun, After;
    var s := After(INIT, Opened(Prompt(2, "hi")));
    FailedCleanupStrands(s, 1);
    RunCons(s, StageRequest(1, Applied, false), Undoing(1));
    RunConcat(INIT, Opened(Prompt(2, "hi")), [StageRequest(1, Applied, false)] + Undoing(1));
  }

  // ------------------------------------------------------------------ one final event for each reply

  /**
   The success event of a published reply is stored exactly if no final event was handled to the
   end before, or it is the stored one: a handled error event shuts it out, since both share one
   inbox id.
   */
  lemma DeliveryStores(s: State, pid: nat, rid: Id, text: string)
    requires Inv(s) && Enabled(s, Deliver(pid, rid, true, text)) && s.At(rid).staged && !s.At(rid).removed
    ensures var stored := Step(s, Deliver(pid, rid, true, text)).At(rid).row == Reply(text, Sent);
            && (stored <==> !s.At(rid).inbox || s.At(rid).row == Reply(text, Sent))
            && (text != "" ==> (stored <==> !(s.At(rid).inbox && s.At(rid).answered.None?)))
            && (!stored ==> s.At(rid).errored)
  {
    assert EntryOk(s.At(rid));
  }

  function ErrorHandled(rid: Id, error: string): seq<Label> {
    [Deliver(0, rid, false, error), Move(0, HandlerKey(Done)), Move(0, HandlerDeadline(Done)), Move(0, HandlerSave)]
  }

  /** An error event that is handled to the end shuts out a later success event: both share one inbox id. */
  lemma ErrorShutsOutTheAnswer(s: State, rid: Id, error: string, text: string)
    requires s.procs == map[] && !s.At(rid).inbox && s.At(rid).answered.None?
    requires s.At(rid).row == Reply("", Pending)
    ensures var ls := ErrorHandled(rid, error) + [Deliver(0, rid, true, text)];
            IsRun(s, ls) && After(s, ls).At(rid).row == Reply(error, Failed)
  {
    var ls := ErrorHandled(rid, error) + [Deliver(0, rid, true, text)];
    var s1 := Step(s, ls[0]);
    assert s1.At(rid) == s.At(rid).(row := Reply(error, Failed), errored := true);
    var s2 := Step(s1, ls[1]);
    var s3 := Step(s2, ls[2]);
    var s4 := Step(s3, ls[3]);
    assert s4.At(rid) == s1.At(rid).(key := false, deadline := None, inbox := true) && 0 !in s4.procs;
    RunCons(s4, ls[4], []);
    RunCons(s3, ls[3], [ls[4]]);
    RunCons(s2, ls[2], [ls[3]] + [ls[4]]);
    RunCons(s1, ls[1], [ls[2]] + ([ls[3]] + [ls[4]]));
    RunCons(s, ls[0], [ls[1]] + ([ls[2]] + ([ls[3]] + [ls[4]])));
    assert ls == [ls[0]] + ([ls[1]] + ([ls[2]] + ([ls[3]] + [ls[4]])));
  }
}
