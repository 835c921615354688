/** What holds of each connection by itself: its queue is a bounded channel, and its reader does
    exactly what its inputs call for. */
module DeliveryQueues {
  import opened GoTypes
  import opened Serializer
  import opened SocketManagers
  import opened Delivery

  // ---------------------------------------------------------------- the channel to the writer

  /** Everything queued was written, or is the one message whose writing failed, or still waits;
      in this order. */
  ghost predicate Fifo(k: Socket) {
    && |k.queue| <= QUEUE_LIMIT
    && k.queued == k.wire + k.lost + k.queue
    && |k.lost| <= 1 && (k.lost != [] ==> k.writer.Stopped?)
    && (k.phase.Starting? <==> k.writer.NotStarted?)
  }

  lemma FifoStep(sv: Server, c: nat, k: Socket, l: Label)
    requires AtSocket(l) && EnabledAt(k, true, l) && Fifo(k)
    ensures Fifo(StepAt(sv, c, k, l))
  {
    hide Parsed, ActsFor, InputTasks, PassesAfter;
  }

  lemma {:induction false} FifoHolds(sv: Server, run: seq<Moment>, c: nat)
    requires IsRun(sv, run) && c < |After(run).sockets|
    ensures Fifo(After(run).sockets[c])
  {
    hide Next, Enabled, StepAt, EnabledAt, Enqueued, Announced, Fifo;
    if run != [] {
      LastStep(sv, run);
      var before, l := run[..|run| - 1], run[|run| - 1].step;
      var s := After(before);
      SocketChanges(sv, s, l, c);
      if c < |s.sockets| {
        FifoHolds(sv, before, c);
        var k := s.sockets[c];
        if IsOwnStep(sv, c, k, After(run).sockets[c], l) {
          FifoStep(sv, c, k, l);
        } else if IsDelivery(s, c, k, After(run).sockets[c], l) {
          FifoEnqueued(k, Response(s.ackLoop.route.rec, true));
        }
      } else {
        FifoNew(sv, c, l.uuid, l.identity, l.event);
      }
    }
  }

  lemma FifoEnqueued(k: Socket, r: Response)
    requires Fifo(k) && |k.queue| < QUEUE_LIMIT
    ensures Fifo(Enqueued(k, r))
  {
  }

  lemma FifoNew(sv: Server, c: nat, uuid: string, identity: RequestIdentity, event: Option<RecordValue>)
    ensures Fifo(Announced(sv, c, NewSocket(uuid, identity), event))
  {
    hide Parsed, ActsFor, InputTasks;
  }

  /** In every run, the queue of a connection never exceeds its limit, and what its writer puts on
      the wire is a prefix of what was queued: nothing is reordered, repeated or skipped. At most
      one message is lost, and then nothing is written after it. */
  lemma WireIsPrefix(sv: Server, run: seq<Moment>, c: nat)
    requires IsRun(sv, run) && c < |After(run).sockets|
    ensures var k := After(run).sockets[c];
            && |k.queue| <= 1000
            && k.wire <= k.queued
            && |k.queued| == |k.wire| + |k.lost| + |k.queue| && |k.lost| <= 1
            && (k.lost != [] ==> k.writer.Stopped? && k.lost[0] == k.queued[|k.wire|])
  {
    FifoHolds(sv, run, c);
  }

  // ---------------------------------------------------------------- what the reader does

  /** The tasks that are begun: all of them, or those up to the first that panics. */
  ghost function ReachedTasks(tasks: seq<Task>): (r: seq<Task>)
    ensures r <= tasks
  {
    if tasks == [] then []
    else if TaskCrashes(tasks[0]) then [tasks[0]]
    else [tasks[0]] + ReachedTasks(tasks[1..])
  }

  lemma ReachedFirst(tasks: seq<Task>)
    requires tasks != []
    ensures ReachedTasks(tasks) == [tasks[0]] + if TaskCrashes(tasks[0]) then [] else ReachedTasks(tasks[1..])
  {
  }

  lemma OneMoreTask(rec: Rec, act: Act, acts: seq<Act>)
    ensures Tasks(rec, [act] + acts) == [Do(rec, act)] + Tasks(rec, acts)
  {
  }

  lemma {:induction false} ReachedAreTasks(rec: Rec, acts: seq<Act>)
    ensures ReachedTasks(Tasks(rec, acts)) == Tasks(rec, Reached(rec.value, acts))
  {
    if acts != [] {
      var first, rest := acts[0], acts[1..];
      assert TaskCrashes(Do(rec, first)) == CrashesAct(rec.value, first);
      hide Reached, ReachedTasks, TaskCrashes, CrashesAct;
      assert acts == [first] + rest && Tasks(rec, acts)[1..] == Tasks(rec, rest);
      ReachedFirst(Tasks(rec, acts));
      ReachedFrom(rec.value, acts);
      OneMoreTask(rec, first, if CrashesAct(rec.value, first) then [] else Reached(rec.value, rest));
      ReachedAreTasks(rec, rest);
    }
  }

  /** Everything that is begun about the inputs of a connection, in order. */
  ghost function TasksOf(c: nat, conn: Connection, inputs: seq<Input>): (tasks: seq<Task>) {
    if inputs == [] then []
    else TasksOf(c, conn, inputs[..|inputs| - 1]) + ReachedTasks(InputTasks(c, conn, |inputs| - 1, inputs[|inputs| - 1]))
  }

  /** Everything the inputs of a connection call for, in order. */
  ghost function CalledFor(c: nat, conn: Connection, inputs: seq<Input>): (tasks: seq<Task>) {
    if inputs == [] then []
    else CalledFor(c, conn, inputs[..|inputs| - 1]) + InputTasks(c, conn, |inputs| - 1, inputs[|inputs| - 1])
  }

  /** Some producer panics at the record of the input. */
  ghost predicate InputPanics(conn: Connection, input: Input) {
    !Survives(Parsed(conn, input), ActsFor(conn, input))
  }

  ghost predicate SomePanics(conn: Connection, inputs: seq<Input>) {
    exists i :: 0 <= i < |inputs| && InputPanics(conn, inputs[i])
  }

  /** As long as no input makes a producer panic, everything it calls for is begun. */
  lemma {:induction false} CalmIsCalledFor(c: nat, conn: Connection, inputs: seq<Input>)
    requires !SomePanics(conn, inputs)
    ensures TasksOf(c, conn, inputs) == CalledFor(c, conn, inputs)
  {
    hide Survives, Reached, ReachedTasks, Parsed, ActsFor;
    if inputs != [] {
      var n := |inputs| - 1;
      LastOrBefore(conn, inputs);
      CalmIsCalledFor(c, conn, inputs[..n]);
      ReachedAreTasks(Rec(c, n, Parsed(conn, inputs[n])), ActsFor(conn, inputs[n]));
    }
  }

  ghost predicate HasPanicked(tasks: seq<Task>) {
    exists i :: 0 <= i < |tasks| && TaskCrashes(tasks[i])
  }

  lemma PanickedJoins(a: seq<Task>, b: seq<Task>)
    ensures HasPanicked(a + b) <==> HasPanicked(a) || HasPanicked(b)
  {
    hide TaskCrashes;
    assert forall i :: 0 <= i < |a| ==> (a + b)[i] == a[i];
    assert forall i :: 0 <= i < |b| ==> (a + b)[|a| + i] == b[i];
  }

  lemma InputShows(rec: Rec, acts: seq<Act>)
    ensures HasPanicked(Tasks(rec, Reached(rec.value, acts))) <==> !Survives(rec.value, acts)
  {
    hide Crashes;
    var r := Reached(rec.value, acts);
    if !Survives(rec.value, acts) {
      assert TaskCrashes(Tasks(rec, r)[|r| - 1]);
    }
  }

  /** Among what is begun about the inputs is a task that panics exactly if some input has one. */
  lemma {:induction false} PanicsShow(c: nat, conn: Connection, inputs: seq<Input>)
    ensures HasPanicked(TasksOf(c, conn, inputs)) <==> SomePanics(conn, inputs)
  {
    hide Survives, Reached, ReachedTasks, Parsed, ActsFor, HasPanicked;
    if inputs == [] {
      NothingPanicked();
    } else {
      var n := |inputs| - 1;
      var rec := Rec(c, n, Parsed(conn, inputs[n]));
      PanicsShow(c, conn, inputs[..n]);
      ReachedAreTasks(rec, ActsFor(conn, inputs[n]));
      InputShows(rec, ActsFor(conn, inputs[n]));
      PanickedJoins(TasksOf(c, conn, inputs[..n]), ReachedTasks(InputTasks(c, conn, n, inputs[n])));
      LastOrBefore(conn, inputs);
    }
  }

  lemma NothingPanicked()
    ensures !HasPanicked([])
  {
  }

  lemma LastOrBefore(conn: Connection, inputs: seq<Input>)
    requires inputs != []
    ensures SomePanics(conn, inputs) <==> InputPanics(conn, inputs[|inputs| - 1]) || SomePanics(conn, inputs[..|inputs| - 1])
  {
    hide InputPanics;
    var before := inputs[..|inputs| - 1];
    if i :| 0 <= i < |inputs| - 1 && InputPanics(conn, before[i]) {
      assert InputPanics(conn, inputs[i]);
    }
    if i :| 0 <= i < |inputs| - 1 && InputPanics(conn, inputs[i]) {
      assert InputPanics(conn, before[i]);
    }
  }

  /** The tasks not begun yet: passing on a confirmation is the end of one that was. */
  ghost function NotBegun(todo: seq<Task>): (tasks: seq<Task>) {
    if todo != [] && todo[0].Push? then todo[1..] else todo
  }

  /** Only a connection that reads has tasks that panic, and only about its last input. */
  ghost predicate Calm(k: Socket) {
    && (!k.phase.Open? ==> forall i :: 0 <= i < |k.todo| ==> !TaskCrashes(k.todo[i]))
    && (k.phase.Open? ==> forall i :: 0 <= i < |k.todo| ==> k.todo[i].rec.number == |k.inputs| - 1)
  }

  ghost predicate Accounts(sv: Server, c: nat, k: Socket) {
    && TasksOf(c, ConnectionOf(sv, k), k.inputs) == k.done + ReachedTasks(NotBegun(k.todo))
    && (forall i :: 1 <= i < |k.todo| ==> k.todo[i].Do?)
    && Calm(k)
  }

  lemma GivenAccounts(sv: Server, c: nat, k: Socket, input: Input)
    requires Accounts(sv, c, k) && k.todo == []
    requires k.phase.Open? || (input.Event? && input.record.message.Connectivity?)
    ensures Accounts(sv, c, Given(sv, c, k, input))
  {
    hide Parsed, ActsFor, ReachedTasks, TaskCrashes;
    var r := Given(sv, c, k, input);
    var tasks := InputTasks(c, ConnectionOf(sv, k), |k.inputs|, input);
    assert r.inputs[..|r.inputs| - 1] == k.inputs;
    assert ConnectionOf(sv, r) == ConnectionOf(sv, k);
    assert r.todo == tasks && NotBegun(r.todo) == r.todo;
    NothingReached();
    if !k.phase.Open? {
      EventsAreCalm(c, ConnectionOf(sv, k), |k.inputs|, input);
    }
  }

  lemma NothingReached()
    ensures ReachedTasks([]) == []
  {
  }

  /** Announcing a connection makes no producer panic. */
  lemma EventsAreCalm(c: nat, conn: Connection, n: nat, input: Input)
    requires input.Event? && input.record.message.Connectivity?
    ensures forall i :: 0 <= i < |InputTasks(c, conn, n, input)| ==> !TaskCrashes(InputTasks(c, conn, n, input)[i])
  {
  }

  /** The tasks after one more of them was begun. */
  predicate OneBegun(k: Socket, k': Socket) {
    && k.todo != [] && k.todo[0].Do? && k'.inputs == k.inputs && k'.done == k.done + [k.todo[0]]
    && if TaskCrashes(k.todo[0]) then k'.todo == [] && !k'.phase.Open?
       else k'.phase == k.phase && (k'.todo == k.todo[1..] || k'.todo == [Push(k.todo[0].rec)] + k.todo[1..])
  }

  lemma BegunIsCalm(k: Socket, k': Socket)
    requires Calm(k) && OneBegun(k, k')
    ensures Calm(k')
  {
    hide TaskCrashes;
    PushIsCalm(k.todo[0].rec);
    if !TaskCrashes(k.todo[0]) && k'.todo != k.todo[1..] {
      assert forall i :: 0 <= i < |k'.todo| ==> k'.todo[i] == if i == 0 then Push(k.todo[0].rec) else k.todo[i];
    }
  }

  lemma Regrouped(a: seq<Task>, task: Task, b: seq<Task>)
    ensures a + ([task] + b) == a + [task] + b
  {
  }

  lemma BegunIsDone(k: Socket, k': Socket)
    requires OneBegun(k, k') && (forall i :: 1 <= i < |k.todo| ==> k.todo[i].Do?)
    ensures k'.done + ReachedTasks(NotBegun(k'.todo)) == k.done + ReachedTasks(NotBegun(k.todo))
    ensures forall i :: 1 <= i < |k'.todo| ==> k'.todo[i].Do?
  {
    hide TaskCrashes, ReachedTasks;
    var first, rest := k.todo[0], k.todo[1..];
    ReachedFirst(k.todo);
    NothingReached();
    Regrouped(k.done, first, if TaskCrashes(first) then [] else ReachedTasks(rest));
    if !TaskCrashes(first) {
      assert NotBegun(k'.todo) == rest;
    }
  }

  /** The first task is begun. */
  lemma BegunAccounts(sv: Server, c: nat, k: Socket, k': Socket)
    requires Accounts(sv, c, k) && OneBegun(k, k') && ConnectionOf(sv, k') == ConnectionOf(sv, k)
    ensures Accounts(sv, c, k')
  {
    hide TasksOf, TaskCrashes, ConnectionOf, Calm, ReachedTasks, NotBegun;
    BegunIsCalm(k, k');
    BegunIsDone(k, k');
  }

  lemma PushIsCalm(rec: Rec)
    ensures !TaskCrashes(Push(rec))
  {
  }

  lemma AccountsStep(sv: Server, c: nat, k: Socket, l: Label)
    requires AtSocket(l) && EnabledAt(k, true, l) && Accounts(sv, c, k)
    ensures Accounts(sv, c, StepAt(sv, c, k, l))
  {
    hide TasksOf, InputTasks, PassesAfter, Given, ReachedTasks, TaskCrashes;
    if l.Receive? {
      GivenAccounts(sv, c, k, Message(l.frame));
    } else if l.Leave? {
      var gone := k.(phase := Gone);
      assert ConnectionOf(sv, gone) == ConnectionOf(sv, k);
      if l.event.Some? {
        GivenAccounts(sv, c, gone, Event(l.event.value));
      }
    } else if l.Reply? || l.Dispatch? {
      if l.Reply? {
        RepliesAreCalm(k.todo[0]);
      }
      assert TaskCrashes(k.todo[0]) ==> k.phase.Open?;
      assert OneBegun(k, StepAt(sv, c, k, l));
      hide Accounts, OneBegun;
      BegunAccounts(sv, c, k, StepAt(sv, c, k, l));
    } else {
      assert ConnectionOf(sv, StepAt(sv, c, k, l)) == ConnectionOf(sv, k);
    }
  }

  lemma RepliesAreCalm(task: Task)
    requires task.Do? && !task.act.Produce?
    ensures !TaskCrashes(task)
  {
  }

  lemma AccountsNew(sv: Server, c: nat, uuid: string, identity: RequestIdentity, event: Option<RecordValue>)
    requires IsEvent(NewSocket(uuid, identity), event)
    ensures Accounts(sv, c, Announced(sv, c, NewSocket(uuid, identity), event))
  {
    if event.Some? {
      GivenAccounts(sv, c, NewSocket(uuid, identity), Event(event.value));
    }
  }

  lemma {:induction false} AccountsHold(sv: Server, run: seq<Moment>, c: nat)
    requires IsRun(sv, run) && c < |After(run).sockets|
    ensures Accounts(sv, c, After(run).sockets[c])
  {
    hide Next, Enabled, StepAt, EnabledAt, Enqueued, Announced, Accounts;
    if run != [] {
      LastStep(sv, run);
      var before, l := run[..|run| - 1], run[|run| - 1].step;
      var s := After(before);
      SocketChanges(sv, s, l, c);
      if c < |s.sockets| {
        AccountsHold(sv, before, c);
        var k := s.sockets[c];
        if IsOwnStep(sv, c, k, After(run).sockets[c], l) {
          AccountsStep(sv, c, k, l);
        } else if IsDelivery(s, c, k, After(run).sockets[c], l) {
          AccountsEnqueued(sv, c, k, Response(s.ackLoop.route.rec, true));
        }
      } else {
        AccountsNew(sv, c, l.uuid, l.identity, l.event);
      }
    }
  }

  lemma AccountsEnqueued(sv: Server, c: nat, k: Socket, r: Response)
    requires Accounts(sv, c, k)
    ensures Accounts(sv, c, Enqueued(k, r))
  {
    assert ConnectionOf(sv, Enqueued(k, r)) == ConnectionOf(sv, k);
  }

  /** In every run, whatever the other connections and the producers do meanwhile, a reader with
      nothing left to do has begun exactly what its inputs call for, up to the first producer that
      panics, and one has panicked exactly if some input makes one; a reader that is busy has begun a
      prefix of that. */
  lemma ReaderFollowsPlan(sv: Server, run: seq<Moment>, c: nat)
    requires IsRun(sv, run) && c < |After(run).sockets|
    ensures var k := After(run).sockets[c];
            var conn := ConnectionOf(sv, k);
            && k.done <= TasksOf(c, conn, k.inputs)
            && (k.todo == [] ==> k.done == TasksOf(c, conn, k.inputs) && (HasPanicked(k.done) <==> SomePanics(conn, k.inputs)))
            && (!SomePanics(conn, k.inputs) ==> TasksOf(c, conn, k.inputs) == CalledFor(c, conn, k.inputs))
  {
    AccountsHold(sv, run, c);
    hide IsRun, After, SomePanics, TasksOf, CalledFor, HasPanicked;
    var k := After(run).sockets[c];
    PanicsShow(c, ConnectionOf(sv, k), k.inputs);
    if !SomePanics(ConnectionOf(sv, k), k.inputs) {
      CalmIsCalledFor(c, ConnectionOf(sv, k), k.inputs);
    }
  }

  // ---------------------------------------------------------------- after a panic

  /** A panic has ended the connection: it does not read any more. */
  ghost predicate PanicIsLast(k: Socket) {
    forall i :: 0 <= i < |k.done| && TaskCrashes(k.done[i]) ==>
                  && (k.phase.Closed? || k.phase.Gone?)
                  && forall n :: k.done[i].rec.number < n < |k.inputs| ==> k.inputs[n].Event?
  }

  lemma PanicIsLastStep(sv: Server, c: nat, k: Socket, l: Label)
    requires AtSocket(l) && EnabledAt(k, true, l) && PanicIsLast(k) && Calm(k)
    ensures PanicIsLast(StepAt(sv, c, k, l))
  {
    hide InputTasks, PassesAfter, TaskCrashes;
    if l.Reply? {
      RepliesAreCalm(k.todo[0]);
    }
  }

  lemma {:induction false} PanicIsLastHolds(sv: Server, run: seq<Moment>, c: nat)
    requires IsRun(sv, run) && c < |After(run).sockets|
    ensures PanicIsLast(After(run).sockets[c])
  {
    hide Next, Enabled, StepAt, EnabledAt, Calm, TasksOf;
    if run != [] {
      LastStep(sv, run);
      var before, l := run[..|run| - 1], run[|run| - 1].step;
      var s := After(before);
      SocketChanges(sv, s, l, c);
      if c < |s.sockets| {
        PanicIsLastHolds(sv, before, c);
        AccountsHold(sv, before, c);
        if IsOwnStep(sv, c, s.sockets[c], After(run).sockets[c], l) {
          PanicIsLastStep(sv, c, s.sockets[c], l);
        }
      } else {
        NothingQueued(sv, c, l.uuid, l.identity, l.event);
      }
    }
  }

  /** The effects of tasks, as the reader of one connection by itself would see them. */
  ghost function Seen(tasks: seq<Task>): (effects: seq<Effect>)
    requires forall task <- tasks :: task.Do?
  {
    seq(|tasks|, i requires 0 <= i < |tasks| => EffectOf(tasks[i].rec.value, tasks[i].act))
  }

  ghost function Messages(frames: seq<Frame>): (inputs: seq<Input>) {
    seq(|frames|, i requires 0 <= i < |frames| => Message(frames[i]))
  }

  /** For the messages of a connection the tasks have the very effects of the reading loop. */
  lemma {:induction false} TasksRefineLoop(c: nat, conn: Connection, frames: seq<Frame>)
    ensures forall task <- TasksOf(c, conn, Messages(frames)) :: task.Do?
    ensures Seen(TasksOf(c, conn, Messages(frames))) == EffectsOf(conn, frames)
  {
    hide RecordFor, Plan, AckOf, ErrorOf, EffectOf, Reached, ReachedTasks;
    if frames != [] {
      var n := |frames| - 1;
      TasksRefineLoop(c, conn, frames[..n]);
      assert Messages(frames)[..n] == Messages(frames[..n]);
      ReachedAreTasks(Rec(c, n, conn.Parse(frames[n]).record), conn.Acts(frames[n]));
      var last := Tasks(Rec(c, n, conn.Parse(frames[n]).record), conn.Begun(frames[n]));
      assert Seen(last) == FrameEffects(conn, frames[n]);
    }
  }

  /** What the reader sends is what it queues. */
  lemma SeenAreResponses(tasks: seq<Task>)
    requires forall task <- tasks :: task.Do?
    ensures |Seen(tasks)| == |tasks|
    ensures forall i :: 0 <= i < |tasks| && !tasks[i].act.Produce? ==>
              Seen(tasks)[i] == Sent(SocketMessage(tasks[i].rec.value.txid, Response(tasks[i].rec, tasks[i].act.Ack?).Bytes()))
  {
    hide AckOf, ErrorOf;
    assert forall i :: 0 <= i < |tasks| ==> tasks[i] in tasks;
  }

  /** In every run, a reader that is idle and has only read messages has had exactly the effects
      the reading loop has on the same messages when nothing else goes on; its answers are the
      responses that were queued. */
  lemma ReaderRefinesLoop(sv: Server, run: seq<Moment>, c: nat, frames: seq<Frame>)
    requires IsRun(sv, run) && c < |After(run).sockets|
    requires After(run).sockets[c].todo == [] && After(run).sockets[c].inputs == Messages(frames)
    ensures var k := After(run).sockets[c];
            && (forall task <- k.done :: task.Do?)
            && Seen(k.done) == EffectsOf(ConnectionOf(sv, k), frames)
            && |EffectsOf(ConnectionOf(sv, k), frames)| == |k.done|
            && forall i :: 0 <= i < |k.done| && !k.done[i].act.Produce? ==>
                 EffectsOf(ConnectionOf(sv, k), frames)[i] ==
                 Sent(SocketMessage(k.done[i].rec.value.txid, Response(k.done[i].rec, k.done[i].act.Ack?).Bytes()))
  {
    hide TasksOf, Seen, EffectsOf, AckOf, ErrorOf;
    ReaderFollowsPlan(sv, run, c);
    TasksRefineLoop(c, ConnectionOf(sv, After(run).sockets[c]), frames);
    SeenAreResponses(After(run).sockets[c].done);
  }

  // ---------------------------------------------------------------- what is queued

  /** The responses a reader's own tasks amount to. */
  ghost function Replies(done: seq<Task>): (r: multiset<Response>) {
    if done == [] then multiset{}
    else Replies(done[..|done| - 1]) + ReplyOf(done[|done| - 1])
  }

  ghost function ReplyOf(task: Task): (r: multiset<Response>) {
    if task.Do? && !task.act.Produce? then multiset{Response(task.rec, task.act.Ack?)} else multiset{}
  }

  /** The acknowledgements delivered to connection `c`. */
  ghost function DeliveredTo(delivered: seq<Route>, c: nat): (r: multiset<Response>) {
    if delivered == [] then multiset{}
    else DeliveredTo(delivered[..|delivered| - 1], c) + DeliveryOf(delivered[|delivered| - 1], c)
  }

  ghost function DeliveryOf(route: Route, c: nat): (r: multiset<Response>) {
    if route.target == c then multiset{Response(route.rec, true)} else multiset{}
  }

  ghost predicate Balanced(k: Socket, delivered: seq<Route>, c: nat) {
    multiset(k.queued) == Replies(k.done) + DeliveredTo(delivered, c)
  }

  lemma RepliesGrow(done: seq<Task>, task: Task)
    ensures Replies(done + [task]) == Replies(done) + ReplyOf(task)
  {
    assert (done + [task])[..|done|] == done;
  }

  lemma DeliveredGrow(delivered: seq<Route>, route: Route, c: nat)
    ensures DeliveredTo(delivered + [route], c) == DeliveredTo(delivered, c) + DeliveryOf(route, c)
  {
    assert (delivered + [route])[..|delivered|] == delivered;
  }

  lemma BalancedStep(sv: Server, c: nat, k: Socket, l: Label, delivered: seq<Route>)
    requires AtSocket(l) && EnabledAt(k, true, l) && Balanced(k, delivered, c)
    ensures Balanced(StepAt(sv, c, k, l), delivered, c)
  {
    hide PassesAfter, InputTasks, Replies, DeliveredTo;
    if l.Reply? || l.Dispatch? {
      RepliesGrow(k.done, k.todo[0]);
    }
  }

  lemma NothingQueued(sv: Server, c: nat, uuid: string, identity: RequestIdentity, event: Option<RecordValue>)
    ensures var k := Announced(sv, c, NewSocket(uuid, identity), event); k.queued == [] && k.done == []
  {
  }

  /** What a delivery to a connection changes, and what one to another leaves alone. */
  lemma DeliveredChanges(sv: Server, s: State, l: Label, c: nat)
    requires Enabled(s, l)
    ensures var s' := Next(sv, s, l);
            if l.Deliver? then
              && s.ackLoop.Sending? && s'.delivered == s.delivered + [s.ackLoop.route]
              && s.ackLoop.route.target < |s.sockets|
              && (s.ackLoop.route.target == c ==> IsDelivery(s, c, s.sockets[c], s'.sockets[c], l))
            else s'.delivered == s.delivered
    ensures |s.sockets| <= |Next(sv, s, l).sockets|
  {
    hide StepAt, Announced, Confirms;
  }

  lemma {:induction false} BalanceHolds(sv: Server, run: seq<Moment>, c: nat)
    requires IsRun(sv, run)
    ensures var s := After(run);
            if c < |s.sockets| then Balanced(s.sockets[c], s.delivered, c) else DeliveredTo(s.delivered, c) == multiset{}
  {
    hide Next, Enabled, StepAt, EnabledAt, Announced, Replies, DeliveredTo;
    if run == [] {
      assert DeliveredTo([], c) == multiset{} by { NoneDelivered(c); }
    } else {
      LastStep(sv, run);
      var before, l := run[..|run| - 1], run[|run| - 1].step;
      var s, s' := After(before), After(run);
      BalanceHolds(sv, before, c);
      DeliveredChanges(sv, s, l, c);
      if l.Deliver? && s.ackLoop.Sending? {
        DeliveredGrow(s.delivered, s.ackLoop.route, c);
      }
      if c < |s'.sockets| {
        SocketChanges(sv, s, l, c);
        if c < |s.sockets| && IsOwnStep(sv, c, s.sockets[c], s'.sockets[c], l) {
          BalancedStep(sv, c, s.sockets[c], l, s.delivered);
        } else if l.Deliver? && s.ackLoop.route.target == c {
          assert multiset(s'.sockets[c].queued) == multiset(s.sockets[c].queued) + DeliveryOf(s.ackLoop.route, c);
        } else if c == |s.sockets| {
          NothingQueued(sv, c, l.uuid, l.identity, l.event);
          NoReplies();
          assert s'.delivered == s.delivered;
          assert Balanced(s'.sockets[c], s'.delivered, c);
        }
      }
    }
  }

  lemma NoneDelivered(c: nat)
    ensures DeliveredTo([], c) == multiset{}
  {
  }

  lemma NoReplies()
    ensures Replies([]) == multiset{}
  {
  }
}
