/** Everything that can happen to the output of shells on one agent, and what holds in every order of it. */
module PtyOutputRuns {
  import opened PtyOutput

  /**
   `log` has all events ever put into the channel, `sent` all messages ever sent; the rest is the agent's memory.
   A session id is started at most once.
   */
  datatype Agent = Agent(pty: Pty, buffers: Buffers, started: set<SessionId>, log: seq<Event>, sent: seq<Message>)

  datatype Op =
    | Start(session: SessionId)
    | Produce(session: SessionId, data: string)
    | Finish(session: SessionId)
    | Flush(session: SessionId)
    | DrainExits(order: seq<SessionId>)
    | Close(session: SessionId)

  function Initial(): Agent {
    Agent(Pty({}, [], map[], {}), map[], {}, [], [])
  }

  /** A reader thread speaks until it says `Exited`, also when its session is closed or forgotten. */
  ghost predicate Enabled(a: Agent, op: Op) {
    match op
    case Start(s) => s !in a.started
    case Produce(s, _) => s in a.started && Exited(s) !in a.log
    case Finish(s) => s in a.started && Exited(s) !in a.log
    case DrainExits(order) => Enumerates(order, Drained(a.pty).exited)
    case _ => true
  }

  function Emit(a: Agent, e: Event): Agent {
    a.(pty := a.pty.(channel := a.pty.channel + [e]), log := a.log + [e])
  }

  function Exits(order: seq<SessionId>): seq<Message> {
    seq(|order|, i requires 0 <= i < |order| => SessionExit(order[i]))
  }

  function After(a: Agent, op: Op): Agent {
    match op
    case Start(s) =>
      a.(pty := a.pty.(sessions := a.pty.sessions + {s}), buffers := a.buffers[s := Buffer(MAX_FRAMES, 1, [])],
        started := a.started + {s})
    case Produce(s, data) => Emit(a, Output(s, data))
    case Finish(s) => Emit(a, Exited(s))
    case Flush(s) =>
      var f := FlushOne(Flushed(a.pty, a.buffers, a.sent), s);
      a.(pty := f.pty, buffers := f.buffers, sent := f.messages)
    case DrainExits(order) =>
      var d := Drained(a.pty);
      a.(pty := d.(exited := {}), buffers := a.buffers - d.exited, sent := a.sent + Exits(order))
    case Close(s) =>
      a.(pty := a.pty.(sessions := a.pty.sessions - {s}), buffers := a.buffers - {s}, sent := a.sent + [SessionExit(s)])
  }

  ghost predicate IsRun(states: seq<Agent>, ops: seq<Op>) {
    && |states| == |ops| + 1 && states[0] == Initial()
    && forall i :: 0 <= i < |ops| ==> Enabled(states[i], ops[i]) && states[i + 1] == After(states[i], ops[i])
  }

  /** One flush of all sessions, as the control loop makes it, is a run of single flushes. */
  function Flushes(a: Agent, order: seq<SessionId>): Agent {
    if order == [] then a else After(Flushes(a, order[..|order| - 1]), Flush(order[|order| - 1]))
  }

  lemma {:induction false} FlushAllIsFlushes(a: Agent, order: seq<SessionId>)
    ensures var f := FlushAll(Flushed(a.pty, a.buffers, []), order);
      Flushes(a, order) == a.(pty := f.pty, buffers := f.buffers, sent := a.sent + f.messages)
  {
    if order == [] {
      assert a.sent + [] == a.sent;
    } else {
      FlushAllIsFlushes(a, order[..|order| - 1]);
    }
  }

  // ---------------------------------------------------------------- per session views

  function FramesOf(sent: seq<Message>, s: SessionId): seq<Frame> {
    if sent == [] then [] else
      var last := sent[|sent| - 1];
      FramesOf(sent[..|sent| - 1], s) + if last.Stdout? && last.session == s then [last.frame] else []
  }

  function Text(frames: seq<Frame>): string {
    if frames == [] then "" else Text(frames[..|frames| - 1]) + frames[|frames| - 1].data
  }

  function Delivered(a: Agent, s: SessionId): string {
    Text(FramesOf(a.sent, s))
  }

  function Produced(a: Agent, s: SessionId): string {
    TextOf(a.log, s)
  }

  /** What the agent has in memory for a session: set aside by a read for another session, or still in the channel. */
  function Waiting(p: Pty, s: SessionId): string {
    Join(PendingOf(p.pending, s)) + TextOf(p.channel, s)
  }

  lemma FramesOfOne(sent: seq<Message>, m: Message, s: SessionId)
    ensures FramesOf(sent + [m], s) == if m.Stdout? && m.session == s then FramesOf(sent, s) + [m.frame]
      else FramesOf(sent, s)
  {
  }

  lemma {:induction false} FramesOfExits(sent: seq<Message>, order: seq<SessionId>, s: SessionId)
    ensures FramesOf(sent + Exits(order), s) == FramesOf(sent, s)
  {
    if order == [] {
      assert sent + Exits(order) == sent;
    } else {
      var n := |order| - 1;
      assert sent + Exits(order) == sent + Exits(order[..n]) + [SessionExit(order[n])];
      FramesOfOne(sent + Exits(order[..n]), SessionExit(order[n]), s);
      FramesOfExits(sent, order[..n], s);
    }
  }

  lemma TextOfFrames(frames: seq<Frame>, f: Frame)
    ensures Text(frames + [f]) == Text(frames) + f.data
  {
  }

  // ---------------------------------------------------------------- the invariant

  predicate Suffix(channel: seq<Event>, log: seq<Event>) {
    |channel| <= |log| && log[|log| - |channel|..] == channel
  }

  predicate Conserved(a: Agent, s: SessionId) {
    Produced(a, s) == Delivered(a, s) + Waiting(a.pty, s)
  }

  predicate Tracked(a: Agent, s: SessionId) {
    && Numbered(FramesOf(a.sent, s), 1)
    && (s in a.pty.sessions ==> s in a.buffers)
    && (s in a.buffers ==>
       s in a.started && a.buffers[s].maxFrames == MAX_FRAMES && Remembers(a.buffers[s], FramesOf(a.sent, s)))
    && (s in a.pty.exited ==> s in a.started && s !in a.pty.sessions)
    && (s !in a.started ==> FramesOf(a.sent, s) == [])
  }

  predicate Ok(a: Agent, s: SessionId) {
    Suffix(a.pty.channel, a.log) && Conserved(a, s) && Tracked(a, s)
  }

  lemma FlushWaiting(a: Agent, x: SessionId, s: SessionId)
    requires x in a.buffers && x in a.pty.sessions
    ensures var b := After(a, Flush(x));
      && b.pty.channel == []
      && Waiting(b.pty, s) == (if s == x then "" else Waiting(a.pty, s))
      && (s in b.pty.sessions <==> s in a.pty.sessions && Exited(s) !in a.pty.channel)
  {
    DrainedFacts(a.pty, s);
  }

  /** The frame a flush of `x` sends, if it sends one. */
  function FlushedFrames(a: Agent, x: SessionId): seq<Frame> {
    var output := Waiting(a.pty, x);
    if x !in a.buffers || x !in a.pty.sessions || output == "" then [] else [Frame(a.buffers[x].nextSeq, output)]
  }

  lemma FlushFrames(a: Agent, x: SessionId, s: SessionId)
    ensures FramesOf(After(a, Flush(x)).sent, s) == if s == x then FramesOf(a.sent, s) + FlushedFrames(a, x)
      else FramesOf(a.sent, s)
    ensures x in a.buffers && x in a.pty.sessions && FlushedFrames(a, x) != [] ==>
      After(a, Flush(x)).buffers == a.buffers[x := Pushed(a.buffers[x], Waiting(a.pty, x))]
    ensures FlushedFrames(a, x) == [] ==> After(a, Flush(x)).buffers == a.buffers
  {
    DrainedFacts(a.pty, x);
    if FlushedFrames(a, x) != [] {
      FramesOfOne(a.sent, Stdout(x, FlushedFrames(a, x)[0]), s);
    }
  }

  lemma FlushDelivers(a: Agent, x: SessionId)
    requires x in a.buffers && x in a.pty.sessions
    ensures Delivered(After(a, Flush(x)), x) == Delivered(a, x) + Waiting(a.pty, x)
  {
    FlushFrames(a, x, x);
    if FlushedFrames(a, x) != [] {
      TextOfFrames(FramesOf(a.sent, x), FlushedFrames(a, x)[0]);
    }
  }

  lemma FlushConserved(a: Agent, x: SessionId, s: SessionId)
    requires Conserved(a, s)
    ensures Conserved(After(a, Flush(x)), s)
  {
    if x in a.buffers && x in a.pty.sessions {
      FlushWaiting(a, x, s);
      if s == x {
        FlushDelivers(a, x);
      } else {
        FlushFrames(a, x, s);
      }
    }
  }

  lemma FlushTracked(a: Agent, x: SessionId, s: SessionId)
    requires Tracked(a, s)
    ensures Tracked(After(a, Flush(x)), s)
  {
    if x in a.buffers && x in a.pty.sessions {
      DrainedFacts(a.pty, s);
      FlushFrames(a, x, s);
      if s == x && FlushedFrames(a, x) != [] {
        PushRemembers(a.buffers[x], FramesOf(a.sent, x), Waiting(a.pty, x));
      }
    }
  }

  lemma FlushSuffix(a: Agent, x: SessionId)
    requires Suffix(a.pty.channel, a.log)
    ensures Suffix(After(a, Flush(x)).pty.channel, a.log)
  {
    if x in a.buffers && x in a.pty.sessions {
      FlushWaiting(a, x, x);
    }
  }

  lemma DrainFacts(a: Agent, order: seq<SessionId>, s: SessionId)
    ensures var b := After(a, DrainExits(order));
      && b.pty.channel == []
      && Waiting(b.pty, s) == Waiting(a.pty, s)
      && FramesOf(b.sent, s) == FramesOf(a.sent, s)
      && (s in b.pty.sessions <==> s in a.pty.sessions && Exited(s) !in a.pty.channel)
  {
    DrainedFacts(a.pty, s);
    FramesOfExits(a.sent, order, s);
  }

  lemma DrainTracked(a: Agent, order: seq<SessionId>, s: SessionId)
    requires Tracked(a, s)
    ensures Tracked(After(a, DrainExits(order)), s)
  {
    DrainedFacts(a.pty, s);
    FramesOfExits(a.sent, order, s);
  }

  lemma EmitFacts(a: Agent, e: Event, s: SessionId)
    requires Suffix(a.pty.channel, a.log)
    ensures var b := Emit(a, e);
      && Suffix(b.pty.channel, b.log)
      && Produced(b, s) == Produced(a, s) + Said(e, s)
      && Waiting(b.pty, s) == Waiting(a.pty, s) + Said(e, s)
  {
    TextOfOne(a.log, e, s);
    TextOfOne(a.pty.channel, e, s);
    var from := |a.log| - |a.pty.channel|;
    assert (a.log + [e])[from..] == a.log[from..] + [e];
    var x, y, z := Join(PendingOf(a.pty.pending, s)), TextOf(a.pty.channel, s), Said(e, s);
    assert (x + y) + z == x + (y + z);
  }

  lemma EmitConserved(a: Agent, e: Event, s: SessionId)
    requires Suffix(a.pty.channel, a.log) && Conserved(a, s)
    ensures Suffix(Emit(a, e).pty.channel, Emit(a, e).log) && Conserved(Emit(a, e), s)
  {
    EmitFacts(a, e, s);
    var x, y, z := Delivered(a, s), Waiting(a.pty, s), Said(e, s);
    assert (x + y) + z == x + (y + z);
  }

  lemma StepKeepsOk(a: Agent, op: Op, s: SessionId)
    requires Enabled(a, op) && Ok(a, s)
    ensures Ok(After(a, op), s)
  {
    match op
    case Start(_) =>
    case Produce(x, data) => EmitConserved(a, Output(x, data), s);
    case Finish(x) => EmitConserved(a, Exited(x), s);
    case Flush(x) => FlushSuffix(a, x); FlushConserved(a, x, s); FlushTracked(a, x, s);
    case DrainExits(order) => DrainFacts(a, order, s); DrainTracked(a, order, s);
    case Close(x) => FramesOfOne(a.sent, SessionExit(x), s);
  }

  lemma {:induction false} RunOk(states: seq<Agent>, ops: seq<Op>, n: nat, s: SessionId)
    requires IsRun(states, ops) && n <= |ops|
    ensures Ok(states[n], s)
  {
    if n > 0 {
      RunOk(states, ops, n - 1, s);
      StepKeepsOk(states[n - 1], ops[n - 1], s);
    }
  }

  // ---------------------------------------------------------------- what holds in every run

  /** The frames sent for a session are numbered 1, 2, 3 and so on. */
  lemma NumberedWithoutGap(states: seq<Agent>, ops: seq<Op>, n: nat, s: SessionId)
    requires IsRun(states, ops) && n <= |ops|
    ensures var frames := FramesOf(states[n].sent, s);
      forall i :: 0 <= i < |frames| ==> frames[i].seqNo == i + 1
  {
    RunOk(states, ops, n, s);
  }

  /** All a reader has produced is delivered, set aside or in the channel, in this order, once and unmixed. */
  lemma NothingLostOrMixed(states: seq<Agent>, ops: seq<Op>, n: nat, s: SessionId)
    requires IsRun(states, ops) && n <= |ops|
    ensures Produced(states[n], s)
            == Delivered(states[n], s) + Join(PendingOf(states[n].pty.pending, s)) + TextOf(states[n].pty.channel, s)
    ensures Delivered(states[n], s) <= Produced(states[n], s)
  {
    RunOk(states, ops, n, s);
  }

  /** The buffer of a session holds the last 1024 frames sent for it, or all if there are fewer. */
  lemma BufferHoldsTheLastFrames(states: seq<Agent>, ops: seq<Op>, n: nat, s: SessionId, seqNo: nat)
    requires IsRun(states, ops) && n <= |ops| && s in states[n].buffers
    ensures var frames, b := FramesOf(states[n].sent, s), states[n].buffers[s];
      && b.frames == frames[if |frames| <= 1024 then 0 else |frames| - 1024..]
      && (seqNo <= |frames| ==>
         FramesSince(b.frames, seqNo)
           == frames[if |frames| - seqNo <= 1024 then seqNo else |frames| - 1024..])
  {
    RunOk(states, ops, n, s);
    var frames, b := FramesOf(states[n].sent, s), states[n].buffers[s];
    if seqNo <= |frames| {
      FramesSinceIsSuffix(b, frames, seqNo);
    }
  }

  /** A session that was started and is no longer in the manager's table. */
  predicate Gone(a: Agent, s: SessionId) {
    s in a.started && s !in a.pty.sessions
  }

  lemma GoneStep(a: Agent, op: Op, s: SessionId)
    requires Enabled(a, op) && Ok(a, s) && Gone(a, s)
    ensures Gone(After(a, op), s) && FramesOf(After(a, op).sent, s) == FramesOf(a.sent, s)
  {
    match op
    case Flush(x) =>
      FlushFrames(a, x, s);
      if x in a.buffers && x in a.pty.sessions {
        FlushWaiting(a, x, s);
      }
    case DrainExits(order) => DrainFacts(a, order, s);
    case Close(x) => FramesOfOne(a.sent, SessionExit(x), s);
    case _ =>
  }

  lemma GoneInRun(states: seq<Agent>, ops: seq<Op>, j: nat, s: SessionId)
    requires IsRun(states, ops) && j < |ops| && Gone(states[j], s)
    ensures Gone(states[j + 1], s) && FramesOf(states[j + 1].sent, s) == FramesOf(states[j].sent, s)
  {
    RunOk(states, ops, j, s);
    GoneStep(states[j], ops[j], s);
  }

  lemma {:induction false} GoneStays(states: seq<Agent>, ops: seq<Op>, i: nat, j: nat, s: SessionId)
    requires IsRun(states, ops) && i <= j <= |ops| && Gone(states[i], s)
    ensures Gone(states[j], s) && FramesOf(states[j].sent, s) == FramesOf(states[i].sent, s)
  {
    if i < j {
      GoneStays(states, ops, i, j - 1, s);
      GoneInRun(states, ops, j - 1, s);
    }
  }

  /** Once its end has been announced, nothing more is sent for a session that had been started. */
  lemma NoOutputAfterExit(states: seq<Agent>, ops: seq<Op>, i: nat, j: nat, s: SessionId)
    requires IsRun(states, ops) && i < j <= |ops| && s in states[i].started
    requires ops[i] == Close(s) || (ops[i].DrainExits? && s in ops[i].order)
    ensures FramesOf(states[j].sent, s) == FramesOf(states[i].sent, s)
  {
    RunOk(states, ops, i, s);
    var a := states[i];
    match ops[i] {
      case DrainExits(order) =>
        DrainFacts(a, order, s);
        DrainedFacts(a.pty, s);
      case _ =>
        FramesOfOne(a.sent, SessionExit(s), s);
    }
    assert Gone(states[i + 1], s);
    GoneStays(states, ops, i + 1, j, s);
  }

  predicate Finished(a: Agent, s: SessionId) {
    s in a.started && Exited(s) in a.log
  }

  lemma FinishedStep(a: Agent, op: Op, s: SessionId)
    requires Enabled(a, op) && Suffix(a.pty.channel, a.log) && Finished(a, s)
    ensures Finished(After(a, op), s) && Produced(After(a, op), s) == Produced(a, s)
  {
    match op
    case Produce(x, data) => TextOfOne(a.log, Output(x, data), s);
    case Finish(x) => TextOfOne(a.log, Exited(x), s);
    case _ =>
  }

  lemma FinishedInRun(states: seq<Agent>, ops: seq<Op>, j: nat, s: SessionId)
    requires IsRun(states, ops) && j < |ops| && Finished(states[j], s)
    ensures Finished(states[j + 1], s) && Produced(states[j + 1], s) == Produced(states[j], s)
  {
    RunOk(states, ops, j, s);
    FinishedStep(states[j], ops[j], s);
  }

  lemma {:induction false} FinishedStays(states: seq<Agent>, ops: seq<Op>, i: nat, j: nat, s: SessionId)
    requires IsRun(states, ops) && i <= j <= |ops| && Finished(states[i], s)
    ensures Finished(states[j], s) && Produced(states[j], s) == Produced(states[i], s)
  {
    if i < j {
      FinishedStays(states, ops, i, j - 1, s);
      FinishedInRun(states, ops, j - 1, s);
    }
  }

  /** The step that takes the reader's last word out of the channel. */
  predicate EndsAt(a: Agent, op: Op, s: SessionId) {
    s in a.pty.sessions && s !in After(a, op).pty.sessions && op != Close(s)
  }

  lemma EndFacts(a: Agent, op: Op, s: SessionId)
    requires Enabled(a, op) && Ok(a, s) && EndsAt(a, op, s)
    ensures var b := After(a, op);
      && Exited(s) in a.log && b.log == a.log && Gone(b, s)
      && Waiting(b.pty, s) == if op == Flush(s) then "" else Waiting(a.pty, s)
  {
    match op
    case Flush(x) => FlushWaiting(a, x, s);
    case DrainExits(order) => DrainFacts(a, order, s);
    case _ => assert false;
  }

  /**
   When a shell ends by itself, its whole output arrives if and only if the end is noticed while this session's
   own output is read, or nothing of it was waiting in the agent at that moment.
   */
  lemma WholeOutputArrives(states: seq<Agent>, ops: seq<Op>, i: nat, j: nat, s: SessionId)
    requires IsRun(states, ops) && i < j <= |ops| && EndsAt(states[i], ops[i], s)
    ensures Delivered(states[j], s) == Produced(states[j], s) <==>
            (ops[i] == Flush(s) || Waiting(states[i].pty, s) == "")
  {
    RunOk(states, ops, i, s);
    RunOk(states, ops, i + 1, s);
    EndFacts(states[i], ops[i], s);
    GoneStays(states, ops, i + 1, j, s);
    FinishedStays(states, ops, i + 1, j, s);
  }

  /** Reading a live session delivers all its reader has said so far. */
  lemma FlushCatchesUp(states: seq<Agent>, ops: seq<Op>, n: nat, s: SessionId)
    requires IsRun(states, ops) && n < |ops| && ops[n] == Flush(s) && s in states[n].pty.sessions
    ensures Delivered(states[n + 1], s) == Produced(states[n + 1], s)
  {
    RunOk(states, ops, n, s);
    FlushWaiting(states[n], s, s);
    RunOk(states, ops, n + 1, s);
  }

  lemma GoodbyeIsProduced()
    ensures TextOf([Output("b", "bye"), Exited("b")], "b") == "bye"
  {
  }

  lemma GoodbyeIsSetAside(p: Pty)
    requires p == Pty({"a", "b"}, [Output("b", "bye"), Exited("b")], map[], {})
    ensures Drained(p) == Pty({"a"}, [], map["b" := ["bye"]], {"b"})
  {
    assert "a"[0] != "b"[0];
    var empty := p.(channel := []);
    var half := Receive(empty, Output("b", "bye"));
    assert p.channel[1..] == [Exited("b")] && p.channel[1..][1..] == [];
    assert half.pending["b"] == [] + ["bye"] == ["bye"];
    assert half.pending == map["b" := ["bye"]];
  }

  /**
   The last output of a shell can be lost: "b" says goodbye and ends between two ticks, the tick reads "a" first,
   which takes the end of "b" out of the channel, and "b" is then passed over.
   */
  lemma LastOutputCanBeLost() returns (states: seq<Agent>, ops: seq<Op>)
    ensures IsRun(states, ops)
    ensures states[|ops|].sent == [SessionExit("b")]
    ensures Produced(states[|ops|], "b") == "bye" && Delivered(states[|ops|], "b") == ""
  {
    var f := Buffer(MAX_FRAMES, 1, []);
    var bye, end := Output("b", "bye"), Exited("b");
    var a1 := Agent(Pty({"a"}, [], map[], {}), map["a" := f], {"a"}, [], []);
    var a2 := Agent(Pty({"a", "b"}, [], map[], {}), map["a" := f, "b" := f], {"a", "b"}, [], []);
    var a3 := a2.(pty := a2.pty.(channel := [bye]), log := [bye]);
    var a4 := a2.(pty := a2.pty.(channel := [bye, end]), log := [bye, end]);
    var a5 := a4.(pty := Pty({"a"}, [], map["b" := ["bye"]], {"b"}));
    var a7 := a5.(pty := a5.pty.(exited := {}), buffers := map["a" := f], sent := [SessionExit("b")]);
    ops := [Start("a"), Start("b"), Produce("b", "bye"), Finish("b"), Flush("a"), Flush("b"), DrainExits(["b"])];
    states := [Initial(), a1, a2, a3, a4, a5, a5, a7];
    GoodbyeIsProduced();
    assert After(a1, ops[1]) == a2;
    assert After(a3, ops[3]) == a4;
    GoodbyeIsSetAside(a4.pty);
    assert Join(PendingOf(a5.pty.pending, "a")) == "";
    assert After(a4, ops[4]) == a5;
    assert After(a5, ops[6]) == a7;
    assert FramesOf(a7.sent, "b") == [];
  }
}
