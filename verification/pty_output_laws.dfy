/** How often the end of a shell is announced. */
module PtyOutputLaws {
  import opened PtyOutput
  import opened PtyOutputRuns

  function Announced(sent: seq<Message>, s: SessionId): nat {
    if sent == [] then 0 else
      Announced(sent[..|sent| - 1], s) + if sent[|sent| - 1] == SessionExit(s) then 1 else 0
  }

  lemma AnnouncedOne(sent: seq<Message>, m: Message, s: SessionId)
    ensures Announced(sent + [m], s) == Announced(sent, s) + if m == SessionExit(s) then 1 else 0
  {
  }

  lemma {:induction false} AnnouncedExits(sent: seq<Message>, order: seq<SessionId>, s: SessionId)
    requires forall i, j :: 0 <= i < j < |order| ==> order[i] != order[j]
    ensures Announced(sent + Exits(order), s) == Announced(sent, s) + if s in order then 1 else 0
  {
    if order == [] {
      assert sent + Exits(order) == sent;
    } else {
      var n := |order| - 1;
      assert sent + Exits(order) == sent + Exits(order[..n]) + [SessionExit(order[n])];
      assert order == order[..n] + [order[n]];
      AnnouncedOne(sent + Exits(order[..n]), SessionExit(order[n]), s);
      AnnouncedExits(sent, order[..n], s);
    }
  }

  function Closes(ops: seq<Op>, n: nat, s: SessionId): nat
    requires n <= |ops|
  {
    if n == 0 then 0 else Closes(ops, n - 1, s) + if ops[n - 1] == Close(s) then 1 else 0
  }

  /** How often the session has ended without being closed. */
  ghost function Ends(states: seq<Agent>, ops: seq<Op>, n: nat, s: SessionId): nat
    requires IsRun(states, ops) && n <= |ops|
  {
    if n == 0 then 0 else Ends(states, ops, n - 1, s) + if EndsAt(states[n - 1], ops[n - 1], s) then 1 else 0
  }

  function Noted(a: Agent, s: SessionId): nat {
    if s in a.pty.exited then 1 else 0
  }

  /** The step takes all that waits out of the channel. */
  predicate Reads(a: Agent, op: Op) {
    op.DrainExits? || (op.Flush? && op.session in a.buffers && op.session in a.pty.sessions)
  }

  predicate Whereabouts(a: Agent, op: Op, b: Agent, s: SessionId) {
    var leaves := Reads(a, op) && Exited(s) in a.pty.channel;
    && (s in b.pty.sessions <==> (s in a.pty.sessions || op == Start(s)) && op != Close(s) && !leaves)
    && (s in b.pty.exited <==> !op.DrainExits? && (s in a.pty.exited || (s in a.pty.sessions && leaves)))
    && (s in b.started <==> s in a.started || op == Start(s))
    && (Exited(s) in b.log <==> Exited(s) in a.log || op == Finish(s))
    && (Exited(s) in b.pty.channel <==> !Reads(a, op) && (Exited(s) in a.pty.channel || op == Finish(s)))
  }

  lemma FlushWhereabouts(a: Agent, x: SessionId, s: SessionId)
    ensures Whereabouts(a, Flush(x), After(a, Flush(x)), s)
  {
    DrainedFacts(a.pty, s);
    DrainedKeeps(a.pty);
  }

  lemma DrainedKeeps(p: Pty)
    ensures Drained(p).channel == []
  {
    DrainedFacts(p, "");
  }

  lemma DrainWhereabouts(a: Agent, order: seq<SessionId>, s: SessionId)
    ensures Whereabouts(a, DrainExits(order), After(a, DrainExits(order)), s)
  {
    DrainedFacts(a.pty, s);
  }

  lemma WhereaboutsStep(a: Agent, op: Op, s: SessionId)
    requires Enabled(a, op)
    ensures Whereabouts(a, op, After(a, op), s)
  {
    match op
    case Flush(x) => FlushWhereabouts(a, x, s);
    case DrainExits(order) => DrainWhereabouts(a, order, s);
    case _ =>
  }

  /** The ends announced by one step: those that were noted, when they are drained, and the closed one. */
  lemma SentStep(a: Agent, op: Op, s: SessionId)
    requires Enabled(a, op)
    ensures var leaves := s in a.pty.sessions && Exited(s) in a.pty.channel;
      Announced(After(a, op).sent, s) == Announced(a.sent, s) + (if op == Close(s) then 1 else 0)
        + (if op.DrainExits? && (s in a.pty.exited || leaves) then 1 else 0)
  {
    match op
    case DrainExits(order) =>
      DrainedFacts(a.pty, s);
      AnnouncedExits(a.sent, order, s);
    case Close(x) => AnnouncedOne(a.sent, SessionExit(x), s);
    case Flush(x) => FlushAnnounces(a, x, s);
    case _ =>
  }

  lemma AnnouncedStep(a: Agent, op: Op, s: SessionId)
    requires Enabled(a, op) && Tracked(a, s)
    ensures var b := After(a, op);
      Announced(b.sent, s) + Noted(b, s) == Announced(a.sent, s) + Noted(a, s)
        + (if op == Close(s) then 1 else 0) + (if EndsAt(a, op, s) then 1 else 0)
  {
    SentStep(a, op, s);
    WhereaboutsStep(a, op, s);
  }

  lemma FlushAnnounces(a: Agent, x: SessionId, s: SessionId)
    ensures Announced(After(a, Flush(x)).sent, s) == Announced(a.sent, s)
  {
    if FlushedFrames(a, x) != [] {
      AnnouncedOne(a.sent, Stdout(x, FlushedFrames(a, x)[0]), s);
    }
    DrainedFacts(a.pty, x);
  }

  /** Every end is announced or noted to be: one for each close, and one for an end of its own. */
  lemma {:induction false} EndsAreAnnounced(states: seq<Agent>, ops: seq<Op>, n: nat, s: SessionId)
    requires IsRun(states, ops) && n <= |ops|
    ensures Announced(states[n].sent, s) + Noted(states[n], s) == Closes(ops, n, s) + Ends(states, ops, n, s)
  {
    if n > 0 {
      EndsAreAnnounced(states, ops, n - 1, s);
      RunOk(states, ops, n - 1, s);
      AnnouncedStep(states[n - 1], ops[n - 1], s);
    }
  }

  ghost predicate Finishes(ops: seq<Op>, n: nat, s: SessionId)
    requires n <= |ops|
  {
    exists i :: 0 <= i < n && ops[i] == Finish(s)
  }

  /**
   An unclosed session has not ended yet, and its reader's last word, if said, waits in the channel; or it has ended,
   once, after that word.
   */
  predicate LivesOrEnded(a: Agent, s: SessionId, finishes: bool, closes: nat, ends: nat) {
    && (finishes <==> Exited(s) in a.log)
    && (s !in a.started ==> s !in a.pty.sessions && ends == 0 && Exited(s) !in a.log)
    && (s in a.pty.sessions ==> ends == 0 && (Exited(s) in a.log ==> Exited(s) in a.pty.channel))
    && (s in a.started && s !in a.pty.sessions ==> ends <= 1 && (closes == 0 ==> ends == 1 && Exited(s) in a.log))
  }

  lemma LivesOrEndedStep(a: Agent, op: Op, s: SessionId, finishes: bool, closes: nat, ends: nat)
    requires Enabled(a, op) && Suffix(a.pty.channel, a.log) && LivesOrEnded(a, s, finishes, closes, ends)
    ensures LivesOrEnded(After(a, op), s, finishes || op == Finish(s), closes + (if op == Close(s) then 1 else 0),
                         ends + (if EndsAt(a, op, s) then 1 else 0))
  {
    WhereaboutsStep(a, op, s);
  }

  lemma {:induction false} LivesOrEndedInRun(states: seq<Agent>, ops: seq<Op>, n: nat, s: SessionId)
    requires IsRun(states, ops) && n <= |ops|
    ensures LivesOrEnded(states[n], s, Finishes(ops, n, s), Closes(ops, n, s), Ends(states, ops, n, s))
  {
    if n > 0 {
      LivesOrEndedInRun(states, ops, n - 1, s);
      RunOk(states, ops, n - 1, s);
      LivesOrEndedStep(states[n - 1], ops[n - 1], s, Finishes(ops, n - 1, s), Closes(ops, n - 1, s),
        Ends(states, ops, n - 1, s));
    }
  }

  /**
   After the exits have been drained, the end of a session has been announced once for each time it was closed, and
   once more if it had ended by itself, which it does at most once. One that was never closed has been announced
   exactly once if its reader has finished, and otherwise not at all.
   */
  lemma EndIsAnnouncedOnce(states: seq<Agent>, ops: seq<Op>, n: nat, s: SessionId)
    requires IsRun(states, ops) && n < |ops| && ops[n].DrainExits?
    ensures Announced(states[n + 1].sent, s) == Closes(ops, n + 1, s) + Ends(states, ops, n + 1, s)
    ensures Ends(states, ops, n + 1, s) <= 1
    ensures Closes(ops, n + 1, s) == 0 ==> Announced(states[n + 1].sent, s) == if Finishes(ops, n, s) then 1 else 0
  {
    EndsAreAnnounced(states, ops, n + 1, s);
    LivesOrEndedInRun(states, ops, n + 1, s);
    DrainedFacts(states[n].pty, s);
  }

  // ---------------------------------------------------------------- which sessions have a buffer

  /** The session was started in step `k`, and its end has not been announced since. */
  predicate UnannouncedSince(ops: seq<Op>, k: nat, n: nat, s: SessionId)
    requires n <= |ops|
  {
    && k < n && ops[k] == Start(s)
    && forall m :: k < m < n ==> ops[m] != Close(s) && !(ops[m].DrainExits? && s in ops[m].order)
  }

  lemma BufferStep(a: Agent, op: Op, s: SessionId)
    requires Enabled(a, op)
    ensures s in After(a, op).buffers <==>
      op == Start(s) || (s in a.buffers && op != Close(s) && !(op.DrainExits? && s in op.order))
  {
  }

  /** A session has a buffer exactly from its start until its end is announced. */
  lemma {:induction false} BufferedExactly(states: seq<Agent>, ops: seq<Op>, n: nat, s: SessionId)
    requires IsRun(states, ops) && n <= |ops|
    ensures s in states[n].buffers <==> exists k: nat :: UnannouncedSince(ops, k, n, s)
  {
    if n > 0 {
      var m := n - 1;
      BufferedExactly(states, ops, m, s);
      BufferStep(states[m], ops[m], s);
      if ops[m] == Start(s) {
        assert UnannouncedSince(ops, m, n, s);
      }
      forall k: nat | k < m ensures UnannouncedSince(ops, k, n, s) <==>
        UnannouncedSince(ops, k, m, s) && ops[m] != Close(s) && !(ops[m].DrainExits? && s in ops[m].order) {
      }
    }
  }
}
