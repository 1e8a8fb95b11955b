/** What the terminal shows, told from the history and the messages that came in. */
module TerminalPaneLaws {
  import opened TerminalPanes
  import opened TerminalPaneRuns

  predicate Answers(op: Op) {
    op.HistoryArrives? || op.HistoryFails?
  }

  /** The chunks to be shown: those that arrived, unless the pane was gone by then. */
  function ToShow(p: Pane, op: Op): seq<Chunk> {
    if op.HistoryArrives? && !p.cancelled then op.chunks else []
  }

  /** The highest end among the chunks, or zero. */
  function Mark(chunks: seq<Chunk>): int {
    if chunks == [] then 0 else
      var rest, last := Mark(chunks[..|chunks| - 1]), chunks[|chunks| - 1];
      if last.endSeq > rest then last.endSeq else rest
  }

  lemma {:induction false} MarkIsHighest(chunks: seq<Chunk>)
    ensures Mark(chunks) >= 0 && forall i :: 0 <= i < |chunks| ==> chunks[i].endSeq <= Mark(chunks)
    ensures Mark(chunks) == 0 || exists i :: 0 <= i < |chunks| && chunks[i].endSeq == Mark(chunks)
  {
    if chunks != [] {
      var n := |chunks| - 1;
      MarkIsHighest(chunks[..n]);
      assert chunks[n].endSeq <= Mark(chunks[..n]) && Mark(chunks) != 0 ==>
        exists i :: 0 <= i < n && chunks[..n][i].endSeq == Mark(chunks);
    }
  }

  /** The first writes are exactly these chunks. */
  predicate StartsWith(written: seq<Write>, chunks: seq<Chunk>) {
    |chunks| <= |written| && forall i :: 0 <= i < |chunks| ==> written[i] == History(chunks[i])
  }

  predicate OnlyLiveFrom(written: seq<Write>, n: nat) {
    forall i :: n <= i < |written| ==> written[i].Live?
  }

  /**
   While replaying, the writes are the chunks up to the one awaited, and the mark is the highest end of those before;
   afterwards they are all the chunks and then live frames only, and the flush started above the highest end.
   */
  predicate ShowsHistory(p: Pane, chunks: seq<Chunk>) {
    match p.phase
    case Fetching => false
    case Replaying(cs, at) =>
      && cs == chunks && at < |chunks| && p.restoring && p.restoredSeq == Mark(chunks[..at])
      && StartsWith(p.written, chunks[..at + 1]) && |p.written| == at + 1
    case _ =>
      !p.restoring && StartsWith(p.written, chunks) && OnlyLiveFrom(p.written, |chunks|) && p.floor == Mark(chunks)
  }

  predicate Blank(p: Pane) {
    p.phase.Fetching? && p.restoring && p.written == [] && p.restoredSeq == 0
  }

  lemma FinishShows(p: Pane, chunks: seq<Chunk>)
    requires StartsWith(p.written, chunks) && |p.written| == |chunks| && p.restoredSeq == Mark(chunks)
    ensures ShowsHistory(Finish(p), chunks)
  {
  }

  lemma ReplayShows(p: Pane, chunks: seq<Chunk>, at: nat)
    requires at <= |chunks| && p.restoring && StartsWith(p.written, chunks[..at]) && |p.written| == at
    requires p.restoredSeq == Mark(chunks[..at])
    ensures ShowsHistory(ReplayFrom(p, chunks, at), chunks)
  {
    if at == |chunks| {
      assert chunks[..at] == chunks;
      FinishShows(p, chunks);
    } else {
      assert forall i :: 0 <= i < at ==> chunks[..at][i] == chunks[..at + 1][i];
    }
  }

  lemma AnswerShows(p: Pane, op: Op)
    requires Blank(p) && Answers(op)
    ensures ShowsHistory(After(p, op), ToShow(p, op))
  {
    assert ToShow(p, op)[..0] == [];
    if op.HistoryArrives? && !p.cancelled {
      ReplayShows(p, op.chunks, 0);
    } else {
      FinishShows(p, []);
    }
  }

  lemma ResumeShows(p: Pane, chunks: seq<Chunk>)
    requires Enabled(p, Resume) && p.phase.Replaying? && ShowsHistory(p, chunks)
    ensures ShowsHistory(After(p, Resume), chunks)
  {
    var at := p.phase.at;
    assert chunks[..at + 1][..at] == chunks[..at];
    var restored := if chunks[at].endSeq > p.restoredSeq then chunks[at].endSeq else p.restoredSeq;
    ReplayShows(p.(restoredSeq := restored), chunks, at + 1);
  }

  lemma ShowsStep(p: Pane, op: Op, chunks: seq<Chunk>)
    requires Enabled(p, op) && ShowsHistory(p, chunks)
    ensures ShowsHistory(After(p, op), chunks)
  {
    if op.Resume? && p.phase.Replaying? {
      ResumeShows(p, chunks);
    }
  }

  lemma {:induction false} BlankUntilAnswered(states: seq<Pane>, ops: seq<Op>, n: nat)
    requires IsRun(states, ops) && n <= |ops| && forall i :: 0 <= i < n ==> !Answers(ops[i])
    ensures Blank(states[n])
  {
    if n > 0 {
      BlankUntilAnswered(states, ops, n - 1);
    }
  }

  lemma AnsweredStep(p: Pane, op: Op)
    requires Enabled(p, op) && !p.phase.Fetching?
    ensures !After(p, op).phase.Fetching? && !Answers(op)
  {
  }

  lemma {:induction false} AnsweredOnce(states: seq<Pane>, ops: seq<Op>, m: nat, n: nat)
    requires IsRun(states, ops) && m <= n <= |ops| && !states[m].phase.Fetching?
    ensures !states[n].phase.Fetching? && forall i :: m <= i < n ==> !Answers(ops[i])
  {
    if m < n {
      AnsweredOnce(states, ops, m, n - 1);
      AnsweredStep(states[n - 1], ops[n - 1]);
    }
  }

  /**
   Once the history has arrived, whatever comes in and however long each write takes, the terminal shows all its chunks
   in order and before any live frame.
   */
  lemma {:induction false} HistoryIsShown(states: seq<Pane>, ops: seq<Op>, m: nat, n: nat)
    requires IsRun(states, ops) && m < n <= |ops| && Answers(ops[m])
    ensures ShowsHistory(states[n], ToShow(states[m], ops[m]))
  {
    if m == n - 1 {
      FirstAnswer(states, ops, m);
      AnswerShows(states[m], ops[m]);
    } else {
      HistoryIsShown(states, ops, m, n - 1);
      ShowsStep(states[n - 1], ops[n - 1], ToShow(states[m], ops[m]));
    }
  }

  lemma FirstAnswer(states: seq<Pane>, ops: seq<Op>, m: nat)
    requires IsRun(states, ops) && m < |ops| && Answers(ops[m])
    ensures Blank(states[m])
  {
    forall i | 0 <= i < m ensures !Answers(ops[i]) {
      if Answers(ops[i]) {
        AnsweredOnce(states, ops, i + 1, m);
      }
    }
    BlankUntilAnswered(states, ops, m);
  }

  // ---------------------------------------------------------------- how far the replay has come

  function Resumes(ops: seq<Op>, m: nat, n: nat): nat
    requires m <= n <= |ops|
  {
    if m == n then 0 else Resumes(ops, m, n - 1) + if ops[n - 1].Resume? then 1 else 0
  }

  predicate HasReplayed(p: Pane, chunks: seq<Chunk>, done: nat) {
    if done < |chunks| then p.phase == Replaying(chunks, done) else p.phase.Flushing? || p.phase.Idle?
  }

  lemma AdvanceStep(p: Pane, op: Op, chunks: seq<Chunk>, done: nat)
    requires Enabled(p, op) && HasReplayed(p, chunks, done)
    ensures HasReplayed(After(p, op), chunks, if op.Resume? then done + 1 else done)
  {
  }

  /** It is a matter of the writes that have ended alone: the replay is over when as many have as there are chunks. */
  lemma {:induction false} ReplayAdvances(states: seq<Pane>, ops: seq<Op>, m: nat, n: nat)
    requires IsRun(states, ops) && m < n <= |ops| && Answers(ops[m])
    ensures HasReplayed(states[n], ToShow(states[m], ops[m]), Resumes(ops, m + 1, n))
  {
    if m == n - 1 {
      FirstAnswer(states, ops, m);
    } else {
      ReplayAdvances(states, ops, m, n - 1);
      AdvanceStep(states[n - 1], ops[n - 1], ToShow(states[m], ops[m]), Resumes(ops, m + 1, n - 1));
    }
  }

  // ---------------------------------------------------------------- everything that is shown

  function Received(ops: seq<Op>): seq<Frame> {
    if ops == [] then [] else
      var last := ops[|ops| - 1];
      if last.Receive? then Received(ops[..|ops| - 1]) + [last.frame] else Received(ops[..|ops| - 1])
  }

  lemma ReceivedStep(p: Pane, op: Op)
    requires Enabled(p, op)
    ensures After(p, op).received == if op.Receive? then p.received + [op.frame] else p.received
  {
  }

  lemma {:induction false} ReceivedIsReceived(states: seq<Pane>, ops: seq<Op>, n: nat)
    requires IsRun(states, ops) && n <= |ops|
    ensures states[n].received == Received(ops[..n])
  {
    if n > 0 {
      ReceivedIsReceived(states, ops, n - 1);
      ReceivedStep(states[n - 1], ops[n - 1]);
      assert ops[..n][..n - 1] == ops[..n - 1];
    }
  }

  /**
   When restoring is over the terminal has shown the whole history, then every frame received with a number above its
   highest end, once, and nothing else.
   */
  lemma ShownExactly(states: seq<Pane>, ops: seq<Op>, m: nat, n: nat, f: Frame)
    requires IsRun(states, ops) && m < n <= |ops| && Answers(ops[m])
    requires !states[n].cancelled && states[n].phase.Idle? && Increasing(Received(ops[..n]))
    ensures var chunks, p := ToShow(states[m], ops[m]), states[n];
      && StartsWith(p.written, chunks) && OnlyLiveFrom(p.written, |chunks|)
      && multiset(Lives(p.written))[f] == if f in Received(ops[..n]) && f.seqNo > Mark(chunks) then 1 else 0
  {
    HistoryIsShown(states, ops, m, n);
    ReceivedIsReceived(states, ops, n);
    EveryLiveFrameOnce(states, ops, n, f);
  }

  // ---------------------------------------------------------------- a pane that is gone

  /** The pane went before its restoring ended: of the live frames only those that came after that are written. */
  predicate QueueDropped(p: Pane) {
    && p.cancelled && !p.phase.Flushing? && (p.restoring <==> p.phase.Fetching? || p.phase.Replaying?)
    && (p.restoring ==> p.late == [])
    && forall f :: f in Lives(p.written) ==> f in p.late
  }

  lemma DroppedStep(p: Pane, op: Op)
    requires Enabled(p, op) && QueueDropped(p)
    ensures QueueDropped(After(p, op))
  {
    if op.Receive? {
      LivesOne(p.written, Live(op.frame));
    } else if op.Resume? && p.phase.at + 1 < |p.phase.chunks| {
      LivesOne(p.written, History(p.phase.chunks[p.phase.at + 1]));
    }
  }

  lemma {:induction false} StillRestoring(states: seq<Pane>, ops: seq<Op>, n: nat)
    requires IsRun(states, ops) && n <= |ops|
    ensures var p := states[n];
      && (p.restoring <==> p.phase.Fetching? || p.phase.Replaying?)
      && (p.restoring ==> p.late == [] && Lives(p.written) == [])
  {
    if n > 0 {
      StillRestoring(states, ops, n - 1);
      var p, op := states[n - 1], ops[n - 1];
      if p.restoring && op.HistoryArrives? && op.chunks != [] {
        LivesOne(p.written, History(op.chunks[0]));
      } else if p.restoring && op.Resume? && p.phase.at + 1 < |p.phase.chunks| {
        LivesOne(p.written, History(p.phase.chunks[p.phase.at + 1]));
      }
    }
  }

  /** Frames queued for a pane that goes while it is still restoring are never written. */
  lemma {:induction false} CancelDropsTheQueue(states: seq<Pane>, ops: seq<Op>, m: nat, n: nat)
    requires IsRun(states, ops) && m <= n <= |ops| && states[m].restoring && states[m].cancelled
    ensures QueueDropped(states[n])
  {
    if m == n {
      StillRestoring(states, ops, m);
    } else {
      CancelDropsTheQueue(states, ops, m, n - 1);
      DroppedStep(states[n - 1], ops[n - 1]);
    }
  }
}
