/**
 The browser's merge of replayed history with live frames. The restoring function is cut at its awaits: each method
 of the class is what runs without interruption, so socket messages can come between any two of them.
 */
module TerminalPanes {
  datatype Frame = Frame(seqNo: int, data: string)

  datatype Chunk = Chunk(endSeq: int, data: string)

  datatype Write = History(chunk: Chunk) | Live(frame: Frame)

  /**
   Where the restoring function waits: for the history, for a chunk's write, for a queued frame's write, or no more.
   */
  datatype Phase = Fetching | Replaying(chunks: seq<Chunk>, at: nat) | Flushing(index: nat) | Idle

  /**
   `written` has all writes to the terminal in the order they were issued. The last three record the run: the live
   frames that came in, those of them that came in after the queue was closed, and the mark the flush started from.
   */
  datatype Pane = Pane(
    restoring: bool, restoredSeq: int, queued: seq<Frame>, phase: Phase, cancelled: bool,
    written: seq<Write>, received: seq<Frame>, late: seq<Frame>, floor: int)

  datatype Op = HistoryArrives(chunks: seq<Chunk>) | HistoryFails | Resume | Receive(frame: Frame) | Cancel

  function Initial(): Pane {
    Pane(true, 0, [], Fetching, false, [], [], [], 0)
  }

  predicate PhaseOk(p: Pane) {
    match p.phase
    case Replaying(chunks, at) => at < |chunks|
    case Flushing(index) => index < |p.queued|
    case _ => true
  }

  predicate Enabled(p: Pane, op: Op) {
    match op
    case HistoryArrives(_) => p.phase.Fetching?
    case HistoryFails => p.phase.Fetching?
    case Resume => PhaseOk(p) && (p.phase.Replaying? || p.phase.Flushing?)
    case Receive(_) => true
    case Cancel => true
  }

  /** The first queued frame from `i` on that is above `seqNo`, or the length of the queue. */
  function NextAbove(queued: seq<Frame>, i: nat, seqNo: int): (j: nat)
    requires i <= |queued|
    ensures i <= j <= |queued|
    ensures forall k :: i <= k < j ==> queued[k].seqNo <= seqNo
    ensures j < |queued| ==> queued[j].seqNo > seqNo
    decreases |queued| - i
  {
    if i == |queued| || queued[i].seqNo > seqNo then i else NextAbove(queued, i + 1, seqNo)
  }

  function FlushFrom(p: Pane, i: nat): Pane
    requires i <= |p.queued|
  {
    var j := NextAbove(p.queued, i, p.restoredSeq);
    if j == |p.queued| then p.(queued := [], phase := Idle)
    else p.(written := p.written + [Live(p.queued[j])], phase := Flushing(j))
  }

  function Finish(p: Pane): Pane {
    var q := p.(restoring := false, floor := p.restoredSeq);
    if q.cancelled then q.(queued := [], phase := Idle) else FlushFrom(q, 0)
  }

  function ReplayFrom(p: Pane, chunks: seq<Chunk>, at: nat): Pane
    requires at <= |chunks|
  {
    if at == |chunks| then Finish(p)
    else p.(written := p.written + [History(chunks[at])], phase := Replaying(chunks, at))
  }

  function After(p: Pane, op: Op): Pane
    requires Enabled(p, op)
  {
    match op
    case HistoryArrives(chunks) => if p.cancelled then Finish(p) else ReplayFrom(p, chunks, 0)
    case HistoryFails => Finish(p)
    case Resume =>
      (match p.phase
       case Replaying(chunks, at) =>
         var restored := if chunks[at].endSeq > p.restoredSeq then chunks[at].endSeq else p.restoredSeq;
         ReplayFrom(p.(restoredSeq := restored), chunks, at + 1)
       case Flushing(index) => FlushFrom(p.(restoredSeq := p.queued[index].seqNo), index + 1))
    case Receive(f) =>
      var q := p.(received := p.received + [f]);
      if q.restoring then q.(queued := q.queued + [f])
      else if f.seqNo > q.restoredSeq
        then q.(written := q.written + [Live(f)], restoredSeq := f.seqNo, late := q.late + [f])
      else q.(late := q.late + [f])
    case Cancel => p.(cancelled := true)
  }

  class TerminalPane {
    var restoring: bool
    var restoredSeq: int
    var pendingStdout: seq<Frame>
    var phase: Phase
    var cancelled: bool
    var written: seq<Write>
    ghost var received: seq<Frame>
    ghost var late: seq<Frame>
    ghost var floor: int

    ghost function View(): Pane
      reads this
    {
      Pane(restoring, restoredSeq, pendingStdout, phase, cancelled, written, received, late, floor)
    }

    constructor ()
      ensures View() == Initial()
    {
      restoring, restoredSeq, pendingStdout, phase := true, 0, [], Fetching;
      cancelled, written, received, late, floor := false, [], [], [], 0;
    }

    method FlushPending(from: nat)
      requires from <= |pendingStdout|
      modifies this
      ensures View() == FlushFrom(old(View()), from)
    {
      var i := from;
      while i < |pendingStdout| && pendingStdout[i].seqNo <= restoredSeq
        invariant i <= |pendingStdout| && View() == old(View())
        invariant NextAbove(pendingStdout, from, restoredSeq) == NextAbove(pendingStdout, i, restoredSeq)
      {
        i := i + 1;
      }
      if i < |pendingStdout| {
        written := written + [Live(pendingStdout[i])];
        phase := Flushing(i);
      } else {
        pendingStdout := [];
        phase := Idle;
      }
    }

    method FinishRestoring()
      modifies this
      ensures View() == Finish(old(View()))
    {
      restoring := false;
      floor := restoredSeq;
      if cancelled {
        pendingStdout := [];
        phase := Idle;
      } else {
        FlushPending(0);
      }
    }

    method Replay(chunks: seq<Chunk>, at: nat)
      requires at <= |chunks|
      modifies this
      ensures View() == ReplayFrom(old(View()), chunks, at)
    {
      if at == |chunks| {
        FinishRestoring();
      } else {
        written := written + [History(chunks[at])];
        phase := Replaying(chunks, at);
      }
    }

    method OnHistory(chunks: seq<Chunk>)
      requires phase.Fetching?
      modifies this
      ensures View() == After(old(View()), HistoryArrives(chunks))
    {
      if cancelled {
        FinishRestoring();
      } else {
        Replay(chunks, 0);
      }
    }

    method OnHistoryError()
      requires phase.Fetching?
      modifies this
      ensures View() == After(old(View()), HistoryFails)
    {
      FinishRestoring();
    }

    method OnWritten()
      requires Enabled(View(), Resume)
      modifies this
      ensures View() == After(old(View()), Resume)
    {
      match phase {
        case Replaying(chunks, at) =>
          if chunks[at].endSeq > restoredSeq {
            restoredSeq := chunks[at].endSeq;
          }
          Replay(chunks, at + 1);
        case Flushing(index) =>
          restoredSeq := pendingStdout[index].seqNo;
          FlushPending(index + 1);
      }
    }

    method OnStdout(frame: Frame)
      modifies this
      ensures View() == After(old(View()), Receive(frame))
    {
      received := received + [frame];
      if restoring {
        pendingStdout := pendingStdout + [frame];
        return;
      }
      late := late + [frame];
      if frame.seqNo > restoredSeq {
        written := written + [Live(frame)];
        restoredSeq := frame.seqNo;
      }
    }

    method OnUnmount()
      modifies this
      ensures View() == After(old(View()), Cancel)
    {
      cancelled := true;
    }
  }

  // ---------------------------------------------------------------- what is written

  predicate Increasing(frames: seq<Frame>) {
    forall i, j :: 0 <= i < j < |frames| ==> frames[i].seqNo < frames[j].seqNo
  }

  function Lives(written: seq<Write>): seq<Frame> {
    if written == [] then [] else
      var last := written[|written| - 1];
      if last.Live? then Lives(written[..|written| - 1]) + [last.frame] else Lives(written[..|written| - 1])
  }

  function Above(frames: seq<Frame>, floor: int): seq<Frame> {
    if frames == [] then [] else
      var last := frames[|frames| - 1];
      if last.seqNo > floor then Above(frames[..|frames| - 1], floor) + [last] else Above(frames[..|frames| - 1], floor)
  }

  lemma LivesOne(written: seq<Write>, w: Write)
    ensures Lives(written + [w]) == if w.Live? then Lives(written) + [w.frame] else Lives(written)
  {
  }

  lemma AboveOne(frames: seq<Frame>, f: Frame, floor: int)
    ensures Above(frames + [f], floor) == if f.seqNo > floor then Above(frames, floor) + [f] else Above(frames, floor)
  {
  }

  lemma {:induction false} AboveSkips(frames: seq<Frame>, i: nat, j: nat, floor: int)
    requires i <= j <= |frames| && forall k :: i <= k < j ==> frames[k].seqNo <= floor
    ensures Above(frames[..j], floor) == Above(frames[..i], floor)
  {
    if i < j {
      AboveSkips(frames, i, j - 1, floor);
      assert frames[..j] == frames[..j - 1] + [frames[j - 1]];
      AboveOne(frames[..j - 1], frames[j - 1], floor);
    }
  }

  lemma {:induction false} AboveAll(frames: seq<Frame>, more: seq<Frame>, floor: int)
    requires forall k :: 0 <= k < |more| ==> more[k].seqNo > floor
    ensures Above(frames + more, floor) == Above(frames, floor) + more
  {
    if more == [] {
      assert frames + more == frames;
    } else {
      var n := |more| - 1;
      assert frames + more == frames + more[..n] + [more[n]];
      AboveOne(frames + more[..n], more[n], floor);
      AboveAll(frames, more[..n], floor);
    }
  }

  lemma {:induction false} AboveIncreasing(frames: seq<Frame>, floor: int)
    requires Increasing(frames)
    ensures Increasing(Above(frames, floor))
    ensures forall f :: f in Above(frames, floor) <==> f in frames && f.seqNo > floor
  {
    if frames != [] {
      var n := |frames| - 1;
      assert frames == frames[..n] + [frames[n]];
      AboveIncreasing(frames[..n], floor);
    }
  }
}
