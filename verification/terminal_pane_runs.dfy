/** What the terminal shows after any interleaving of replay, awaited writes and socket messages. */
module TerminalPaneRuns {
  import opened TerminalPanes

  ghost predicate IsRun(states: seq<Pane>, ops: seq<Op>) {
    && |states| == |ops| + 1 && states[0] == Initial()
    && forall i :: 0 <= i < |ops| ==> Enabled(states[i], ops[i]) && states[i + 1] == After(states[i], ops[i])
  }

  function HighestEnd(written: seq<Write>): int {
    if written == [] then 0 else
      var rest, last := HighestEnd(written[..|written| - 1]), written[|written| - 1];
      if last.History? && last.chunk.endSeq > rest then last.chunk.endSeq else rest
  }

  lemma HighestEndOne(written: seq<Write>, w: Write)
    ensures HighestEnd(written + [w])
            == if w.History? && w.chunk.endSeq > HighestEnd(written) then w.chunk.endSeq else HighestEnd(written)
  {
  }

  /** While replaying, the mark is one write behind; afterwards `floor` is the highest end replayed. */
  predicate FloorOk(p: Pane) {
    match p.phase
    case Fetching => p.restoredSeq == HighestEnd(p.written)
    case Replaying(chunks, at) =>
      && at < |chunks| && |p.written| > 0 && p.written[|p.written| - 1] == History(chunks[at])
      && p.restoredSeq == HighestEnd(p.written[..|p.written| - 1])
    case _ => p.floor == HighestEnd(p.written)
  }

  predicate SeqOk(restoredSeq: int, floor: int, received: seq<Frame>) {
    floor <= restoredSeq && (restoredSeq == floor || (|received| > 0 && restoredSeq <= received[|received| - 1].seqNo))
  }

  predicate Inv(p: Pane) {
    match p.phase
    case Fetching => p.restoring && p.queued == p.received && p.late == [] && Lives(p.written) == [] && p.floor == 0
    case Replaying(_, _) => p.restoring && p.queued == p.received && p.late == [] && Lives(p.written) == []
      && p.floor == 0
    case Flushing(i) =>
      && !p.restoring && SeqOk(p.restoredSeq, p.floor, p.received)
      && i < |p.queued| && p.received == p.queued + p.late && p.queued[i].seqNo > p.floor
      && multiset(Lives(p.written)) == multiset(Above(p.queued[..i + 1], p.floor)) + multiset(p.late)
    case Idle =>
      && !p.restoring && SeqOk(p.restoredSeq, p.floor, p.received)
      && multiset(Lives(p.written)) == multiset(Above(p.received, p.floor))
  }

  /** The flush starts with the first queued frame above the replayed history, if there is one. */
  lemma FlushStart(queued: seq<Frame>, floor: int, written: seq<Write>)
    requires Lives(written) == []
    ensures var j := NextAbove(queued, 0, floor);
      if j == |queued| then Above(queued, floor) == []
      else Above(queued[..j + 1], floor) == [queued[j]] == Lives(written + [Live(queued[j])])
           && HighestEnd(written + [Live(queued[j])]) == HighestEnd(written)
  {
    var j := NextAbove(queued, 0, floor);
    AboveSkips(queued, 0, j, floor);
    if j == |queued| {
      assert queued[..j] == queued;
    } else {
      assert queued[..j + 1] == queued[..j] + [queued[j]];
      AboveOne(queued[..j], queued[j], floor);
      LivesOne(written, Live(queued[j]));
      HighestEndOne(written, Live(queued[j]));
    }
  }

  lemma FlushStartInv(p: Pane)
    requires p.queued == p.received && p.late == [] && Lives(p.written) == [] && !p.cancelled
    requires p.restoredSeq == HighestEnd(p.written)
    ensures Inv(Finish(p)) && FloorOk(Finish(p))
  {
    FlushStart(p.queued, p.restoredSeq, p.written);
    assert p.queued + [] == p.queued;
  }

  /** The queue is increasing, so after one queued frame the very next one is written, whatever was marked meanwhile. */
  lemma FlushNext(p: Pane)
    requires p.phase.Flushing? && Inv(p) && Increasing(p.received)
    ensures var i, q := p.phase.index, After(p, Resume);
      if i + 1 < |p.queued| then
        q == p.(restoredSeq := p.queued[i].seqNo, written := p.written + [Live(p.queued[i + 1])],
          phase := Flushing(i + 1))
      else q == p.(restoredSeq := p.queued[i].seqNo, queued := [], phase := Idle)
  {
    var i := p.phase.index;
    if i + 1 < |p.queued| {
      assert p.queued[i] == p.received[i] && p.queued[i + 1] == p.received[i + 1];
      assert p.received[i].seqNo < p.received[i + 1].seqNo;
    }
  }

  /** Everything after the frame being written is above it, and so above the replayed history. */
  lemma QueueFacts(p: Pane)
    requires p.phase.Flushing? && Inv(p) && Increasing(p.received)
    ensures forall k :: p.phase.index < k < |p.queued| ==> p.queued[k].seqNo > p.queued[p.phase.index].seqNo
    ensures forall k :: 0 <= k < |p.late| ==> p.late[k].seqNo > p.queued[|p.queued| - 1].seqNo
    ensures p.queued[|p.queued| - 1].seqNo > p.floor
    ensures p.queued[p.phase.index].seqNo <= p.received[|p.received| - 1].seqNo
  {
    IncreasingParts(p.queued, p.phase.index, p.late);
  }

  lemma IncreasingParts(a: seq<Frame>, i: nat, b: seq<Frame>)
    requires Increasing(a + b) && i < |a|
    ensures forall k :: i < k < |a| ==> a[k].seqNo > a[i].seqNo
    ensures forall k :: 0 <= k < |b| ==> b[k].seqNo > a[|a| - 1].seqNo
    ensures a[i].seqNo <= a[|a| - 1].seqNo <= (a + b)[|a + b| - 1].seqNo
  {
    var all, m := a + b, |a|;
    forall k | i < k < m ensures a[k].seqNo > a[i].seqNo {
      assert all[i].seqNo < all[k].seqNo;
    }
    forall k | 0 <= k < |b| ensures b[k].seqNo > a[m - 1].seqNo {
      assert all[m - 1].seqNo < all[m + k].seqNo;
    }
  }

  lemma WriteQueued(early: seq<Frame>, later: seq<Frame>, floor: int, written: seq<Write>, f: Frame)
    requires multiset(Lives(written)) == multiset(Above(early, floor)) + multiset(later) && f.seqNo > floor
    ensures multiset(Lives(written + [Live(f)])) == multiset(Above(early + [f], floor)) + multiset(later)
  {
  }

  lemma WriteLater(early: multiset<Frame>, later: seq<Frame>, written: seq<Write>, f: Frame)
    requires multiset(Lives(written)) == early + multiset(later)
    ensures multiset(Lives(written + [Live(f)])) == early + multiset(later + [f])
  {
  }

  lemma FlushNextInv(p: Pane)
    requires p.phase.Flushing? && Inv(p) && FloorOk(p) && Increasing(p.received)
    ensures Inv(After(p, Resume)) && FloorOk(After(p, Resume))
  {
    FlushNext(p);
    QueueFacts(p);
    var i := p.phase.index;
    if i + 1 < |p.queued| {
      FlushAnother(p, After(p, Resume));
    } else {
      FlushEnds(p, After(p, Resume));
    }
  }

  lemma FlushAnother(p: Pane, q: Pane)
    requires p.phase.Flushing? && Inv(p) && FloorOk(p) && p.phase.index + 1 < |p.queued|
    requires p.queued[p.phase.index].seqNo > p.floor && p.queued[p.phase.index + 1].seqNo > p.floor
    requires p.queued[p.phase.index].seqNo <= p.received[|p.received| - 1].seqNo
    requires var i := p.phase.index;
      q == p.(restoredSeq := p.queued[i].seqNo, written := p.written + [Live(p.queued[i + 1])],
        phase := Flushing(i + 1))
    ensures Inv(q) && FloorOk(q)
  {
    var i := p.phase.index;
    var f := p.queued[i + 1];
    assert p.queued[..i + 2] == p.queued[..i + 1] + [f];
    WriteQueued(p.queued[..i + 1], p.late, p.floor, p.written, f);
    HighestEndOne(p.written, Live(f));
  }

  lemma FlushEnds(p: Pane, q: Pane)
    requires p.phase.Flushing? && Inv(p) && FloorOk(p) && p.phase.index + 1 == |p.queued|
    requires p.queued[p.phase.index].seqNo <= p.received[|p.received| - 1].seqNo
    requires forall k :: 0 <= k < |p.late| ==> p.late[k].seqNo > p.floor
    requires q == p.(restoredSeq := p.queued[p.phase.index].seqNo, queued := [], phase := Idle)
    ensures Inv(q) && FloorOk(q)
  {
    assert p.queued[..p.phase.index + 1] == p.queued;
    AboveAll(p.queued, p.late, p.floor);
  }

  lemma ReplayFromInv(p: Pane, chunks: seq<Chunk>, at: nat)
    requires at <= |chunks| && p.restoring && !p.cancelled && p.queued == p.received && p.late == [] && p.floor == 0
    requires Lives(p.written) == [] && p.restoredSeq == HighestEnd(p.written)
    ensures Inv(ReplayFrom(p, chunks, at)) && FloorOk(ReplayFrom(p, chunks, at))
  {
    if at == |chunks| {
      FlushStartInv(p);
    } else {
      LivesOne(p.written, History(chunks[at]));
      assert (p.written + [History(chunks[at])])[..|p.written|] == p.written;
    }
  }

  lemma ReplayInv(p: Pane, op: Op)
    requires Enabled(p, op) && Inv(p) && FloorOk(p) && !p.cancelled
    requires op.HistoryArrives? || op.HistoryFails? || (op.Resume? && p.phase.Replaying?)
    ensures Inv(After(p, op)) && FloorOk(After(p, op))
  {
    match op
    case HistoryArrives(chunks) => ReplayFromInv(p, chunks, 0);
    case HistoryFails => FlushStartInv(p);
    case Resume =>
      var chunks, at, n := p.phase.chunks, p.phase.at, |p.written| - 1;
      assert p.written == p.written[..n] + [p.written[n]];
      HighestEndOne(p.written[..n], p.written[n]);
      ReplayFromInv(p.(restoredSeq := HighestEnd(p.written)), chunks, at + 1);
  }

  /** Once restoring is over a new frame is written exactly if it is above the replayed history, lowered mark or not. */
  lemma ReceiveWrites(p: Pane, f: Frame)
    requires !p.restoring && SeqOk(p.restoredSeq, p.floor, p.received) && Increasing(p.received + [f])
    ensures var q := p.(received := p.received + [f], late := p.late + [f]);
      && After(p, Receive(f))
         == (if f.seqNo > p.floor then q.(written := p.written + [Live(f)], restoredSeq := f.seqNo) else q)
      && SeqOk(After(p, Receive(f)).restoredSeq, p.floor, q.received)
  {
    var all, n := p.received + [f], |p.received|;
    assert n > 0 ==> all[n - 1].seqNo < all[n].seqNo;
  }

  lemma ReceiveFlushing(p: Pane, f: Frame)
    requires p.phase.Flushing? && Inv(p) && Increasing(p.received + [f])
    ensures var q := After(p, Receive(f));
      && q == p.(received := p.received + [f], late := p.late + [f], written := p.written + [Live(f)],
         restoredSeq := f.seqNo)
      && q.received == p.queued + q.late
      && f.seqNo > p.queued[|p.queued| - 1].seqNo
      && SeqOk(q.restoredSeq, q.floor, q.received)
  {
    var i, m := p.phase.index, |p.queued|;
    ReceiveWrites(p, f);
    assert p.received + [f] == p.queued + (p.late + [f]);
    IncreasingParts(p.queued, i, p.late + [f]);
    assert (p.late + [f])[|p.late|] == f;
    assert i < m - 1 ==> p.queued[m - 1].seqNo > p.queued[i].seqNo;
  }

  lemma ReceiveInv(p: Pane, f: Frame)
    requires Inv(p) && Increasing(p.received + [f])
    ensures Inv(After(p, Receive(f)))
  {
    if p.phase.Flushing? {
      ReceiveFlushingInv(p, f);
    } else if p.phase.Idle? {
      ReceiveIdle(p, f);
    }
  }

  lemma ReceiveFloor(p: Pane, f: Frame)
    requires FloorOk(p) && ((p.phase.Fetching? || p.phase.Replaying?) ==> p.restoring)
    ensures FloorOk(After(p, Receive(f)))
  {
  }

  lemma ReceiveFlushingInv(p: Pane, f: Frame)
    requires p.phase.Flushing? && Inv(p) && Increasing(p.received + [f])
    ensures Inv(After(p, Receive(f)))
  {
    ReceiveFlushing(p, f);
    WriteLater(multiset(Above(p.queued[..p.phase.index + 1], p.floor)), p.late, p.written, f);
  }

  lemma ReceiveIdle(p: Pane, f: Frame)
    requires p.phase.Idle? && Inv(p) && Increasing(p.received + [f])
    ensures Inv(After(p, Receive(f)))
  {
    ReceiveWrites(p, f);
    AboveOne(p.received, f, p.floor);
    LivesOne(p.written, Live(f));
  }

  lemma StepKeepsInv(p: Pane, op: Op)
    requires Enabled(p, op) && !After(p, op).cancelled && Increasing(After(p, op).received)
    requires Inv(p) && FloorOk(p)
    ensures Inv(After(p, op)) && FloorOk(After(p, op))
  {
    match op
    case Receive(f) => ReceiveInv(p, f); ReceiveFloor(p, f);
    case Resume =>
      if p.phase.Flushing? { FlushNextInv(p); } else { ReplayInv(p, op); }
    case _ => ReplayInv(p, op);
  }

  lemma ReceivedGrows(p: Pane, op: Op)
    requires Enabled(p, op)
    ensures Increasing(After(p, op).received) ==> Increasing(p.received)
    ensures p.cancelled ==> After(p, op).cancelled
  {
    assert p.received <= After(p, op).received;
  }

  lemma {:induction false} RunInv(states: seq<Pane>, ops: seq<Op>, n: nat)
    requires IsRun(states, ops) && n <= |ops| && !states[n].cancelled && Increasing(states[n].received)
    ensures Inv(states[n]) && FloorOk(states[n])
  {
    if n > 0 {
      ReceivedGrows(states[n - 1], ops[n - 1]);
      RunInv(states, ops, n - 1);
      StepKeepsInv(states[n - 1], ops[n - 1]);
    }
  }

  // ---------------------------------------------------------------- exactly once

  lemma {:induction false} IncreasingIsDistinct(frames: seq<Frame>, f: Frame)
    requires Increasing(frames)
    ensures multiset(frames)[f] == if f in frames then 1 else 0
  {
    if frames != [] {
      var n := |frames| - 1;
      assert frames == frames[..n] + [frames[n]];
      forall k | 0 <= k < n ensures frames[k] != frames[n] {
        assert frames[k].seqNo < frames[n].seqNo;
      }
      IncreasingIsDistinct(frames[..n], f);
    }
  }

  /**
   When restoring is over, each live frame received above the highest replayed end has been written exactly once,
   and no frame at or below it was written.
   */
  lemma EveryLiveFrameOnce(states: seq<Pane>, ops: seq<Op>, n: nat, f: Frame)
    requires IsRun(states, ops) && n <= |ops| && !states[n].cancelled && Increasing(states[n].received)
    requires states[n].phase.Idle?
    ensures states[n].floor == HighestEnd(states[n].written)
    ensures multiset(Lives(states[n].written))[f] == if f in states[n].received && f.seqNo > states[n].floor then 1
      else 0
  {
    RunInv(states, ops, n);
    var p := states[n];
    AboveIncreasing(p.received, p.floor);
    IncreasingIsDistinct(Above(p.received, p.floor), f);
  }

  lemma DistinctParts(early: seq<Frame>, middle: seq<Frame>, later: seq<Frame>, floor: int, f: Frame)
    requires Increasing(early + middle + later) && early != [] && early[|early| - 1].seqNo > floor
    ensures (multiset(Above(early, floor)) + multiset(later))[f] <= 1
    ensures f in Above(early, floor) || f in later ==> f in early + middle + later && f.seqNo > floor
  {
    var all, m := early + middle + later, |early| + |middle|;
    forall a, b | 0 <= a < b < |early| ensures early[a].seqNo < early[b].seqNo {
      assert all[a].seqNo < all[b].seqNo;
    }
    forall a, b | 0 <= a < b < |later| ensures later[a].seqNo < later[b].seqNo {
      assert all[m + a].seqNo < all[m + b].seqNo;
    }
    forall k | 0 <= k < |later| ensures later[k].seqNo > early[|early| - 1].seqNo {
      assert all[|early| - 1].seqNo < all[m + k].seqNo;
    }
    forall a, b | 0 <= a < |early| && 0 <= b < |later| ensures early[a] != later[b] {
      assert all[a].seqNo < all[m + b].seqNo;
    }
    AboveIncreasing(early, floor);
    IncreasingIsDistinct(Above(early, floor), f);
    IncreasingIsDistinct(later, f);
  }

  /** At no time has a live frame been written twice, or one that the replayed history already covered. */
  lemma NeverTwiceNorReplayed(states: seq<Pane>, ops: seq<Op>, n: nat, f: Frame)
    requires IsRun(states, ops) && n <= |ops| && !states[n].cancelled && Increasing(states[n].received)
    ensures multiset(Lives(states[n].written))[f] <= 1
    ensures f in Lives(states[n].written) ==> f in states[n].received && f.seqNo > states[n].floor
  {
    RunInv(states, ops, n);
    match states[n].phase
    case Flushing(_) => FlushingOnce(states[n], f);
    case Idle => EveryLiveFrameOnce(states, ops, n, f);
    case _ =>
  }

  lemma FlushingOnce(p: Pane, f: Frame)
    requires p.phase.Flushing? && Inv(p) && Increasing(p.received)
    ensures multiset(Lives(p.written))[f] <= 1
    ensures f in Lives(p.written) ==> f in p.received && f.seqNo > p.floor
  {
    var i := p.phase.index;
    var early, middle := p.queued[..i + 1], p.queued[i + 1..];
    assert p.queued == early + middle;
    DistinctParts(early, middle, p.late, p.floor, f);
    assert f in Lives(p.written) <==> f in multiset(Lives(p.written));
  }

  // ---------------------------------------------------------------- order

  /** A message handled while the flush still has a queued frame to write. */
  predicate Overtakes(p: Pane, op: Op) {
    op.Receive? && p.phase.Flushing? && p.phase.index + 1 < |p.queued|
  }

  ghost predicate Overtaken(states: seq<Pane>, ops: seq<Op>, n: nat)
    requires n <= |ops| < |states|
  {
    exists i :: 0 <= i < n && Overtakes(states[i], ops[i])
  }

  predicate Surpasses(frames: seq<Frame>, seqNo: int) {
    frames != [] && (frames[|frames| - 1].seqNo > seqNo || Surpasses(frames[..|frames| - 1], seqNo))
  }

  /** Some frame stands after one with a higher number. */
  predicate Descends(frames: seq<Frame>) {
    frames != [] && (Descends(frames[..|frames| - 1]) || Surpasses(frames[..|frames| - 1], frames[|frames| - 1].seqNo))
  }

  lemma DescendsMore(frames: seq<Frame>, f: Frame, seqNo: int)
    ensures Surpasses(frames + [f], seqNo) <==> Surpasses(frames, seqNo) || f.seqNo > seqNo
    ensures Descends(frames + [f]) <==> Descends(frames) || Surpasses(frames, f.seqNo)
  {
  }

  lemma {:induction false} IncreasingSurpasses(frames: seq<Frame>, seqNo: int)
    requires forall k :: 0 <= k < |frames| ==> frames[k].seqNo < seqNo
    ensures !Surpasses(frames, seqNo)
  {
    if frames != [] {
      IncreasingSurpasses(frames[..|frames| - 1], seqNo);
    }
  }

  lemma {:induction false} IncreasingDescends(frames: seq<Frame>)
    requires Increasing(frames)
    ensures !Descends(frames)
  {
    if frames != [] {
      var n := |frames| - 1;
      IncreasingDescends(frames[..n]);
      IncreasingSurpasses(frames[..n], frames[n].seqNo);
    }
  }

  predicate InOrder(p: Pane) {
    match p.phase
    case Flushing(i) =>
      && i < |p.queued|
      && Lives(p.written) == Above(p.queued[..i + 1], p.floor) + p.late
      && (p.late != [] ==> i + 1 == |p.queued|)
    case Idle => Lives(p.written) == Above(p.received, p.floor)
    case _ => true
  }

  /** A frame has been written that is above the next one to be written, or already stands before a lower one. */
  predicate OutOfOrder(p: Pane) {
    match p.phase
    case Flushing(i) =>
      || Descends(Lives(p.written))
      || (i + 1 < |p.queued| && Surpasses(Lives(p.written), p.queued[i + 1].seqNo))
    case Idle => Descends(Lives(p.written))
    case _ => false
  }

  lemma StartInOrder(p: Pane)
    requires p.queued == p.received && p.late == [] && Lives(p.written) == [] && !p.cancelled
    ensures InOrder(Finish(p))
  {
    FlushStart(p.queued, p.restoredSeq, p.written);
  }

  lemma InOrderStep(p: Pane, op: Op)
    requires Enabled(p, op) && !After(p, op).cancelled && Increasing(After(p, op).received)
    requires Inv(p) && InOrder(p) && !Overtakes(p, op)
    ensures InOrder(After(p, op))
  {
    match op
    case Receive(f) =>
      if p.phase.Flushing? { ReceiveFlushingInOrder(p, f); } else { ReceiveElsewhereInOrder(p, f); }
    case Resume =>
      if p.phase.Flushing? { ResumeInOrder(p); } else { ReplayInOrder(p, op); }
    case _ => ReplayInOrder(p, op);
  }

  lemma ReceiveFlushingInOrder(p: Pane, f: Frame)
    requires p.phase.Flushing? && Inv(p) && InOrder(p) && Increasing(p.received + [f]) && !Overtakes(p, Receive(f))
    ensures InOrder(After(p, Receive(f)))
  {
    ReceiveFlushing(p, f);
    LivesOne(p.written, Live(f));
  }

  lemma ReceiveElsewhereInOrder(p: Pane, f: Frame)
    requires !p.phase.Flushing? && Inv(p) && InOrder(p) && Increasing(p.received + [f])
    ensures InOrder(After(p, Receive(f)))
  {
    if p.phase.Idle? {
      ReceiveWrites(p, f);
      AboveOne(p.received, f, p.floor);
      LivesOne(p.written, Live(f));
    }
  }

  lemma ResumeInOrder(p: Pane)
    requires p.phase.Flushing? && Inv(p) && InOrder(p) && Increasing(p.received)
    ensures InOrder(After(p, Resume))
  {
    FlushNext(p);
    QueueFacts(p);
    if p.phase.index + 1 < |p.queued| {
      FlushAnotherInOrder(p, After(p, Resume));
    } else {
      FlushEndsInOrder(p, After(p, Resume));
    }
  }

  lemma FlushAnotherInOrder(p: Pane, q: Pane)
    requires p.phase.Flushing? && InOrder(p) && p.phase.index + 1 < |p.queued|
    requires p.queued[p.phase.index + 1].seqNo > p.floor
    requires var i := p.phase.index;
      q == p.(restoredSeq := p.queued[i].seqNo, written := p.written + [Live(p.queued[i + 1])],
        phase := Flushing(i + 1))
    ensures InOrder(q)
  {
    WriteQueuedInOrder(p.queued, p.phase.index, p.floor, p.written);
  }

  lemma FlushEndsInOrder(p: Pane, q: Pane)
    requires p.phase.Flushing? && InOrder(p) && p.phase.index + 1 == |p.queued| && p.received == p.queued + p.late
    requires forall k :: 0 <= k < |p.late| ==> p.late[k].seqNo > p.floor
    requires q == p.(restoredSeq := p.queued[p.phase.index].seqNo, queued := [], phase := Idle)
    ensures InOrder(q)
  {
    assert p.queued[..p.phase.index + 1] == p.queued;
    AboveAll(p.queued, p.late, p.floor);
  }

  lemma WriteQueuedInOrder(queued: seq<Frame>, i: nat, floor: int, written: seq<Write>)
    requires i + 1 < |queued| && Lives(written) == Above(queued[..i + 1], floor) && queued[i + 1].seqNo > floor
    ensures Lives(written + [Live(queued[i + 1])]) == Above(queued[..i + 2], floor)
  {
    assert queued[..i + 2] == queued[..i + 1] + [queued[i + 1]];
    AboveOne(queued[..i + 1], queued[i + 1], floor);
    LivesOne(written, Live(queued[i + 1]));
  }

  lemma ReplayInOrder(p: Pane, op: Op)
    requires Enabled(p, op) && Inv(p) && !p.cancelled
    requires op.HistoryArrives? || op.HistoryFails? || (op.Resume? && p.phase.Replaying?)
    ensures InOrder(After(p, op))
  {
    var q := p;
    if op.Resume? {
      var chunk := p.phase.chunks[p.phase.at];
      q := p.(restoredSeq := if chunk.endSeq > p.restoredSeq then chunk.endSeq else p.restoredSeq);
    }
    StartInOrder(q);
  }

  lemma OvertakingStep(p: Pane, op: Op)
    requires Enabled(p, op) && Inv(p) && Increasing(After(p, op).received) && Overtakes(p, op)
    ensures OutOfOrder(After(p, op))
  {
    OvertakingReceive(p, op.frame, p.phase.index + 1);
  }

  lemma OvertakingReceive(p: Pane, f: Frame, next: nat)
    requires p.phase.Flushing? && p.phase.index + 1 == next < |p.queued| && Inv(p) && Increasing(p.received + [f])
    ensures OutOfOrder(After(p, Receive(f)))
  {
    ReceiveFlushing(p, f);
    NextIsBelow(p.queued, next, p.late + [f], f);
    LivesOne(p.written, Live(f));
    DescendsMore(Lives(p.written), f, p.queued[next].seqNo);
  }

  lemma NextIsBelow(queued: seq<Frame>, i: nat, late: seq<Frame>, f: Frame)
    requires Increasing(queued + late) && i < |queued| && late != [] && late[|late| - 1] == f
    ensures queued[i].seqNo < f.seqNo
  {
    IncreasingParts(queued, i, late);
  }

  lemma OutOfOrderStep(p: Pane, op: Op)
    requires Enabled(p, op) && !After(p, op).cancelled && Increasing(After(p, op).received)
    requires Inv(p) && OutOfOrder(p)
    ensures OutOfOrder(After(p, op))
  {
    match op
    case Receive(f) => OutOfOrderReceive(p, f);
    case Resume => OutOfOrderResume(p);
  }

  lemma OutOfOrderReceive(p: Pane, f: Frame)
    requires OutOfOrder(p)
    ensures OutOfOrder(After(p, Receive(f)))
  {
  }

  lemma OutOfOrderResume(p: Pane)
    requires p.phase.Flushing? && Inv(p) && Increasing(p.received) && OutOfOrder(p)
    ensures OutOfOrder(After(p, Resume))
  {
    FlushNext(p);
    var i := p.phase.index;
    if i + 1 < |p.queued| {
      LivesOne(p.written, Live(p.queued[i + 1]));
      DescendsMore(Lives(p.written), p.queued[i + 1], if i + 2 < |p.queued| then p.queued[i + 2].seqNo else 0);
    }
  }

  lemma {:induction false} RunOrder(states: seq<Pane>, ops: seq<Op>, n: nat)
    requires IsRun(states, ops) && n <= |ops| && !states[n].cancelled && Increasing(states[n].received)
    ensures if Overtaken(states, ops, n) then OutOfOrder(states[n]) else InOrder(states[n])
  {
    if n > 0 {
      var p, op := states[n - 1], ops[n - 1];
      ReceivedGrows(p, op);
      RunInv(states, ops, n - 1);
      RunOrder(states, ops, n - 1);
      if Overtaken(states, ops, n - 1) {
        OutOfOrderStep(p, op);
      } else if Overtakes(p, op) {
        OvertakingStep(p, op);
      } else {
        InOrderStep(p, op);
      }
    }
  }

  /**
   Live frames are shown in the order they came in if and only if no message was handled while the flush of the
   queue still had a frame to write.
   */
  lemma OrderKeptUnlessOvertaken(states: seq<Pane>, ops: seq<Op>, n: nat)
    requires IsRun(states, ops) && n <= |ops| && !states[n].cancelled && Increasing(states[n].received)
    requires states[n].phase.Idle?
    ensures Lives(states[n].written) == Above(states[n].received, states[n].floor) <==> !Overtaken(states, ops, n)
    ensures Increasing(Above(states[n].received, states[n].floor))
  {
    RunOrder(states, ops, n);
    var p := states[n];
    var frames := Above(p.received, p.floor);
    AboveIncreasing(p.received, p.floor);
    IncreasingDescends(frames);
  }

  lemma Extended(states: seq<Pane>, ops: seq<Op>, op: Op, after: Pane)
    requires IsRun(states, ops) && Enabled(states[|ops|], op) && after == After(states[|ops|], op)
    ensures IsRun(states + [after], ops + [op])
  {
  }

  lemma TwoFramesWait(a: Frame, b: Frame) returns (states: seq<Pane>, ops: seq<Op>)
    ensures IsRun(states, ops) && states[|ops|] == Initial().(queued := [a, b], received := [a, b])
  {
    states := [Initial(), Initial().(queued := [a], received := [a]), Initial().(queued := [a, b], received := [a, b])];
    ops := [Receive(a), Receive(b)];
  }

  /**
   Two frames wait for the history, a third comes in while the first is being written, and is shown before the
   second.
   */
  lemma LiveFrameCanOvertake() returns (states: seq<Pane>, ops: seq<Op>)
    ensures IsRun(states, ops) && Increasing(states[|ops|].received) && states[|ops|].phase.Idle?
    ensures states[|ops|].received == [Frame(1, "a"), Frame(2, "b"), Frame(3, "c")]
    ensures states[|ops|].written == [Live(Frame(1, "a")), Live(Frame(3, "c")), Live(Frame(2, "b"))]
  {
    var a, b, c := Frame(1, "a"), Frame(2, "b"), Frame(3, "c");
    states, ops := TwoFramesWait(a, b);
    var s2 := states[|ops|];
    var s3 := s2.(restoring := false, phase := Flushing(0), written := [Live(a)]);
    var s4 := s3.(received := [a, b, c], late := [c], written := [Live(a), Live(c)], restoredSeq := 3);
    var s5 := s4.(phase := Flushing(1), written := [Live(a), Live(c), Live(b)], restoredSeq := 1);
    var s6 := s5.(phase := Idle, queued := [], restoredSeq := 2);
    Extended(states, ops, HistoryArrives([]), s3);
    states, ops := states + [s3], ops + [HistoryArrives([])];
    Extended(states, ops, Receive(c), s4);
    states, ops := states + [s4], ops + [Receive(c)];
    Extended(states, ops, Resume, s5);
    states, ops := states + [s5], ops + [Resume];
    Extended(states, ops, Resume, s6);
    states, ops := states + [s6], ops + [Resume];
  }
}
