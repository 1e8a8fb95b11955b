/**
 The agent's output path: the reader threads of all shells write into one channel, the control loop splits it by
 session, numbers what it forwards and keeps the last frames of each session.
 */
module PtyOutput {
  import opened Wrappers

  type SessionId = string

  datatype Event = Output(session: SessionId, data: string) | Exited(session: SessionId)

  datatype Frame = Frame(seqNo: nat, data: string)

  datatype Message = Stdout(session: SessionId, frame: Frame) | SessionExit(session: SessionId)

  // ---------------------------------------------------------------- the buffer of last frames

  const MAX_FRAMES := 1024

  datatype Buffer = Buffer(maxFrames: nat, nextSeq: nat, frames: seq<Frame>)

  function Tail(frames: seq<Frame>, most: nat): seq<Frame> {
    if |frames| <= most then frames else frames[|frames| - most..]
  }

  function Pushed(b: Buffer, data: string): Buffer {
    b.(nextSeq := b.nextSeq + 1, frames := Tail(b.frames + [Frame(b.nextSeq, data)], b.maxFrames))
  }

  function FramesSince(frames: seq<Frame>, seqNo: int): seq<Frame> {
    if frames == [] then []
    else (if frames[0].seqNo > seqNo then [frames[0]] else []) + FramesSince(frames[1..], seqNo)
  }

  predicate Numbered(frames: seq<Frame>, first: nat) {
    forall i :: 0 <= i < |frames| ==> frames[i].seqNo == first + i
  }

  /** The buffer after exactly `all` was pushed. */
  predicate Remembers(b: Buffer, all: seq<Frame>) {
    && Numbered(all, 1)
    && b.nextSeq == |all| + 1
    && b.frames == Tail(all, b.maxFrames)
  }

  lemma PushRemembers(b: Buffer, all: seq<Frame>, data: string)
    requires Remembers(b, all)
    ensures Remembers(Pushed(b, data), all + [Frame(b.nextSeq, data)])
  {
  }

  lemma {:induction false} FramesSinceNumbered(frames: seq<Frame>, first: nat, seqNo: int)
    requires Numbered(frames, first)
    ensures FramesSince(frames, seqNo)
            == if seqNo < first then frames else if seqNo - first >= |frames| then [] else frames[seqNo + 1 - first..]
  {
    if frames != [] {
      assert frames == [frames[0]] + frames[1..];
      FramesSinceNumbered(frames[1..], first + 1, seqNo);
    }
  }

  /** What is replayed from a buffer is the matching end of everything ever pushed, as far back as the buffer goes. */
  lemma FramesSinceIsSuffix(b: Buffer, all: seq<Frame>, seqNo: nat)
    requires Remembers(b, all) && seqNo <= |all|
    ensures FramesSince(b.frames, seqNo) == all[if |all| - seqNo <= b.maxFrames then seqNo else |all| - b.maxFrames..]
  {
    var dropped := if |all| <= b.maxFrames then 0 else |all| - b.maxFrames;
    assert b.frames == all[dropped..];
    FramesSinceNumbered(b.frames, dropped + 1, seqNo);
  }

  class OutputBuffer {
    const maxFrames: nat
    var nextSeq: nat
    var frames: seq<Frame>

    function View(): Buffer
      reads this
    {
      Buffer(maxFrames, nextSeq, frames)
    }

    constructor (maxFrames: nat)
      ensures this.maxFrames == maxFrames && Remembers(View(), [])
    {
      this.maxFrames, nextSeq, frames := maxFrames, 1, [];
    }

    method Push(data: string) returns (frame: Frame)
      modifies this
      ensures View() == Pushed(old(View()), data) && frame == Frame(old(nextSeq), data)
    {
      frame := Frame(nextSeq, data);
      nextSeq := nextSeq + 1;
      frames := frames + [frame];
      ghost var grown := frames;
      while |frames| > maxFrames
        invariant nextSeq == old(nextSeq) + 1
        invariant |frames| <= |grown| && frames == grown[|grown| - |frames|..]
        invariant |frames| >= maxFrames || frames == grown
      {
        assert frames[1..] == grown[|grown| - |frames| + 1..];
        frames := frames[1..];
      }
      assert frames == Tail(grown, maxFrames);
    }
  }

  // ---------------------------------------------------------------- splitting the channel

  datatype Pty = Pty(sessions: set<SessionId>, channel: seq<Event>, pending: map<SessionId, seq<string>>,
                     exited: set<SessionId>)

  function Join(pieces: seq<string>): string {
    if pieces == [] then "" else Join(pieces[..|pieces| - 1]) + pieces[|pieces| - 1]
  }

  function PendingOf(pending: map<SessionId, seq<string>>, s: SessionId): seq<string> {
    if s in pending then pending[s] else []
  }

  function Said(e: Event, s: SessionId): string {
    if e.Output? && e.session == s then e.data else ""
  }

  function TextOf(events: seq<Event>, s: SessionId): string {
    if events == [] then "" else Said(events[0], s) + TextOf(events[1..], s)
  }

  lemma {:induction false} TextOfOne(events: seq<Event>, e: Event, s: SessionId)
    ensures TextOf(events + [e], s) == TextOf(events, s) + Said(e, s)
  {
    if events != [] {
      assert (events + [e])[1..] == events[1..] + [e];
      TextOfOne(events[1..], e, s);
      var a, b, c := Said(events[0], s), TextOf(events[1..], s), Said(e, s);
      assert (a + b) + c == a + (b + c);
    }
  }

  function Receive(p: Pty, e: Event): Pty {
    match e
    case Output(s, data) => p.(pending := p.pending[s := PendingOf(p.pending, s) + [data]])
    case Exited(s) => if s in p.sessions then p.(sessions := p.sessions - {s}, exited := p.exited + {s}) else p
  }

  function Received(p: Pty, events: seq<Event>): Pty
    decreases |events|
  {
    if events == [] then p else Received(Receive(p, events[0]), events[1..])
  }

  function Drained(p: Pty): Pty {
    Received(p.(channel := []), p.channel)
  }

  lemma ReceiveText(p: Pty, e: Event, s: SessionId)
    ensures Join(PendingOf(Receive(p, e).pending, s)) == Join(PendingOf(p.pending, s)) + Said(e, s)
  {
  }

  lemma {:induction false} ReceivedText(p: Pty, events: seq<Event>, s: SessionId)
    ensures Join(PendingOf(Received(p, events).pending, s)) == Join(PendingOf(p.pending, s)) + TextOf(events, s)
    decreases |events|
  {
    if events != [] {
      var next := Receive(p, events[0]);
      ReceivedText(next, events[1..], s);
      ReceiveText(p, events[0], s);
      var a, b, c := Join(PendingOf(p.pending, s)), Said(events[0], s), TextOf(events[1..], s);
      assert (a + b) + c == a + (b + c);
    }
  }

  lemma {:induction false} ReceivedSessions(p: Pty, events: seq<Event>, s: SessionId)
    ensures var q := Received(p, events);
      && q.channel == p.channel
      && (s in q.sessions <==> s in p.sessions && Exited(s) !in events)
      && (s in q.exited <==> s in p.exited || (s in p.sessions && Exited(s) in events))
    decreases |events|
  {
    if events != [] {
      assert events == [events[0]] + events[1..];
      ReceivedSessions(Receive(p, events[0]), events[1..], s);
    }
  }

  lemma ReceiveElsewhere(q: Pty, e: Event, s: SessionId, others: map<SessionId, seq<string>>)
    requires others == q.pending - {s}
    ensures Receive(q, e).pending - {s}
            == if e.Output? && e.session != s then others[e.session := PendingOf(others, e.session) + [e.data]]
              else others
  {
  }

  lemma DrainedFacts(p: Pty, s: SessionId)
    ensures var d := Drained(p);
      && d.channel == []
      && Join(PendingOf(d.pending, s)) == Join(PendingOf(p.pending, s)) + TextOf(p.channel, s)
      && (s in d.sessions <==> s in p.sessions && Exited(s) !in p.channel)
      && (s in d.exited <==> s in p.exited || (s in p.sessions && Exited(s) in p.channel))
  {
    ReceivedText(p.(channel := []), p.channel, s);
    ReceivedSessions(p.(channel := []), p.channel, s);
  }

  class PtyManager {
    var sessions: set<SessionId>
    var channel: seq<Event>
    var pending: map<SessionId, seq<string>>
    var exited: set<SessionId>

    function View(): Pty
      reads this
    {
      Pty(sessions, channel, pending, exited)
    }

    /** Empties the channel; the answer is all that was waiting for this session, the rest waits for its own reader. */
    method ReadAvailable(s: SessionId) returns (r: Result<string, string>)
      modifies this
      ensures s !in old(sessions) ==> r.Err? && View() == old(View())
      ensures s in old(sessions) ==>
        var d := Drained(old(View()));
        r == Ok(Join(PendingOf(d.pending, s))) && View() == d.(pending := d.pending - {s})
    {
      if s !in sessions {
        return Err("session not found: " + s);
      }
      ghost var q := View().(channel := []);
      var output := Join(PendingOf(pending, s));
      pending := pending - {s};
      while channel != []
        invariant q.channel == [] && Received(q, channel) == Drained(old(View()))
        invariant output == Join(PendingOf(q.pending, s))
        invariant sessions == q.sessions && exited == q.exited && pending == q.pending - {s}
        decreases |channel|
      {
        var event := channel[0];
        ReceiveText(q, event, s);
        ReceiveElsewhere(q, event, s, pending);
        channel := channel[1..];
        q := Receive(q, event);
        if event.Output? {
          if event.session == s {
            output := output + event.data;
          } else {
            pending := pending[event.session := PendingOf(pending, event.session) + [event.data]];
          }
        } else if event.session in sessions {
          sessions := sessions - {event.session};
          exited := exited + {event.session};
        }
      }
      r := Ok(output);
    }

    method DrainExited() returns (ended: set<SessionId>)
      modifies this
      ensures var d := Drained(old(View()));
        ended == d.exited && View() == d.(exited := {})
    {
      while channel != []
        invariant Received(Pty(sessions, [], pending, exited), channel) == Drained(old(View()))
        decreases |channel|
      {
        var event := channel[0];
        channel := channel[1..];
        match event {
          case Output(from, data) =>
            pending := pending[from := PendingOf(pending, from) + [data]];
          case Exited(s) =>
            if s in sessions {
              sessions := sessions - {s};
              exited := exited + {s};
            }
        }
      }
      ended := exited;
      exited := {};
    }

    method Close(s: SessionId)
      modifies this
      ensures View() == old(View()).(sessions := old(sessions) - {s})
    {
      sessions := sessions - {s};
    }
  }

  // ---------------------------------------------------------------- one flush of all sessions

  type Buffers = map<SessionId, Buffer>

  datatype Flushed = Flushed(pty: Pty, buffers: Buffers, messages: seq<Message>)

  function FlushOne(f: Flushed, s: SessionId): Flushed {
    if s !in f.buffers || s !in f.pty.sessions then f else
      var d := Drained(f.pty);
      var output := Join(PendingOf(d.pending, s));
      var left := d.(pending := d.pending - {s});
      if output == "" then f.(pty := left) else
        Flushed(left, f.buffers[s := Pushed(f.buffers[s], output)],
          f.messages + [Stdout(s, Frame(f.buffers[s].nextSeq, output))])
  }

  function FlushAll(f: Flushed, order: seq<SessionId>): Flushed {
    if order == [] then f else FlushOne(FlushAll(f, order[..|order| - 1]), order[|order| - 1])
  }

  ghost predicate Enumerates(order: seq<SessionId>, all: set<SessionId>) {
    && (forall s :: s in order <==> s in all)
    && forall i, j :: 0 <= i < j < |order| ==> order[i] != order[j]
  }

  /** Visits the sessions that have a buffer once each, in the order of the map's keys, whatever that is. */
  method FlushOutputs(pty: PtyManager, before: Buffers)
    returns (buffers: Buffers, messages: seq<Message>, ghost order: seq<SessionId>)
    modifies pty
    ensures Enumerates(order, before.Keys)
    ensures Flushed(pty.View(), buffers, messages) == FlushAll(Flushed(old(pty.View()), before, []), order)
  {
    buffers, messages, order := before, [], [];
    ghost var start := Flushed(pty.View(), before, []);
    var todo := before.Keys;
    while todo != {}
      invariant todo <= before.Keys == buffers.Keys
      invariant Enumerates(order, before.Keys - todo)
      invariant Flushed(pty.View(), buffers, messages) == FlushAll(start, order)
      decreases |todo|
    {
      var s :| s in todo;
      todo := todo - {s};
      assert (order + [s])[..|order|] == order;
      order := order + [s];
      if s !in pty.sessions {
        continue;
      }
      var read := pty.ReadAvailable(s);
      if read.value == "" {
        continue;
      }
      messages := messages + [Stdout(s, Frame(buffers[s].nextSeq, read.value))];
      buffers := buffers[s := Pushed(buffers[s], read.value)];
    }
  }
}
