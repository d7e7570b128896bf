/**
  Run events: the per-run log of app/infra/vibe_event_store.py and the polling
  SSE reader of app/api/vibe_routes.py running beside the publisher.
 */
module EventStream {
  import opened Prelude

  datatype Kind = Progress | Done | Failure

  datatype Event = Event(kind: Kind, seq_: int)

  predicate Terminal(e: Event) {
    e.kind != Progress
  }

  // ------------------------------------------------------------------
  // The store: sequence numbers and indexed reads
  // ------------------------------------------------------------------

  // A publish: what the caller supplied, and whether it passes schema validation.
  datatype Publish = Publish(kind: Kind, supplied: Option<int>, wellFormed: bool)

  datatype Store = Store(log: seq<Event>, lastSeq: int)

  const NEW_RUN := Store([], -1)

  // The number is drawn even when the caller supplied one or the event is then dropped.
  function PublishSpec(s: Store, p: Publish): Store {
    var drawn := s.lastSeq + 1;
    var number := if p.supplied.Some? then p.supplied.value else drawn;
    Store(if p.wellFormed then s.log + [Event(p.kind, number)] else s.log, drawn)
  }

  // s[lo:hi] as Python reads it: negative bounds count from the end.
  function PySlice(s: seq<Event>, lo: int, hi: int): seq<Event> {
    var a := if lo < 0 then (if |s| + lo < 0 then 0 else |s| + lo) else if lo > |s| then |s| else lo;
    var b := if hi < 0 then (if |s| + hi < 0 then 0 else |s| + hi) else if hi > |s| then |s| else hi;
    if a <= b then s[a..b] else []
  }

  function GetEvents(log: seq<Event>, afterSeq: Option<int>, offset: int, limit: nat): seq<Event> {
    var from := if afterSeq.Some? then afterSeq.value + 1 else offset;
    PySlice(log, from, from + limit)
  }

  class EventStore {
    var log: seq<Event>
    var lastSeq: int

    constructor ()
      ensures Store(log, lastSeq) == NEW_RUN
    {
      log, lastSeq := [], -1;
    }

    method NextSeq() returns (n: int)
      modifies this`lastSeq
      ensures n == lastSeq == old(lastSeq) + 1
    {
      n := lastSeq + 1;
      lastSeq := n;
    }

    method Publish(p: Publish)
      modifies this
      ensures Store(log, lastSeq) == PublishSpec(old(Store(log, lastSeq)), p)
    {
      var drawn := NextSeq();
      var number := if p.supplied.Some? then p.supplied.value else drawn;
      if !p.wellFormed {
        return;
      }
      log := log + [Event(p.kind, number)];
    }
  }

  function AfterAll(ps: seq<Publish>): Store {
    if ps == [] then NEW_RUN else PublishSpec(AfterAll(Front(ps)), Last(ps))
  }

  // Event i carries number i.
  ghost predicate InStep(log: seq<Event>) {
    forall i :: 0 <= i < |log| ==> log[i].seq_ == i
  }

  ghost predicate NoneSupplied(ps: seq<Publish>) {
    forall i :: 0 <= i < |ps| ==> ps[i].supplied.None?
  }

  // Nothing is accepted after something was dropped.
  ghost predicate NoGap(ps: seq<Publish>) {
    forall i, j :: 0 <= i < j < |ps| && ps[j].wellFormed ==> ps[i].wellFormed
  }

  lemma {:induction false} CounterCounts(ps: seq<Publish>)
    ensures AfterAll(ps).lastSeq == |ps| - 1 && |AfterAll(ps).log| <= |ps|
    ensures |AfterAll(ps).log| == |ps| <==> forall i :: 0 <= i < |ps| ==> ps[i].wellFormed
  {
    if ps != [] {
      CounterCounts(Front(ps));
    }
  }

  // When callers leave numbering to the store, event i carries number i exactly as long as no
  // event was accepted after a dropped one.
  lemma {:induction false} NumbersMatchIff(ps: seq<Publish>)
    requires NoneSupplied(ps)
    ensures InStep(AfterAll(ps).log) <==> NoGap(ps)
  {
    if ps != [] {
      var front, p := Front(ps), Last(ps);
      NumbersMatchIff(front);
      CounterCounts(front);
      var before, after := AfterAll(front).log, AfterAll(ps).log;
      assert NoGap(ps) <==> NoGap(front) && (p.wellFormed ==> forall i :: 0 <= i < |front| ==> front[i].wellFormed);
      if p.wellFormed {
        assert after == before + [Event(p.kind, |front|)];
        assert InStep(after) <==> InStep(before) && |before| == |front| by {
          assert after[|before|].seq_ == |front|;
          assert forall i :: 0 <= i < |before| ==> after[i] == before[i];
        }
      }
    }
  }

  // The events numbered above s, oldest first.
  function Above(log: seq<Event>, s: int): seq<Event> {
    if log == [] then [] else Above(Front(log), s) + if Last(log).seq_ > s then [Last(log)] else []
  }

  function Take(log: seq<Event>, limit: nat): seq<Event> {
    if limit <= |log| then log[..limit] else log
  }

  // The read after number s gives the first `limit` events numbered above it.
  ghost predicate ReadsRight(log: seq<Event>, s: int, limit: nat) {
    GetEvents(log, Some(s), 0, limit) == Take(Above(log, s), limit)
  }

  lemma AboveLast(log: seq<Event>, s: int)
    requires log != []
    ensures Above(log, s) == if Last(log).seq_ > s then Above(Front(log), s) + [Last(log)] else Above(Front(log), s)
    ensures log == Front(log) + [Last(log)]
  {
    assert Above(Front(log), s) + [] == Above(Front(log), s);
  }

  lemma {:induction false} AboveIsSuffix(log: seq<Event>, s: int)
    requires InStep(log) && s >= -1
    ensures Above(log, s) == if s + 1 <= |log| then log[s + 1..] else []
  {
    if log != [] {
      hide Above;
      AboveIsSuffix(Front(log), s);
      AboveLast(log, s);
      if s + 1 < |log| {
        assert log[s + 1..] == Front(log)[s + 1..] + [Last(log)];
      }
    }
  }

  // A cursor of -1 or more reads, from a log in step, the first `limit` events numbered above it.
  lemma CursorReads(log: seq<Event>, s: int, limit: nat)
    requires InStep(log) && s >= -1
    ensures ReadsRight(log, s, limit)
  {
    AboveIsSuffix(log, s);
  }

  function Numbered(n: nat): (log: seq<Event>)
    ensures |log| == n && InStep(log)
  {
    seq(n, i => Event(Progress, i))
  }

  // The cursors that read correctly from every log in step are exactly those from -1 up: a
  // lower one is taken as counting from the end.
  lemma CursorReadsIff(s: int, limit: nat)
    requires limit > 0
    ensures (forall log :: InStep(log) ==> ReadsRight(log, s, limit)) <==> s >= -1
  {
    if s >= -1 {
      forall log | InStep(log)
        ensures ReadsRight(log, s, limit)
      {
        CursorReads(log, s, limit);
      }
    } else {
      var log := Numbered(-s);
      AboveAll(log, s);
      var got := GetEvents(log, Some(s), 0, limit);
      assert got == [] || got[0] == log[1];
      assert Take(Above(log, s), limit)[0] == log[0];
    }
  }

  lemma {:induction false} AboveAll(log: seq<Event>, s: int)
    requires InStep(log) && s < 0
    ensures Above(log, s) == log
  {
    if log != [] {
      hide Above;
      AboveAll(Front(log), s);
      AboveLast(log, s);
    }
  }

  // Numbers rise from 0, possibly with gaps.
  ghost predicate Rising(log: seq<Event>) {
    && (log != [] ==> log[0].seq_ >= 0)
    && forall i :: 0 < i < |log| ==> log[i].seq_ > log[i - 1].seq_
  }

  // Left to the store, numbers rise strictly, dropped events or not.
  lemma {:induction false} NumbersRise(ps: seq<Publish>)
    requires NoneSupplied(ps)
    ensures Rising(AfterAll(ps).log)
    ensures forall i :: 0 <= i < |AfterAll(ps).log| ==> AfterAll(ps).log[i].seq_ < |ps|
  {
    if ps != [] {
      NumbersRise(Front(ps));
      CounterCounts(Front(ps));
    }
  }

  lemma {:induction false} NumbersBelow(log: seq<Event>, i: nat)
    requires Rising(log) && i < |log|
    ensures log[i].seq_ >= i
    ensures forall j :: 0 <= j < i ==> log[j].seq_ < log[i].seq_
  {
    if i > 0 {
      NumbersBelow(log, i - 1);
    }
  }

  lemma {:induction false} AboveOf(log: seq<Event>, i: nat, s: int)
    requires i < |log| && log[i].seq_ > s && forall j :: 0 <= j < i ==> log[j].seq_ <= s
    ensures Above(log, s) != [] && Above(log, s)[0] == log[i]
  {
    hide Above;
    AboveLast(log, s);
    if i < |log| - 1 {
      AboveOf(Front(log), i, s);
    } else {
      NothingAbove(Front(log), s);
    }
  }

  lemma {:induction false} NothingAbove(log: seq<Event>, s: int)
    requires forall j :: 0 <= j < |log| ==> log[j].seq_ <= s
    ensures Above(log, s) == []
  {
    if log != [] {
      NothingAbove(Front(log), s);
    }
  }

  // The first event out of step is skipped by the cursor at its own position.
  lemma MisreadAt(log: seq<Event>, i: nat)
    requires Rising(log) && i < |log| && log[i].seq_ != i && forall j :: 0 <= j < i ==> log[j].seq_ == j
    ensures !ReadsRight(log, i, 1)
  {
    NumbersBelow(log, i);
    AboveOf(log, i, i);
    assert Take(Above(log, i), 1)[0] == log[i];
    if i + 1 < |log| {
      NumbersBelow(log, i + 1);
      assert GetEvents(log, Some(i), 0, 1) == [log[i + 1]];
    }
  }

  lemma {:induction false} FirstOutOfStep(log: seq<Event>, n: nat) returns (i: nat)
    requires n < |log| && log[n].seq_ != n
    ensures i <= n && log[i].seq_ != i && forall j :: 0 <= j < i ==> log[j].seq_ == j
  {
    if m: nat :| m < n && log[m].seq_ != m {
      i := FirstOutOfStep(log, m);
    } else {
      i := n;
    }
  }

  // When callers leave numbering to the store, every cursor from -1 up reads right, whatever the
  // limit, exactly as long as no event was accepted after a dropped one.
  lemma ReadsRightIff(ps: seq<Publish>)
    requires NoneSupplied(ps)
    ensures (forall s: int, limit: nat :: s >= -1 ==> ReadsRight(AfterAll(ps).log, s, limit)) <==> NoGap(ps)
  {
    var log := AfterAll(ps).log;
    NumbersMatchIff(ps);
    NumbersRise(ps);
    hide Rising, NoGap, NoneSupplied;
    if InStep(log) {
      forall s: int, limit: nat | s >= -1
        ensures ReadsRight(log, s, limit)
      {
        CursorReads(log, s, limit);
      }
    } else {
      var n :| 0 <= n < |log| && log[n].seq_ != n;
      var i := FirstOutOfStep(log, n);
      MisreadAt(log, i);
    }
  }

  // ------------------------------------------------------------------
  // The reader beside the publisher
  // ------------------------------------------------------------------

  const BATCH := 50

  datatype Phase = AtTop | Draining | Stopped

  // The shared log and the reader's variables; `pending` is the fetched batch not yet yielded.
  datatype Stream = Stream(
    log: seq<Event>, seen: nat, pending: seq<Event>, fetchedNone: bool, emitted: seq<Event>,
    emptyPolls: nat, phase: Phase)

  // One atomic step of either side.
  datatype Action =
    | Append(event: Event)
    | Fetch
    | Yield
    | EndPoll(runIsOver: bool)
    | GiveUp

  const START := Stream([], 0, [], false, [], 0, AtTop)

  // Actions that are not enabled leave the state as it is.
  function Step(s: Stream, a: Action, maxEmpty: nat): Stream {
    match a
    case Append(e) => s.(log := s.log + [e])
    case Fetch =>
      if s.phase != AtTop || s.emptyPolls >= maxEmpty then s
      else
        var batch := GetEvents(s.log, None, s.seen, BATCH);
        s.(pending := batch, fetchedNone := batch == [], phase := Draining)
    case Yield =>
      if s.phase != Draining || s.pending == [] then s
      else
        var e := s.pending[0];
        s.(seen := s.seen + 1, emitted := s.emitted + [e], pending := s.pending[1..],
           phase := if Terminal(e) then Stopped else Draining)
    case EndPoll(over) =>
      if s.phase != Draining || s.pending != [] then s
      else s.(phase := AtTop,
              emptyPolls := if !s.fetchedNone then s.emptyPolls else if over then s.emptyPolls + 1 else 0)
    case GiveUp =>
      if s.phase != AtTop || s.emptyPolls < maxEmpty then s else s.(phase := Stopped)
  }

  function Run(actions: seq<Action>, maxEmpty: nat): Stream {
    if actions == [] then START else Step(Run(Front(actions), maxEmpty), Last(actions), maxEmpty)
  }

  function Published(actions: seq<Action>): seq<Event> {
    if actions == [] then []
    else Published(Front(actions)) + if Last(actions).Append? then [Last(actions).event] else []
  }

  // What every interleaving keeps.
  ghost predicate Inv(s: Stream, maxEmpty: nat) {
    && s.seen == |s.emitted| <= |s.log|
    && s.emitted == s.log[..s.seen]
    && (s.phase != Stopped ==> s.pending <= s.log[s.seen..])
    && (s.phase == AtTop ==> s.pending == [])
    && (forall i :: 0 <= i < |s.emitted| && Terminal(s.emitted[i]) ==> i == |s.emitted| - 1 && s.phase == Stopped)
    && (s.phase == Stopped ==> (s.emitted != [] && Terminal(Last(s.emitted))) || s.emptyPolls >= maxEmpty)
  }

  lemma StepKeepsInv(s: Stream, a: Action, maxEmpty: nat)
    requires Inv(s, maxEmpty)
    ensures Inv(Step(s, a, maxEmpty), maxEmpty)
    ensures s.phase == Stopped ==> Step(s, a, maxEmpty).emitted == s.emitted && Step(s, a, maxEmpty).phase == Stopped
  {
    var s' := Step(s, a, maxEmpty);
    match a {
      case Append(e) => assert s'.log[s.seen..] == s.log[s.seen..] + [e];
      case Yield =>
        if s' != s {
          assert s.log[s.seen..][0] == s.log[s.seen];
          assert s.log[..s.seen + 1] == s.log[..s.seen] + [s.log[s.seen]];
          assert s.log[s.seen + 1..] == s.log[s.seen..][1..];
        }
      case _ =>
    }
  }

  // Under any interleaving the reader has yielded a prefix of what was published, each event
  // once and in order; a terminal event is the last one yielded and ends the stream.
  lemma {:induction false} EachEventOnceInOrder(actions: seq<Action>, maxEmpty: nat)
    ensures var s := Run(actions, maxEmpty);
            && Inv(s, maxEmpty)
            && s.log == Published(actions)
            && s.emitted == Published(actions)[..|s.emitted|]
  {
    if actions != [] {
      EachEventOnceInOrder(Front(actions), maxEmpty);
      StepKeepsInv(Run(Front(actions), maxEmpty), Last(actions), maxEmpty);
      hide Inv;
      StepLog(Run(Front(actions), maxEmpty), Last(actions), maxEmpty);
    }
    EmittedIsPrefix(Run(actions, maxEmpty), maxEmpty);
  }

  lemma StepLog(s: Stream, a: Action, maxEmpty: nat)
    ensures Step(s, a, maxEmpty).log == s.log + if a.Append? then [a.event] else []
  {
  }

  lemma EmittedIsPrefix(s: Stream, maxEmpty: nat)
    ensures Inv(s, maxEmpty) ==> |s.emitted| <= |s.log| && s.emitted == s.log[..|s.emitted|]
  {
  }

  function RunFrom(s: Stream, actions: seq<Action>, maxEmpty: nat): Stream {
    if actions == [] then s else Step(RunFrom(s, Front(actions), maxEmpty), Last(actions), maxEmpty)
  }

  lemma {:induction false} RunFromJoin(s: Stream, a: seq<Action>, b: seq<Action>, maxEmpty: nat)
    ensures RunFrom(s, a + b, maxEmpty) == RunFrom(RunFrom(s, a, maxEmpty), b, maxEmpty)
  {
    if b == [] {
      assert a + b == a;
    } else {
      assert Front(a + b) == a + Front(b) && Last(a + b) == Last(b);
      RunFromJoin(s, a, Front(b), maxEmpty);
    }
  }

  predicate OnlyReader(actions: seq<Action>) {
    forall i :: 0 <= i < |actions| ==> !actions[i].Append?
  }

  // Everything before the first terminal event of the log, and that event itself.
  function DeliverableTo(log: seq<Event>, from: nat): (n: nat)
    requires from <= |log|
    ensures from <= n <= |log|
    decreases |log| - from
  {
    if from == |log| then from
    else if Terminal(log[from]) then from + 1
    else DeliverableTo(log, from + 1)
  }

  function NextAction(s: Stream): Action {
    if s.phase == AtTop then Fetch else if s.pending == [] then EndPoll(false) else Yield
  }

  // Steps the reader needs at most before it yields the next event.
  function Rank(s: Stream): nat {
    if s.phase == AtTop then 1 else if s.pending == [] then 2 else 0
  }

  lemma ReaderStep(s: Stream, maxEmpty: nat)
    requires Inv(s, maxEmpty) && s.phase != Stopped && s.emptyPolls < maxEmpty && s.seen < |s.log|
    ensures var s' := Step(s, NextAction(s), maxEmpty);
            && s'.log == s.log
            && s.seen <= s'.seen <= |s.log|
            && (s'.seen == s.seen ==> Rank(s') < Rank(s))
            && (if s'.phase == Stopped
                then s'.emitted == s.log[..DeliverableTo(s.log, s.seen)] && s'.emitted != [] && Terminal(Last(s'.emitted))
                else s'.emptyPolls < maxEmpty && DeliverableTo(s.log, s'.seen) == DeliverableTo(s.log, s.seen))
  {
    StepKeepsInv(s, NextAction(s), maxEmpty);
    if s.pending != [] {
      assert s.pending[0] == s.log[s.seen..][0];
    }
  }

  lemma RunOne(s: Stream, a: Action, maxEmpty: nat)
    ensures RunFrom(s, [a], maxEmpty) == Step(s, a, maxEmpty)
  {
    assert Front([a]) == [];
  }

  // A reader that is still polling can always deliver the rest of the log without help: all of
  // it, or up to and including its first terminal event, where the stream stops.
  lemma {:induction false} ReaderCatchesUp(s: Stream, maxEmpty: nat) returns (actions: seq<Action>)
    requires Inv(s, maxEmpty) && s.phase != Stopped && s.emptyPolls < maxEmpty
    ensures OnlyReader(actions)
    ensures var s' := RunFrom(s, actions, maxEmpty);
            && s'.log == s.log
            && s.seen <= |s.log|
            && s'.emitted == s.log[..DeliverableTo(s.log, s.seen)]
            && (s'.phase == Stopped <==> s'.emitted != [] && Terminal(Last(s'.emitted)))
    decreases |s.log| - s.seen, Rank(s)
  {
    if s.seen == |s.log| {
      actions := [];
    } else {
      InvBounds(s, maxEmpty);
      hide Step, Inv, DeliverableTo, RunFrom, Rank;
      var a := NextAction(s);
      ReaderStep(s, maxEmpty);
      StepKeepsInv(s, a, maxEmpty);
      RunOne(s, a, maxEmpty);
      var next := Step(s, a, maxEmpty);
      if next.phase == Stopped {
        actions := [a];
      } else {
        var rest := ReaderCatchesUp(next, maxEmpty);
        actions := [a] + rest;
        RunFromJoin(s, [a], rest, maxEmpty);
      }
    }
  }

  lemma InvBounds(s: Stream, maxEmpty: nat)
    requires Inv(s, maxEmpty)
    ensures s.seen <= |s.log|
  {
  }
}
