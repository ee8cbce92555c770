/**
 The table of handlers per file descriptor that every readiness backend serves
 (fd_table in src/fd.c), and the calls by which handlers change it while they run.
 */
module Readiness {
  import opened LinkedLists

  /** A callback with its data. */
  type Handler = nat

  datatype FdList = NoList | IrcdList | HttpdList

  datatype Dir = Read | Write

  /** What the kernel is asked, or reports, about a descriptor. */
  datatype Mask = Mask(rd: bool, wr: bool)

  const NOTHING := Mask(false, false)

  /** The handlers of one descriptor. */
  datatype Pair = Pair(read: Option<Handler>, write: Option<Handler>)

  const IDLE := Pair(None, None)

  function Of(p: Pair, d: Dir): Option<Handler> {
    if d.Read? then p.read else p.write
  }

  function With(p: Pair, d: Dir, h: Option<Handler>): Pair {
    if d.Read? then p.(read := h) else p.(write := h)
  }

  /** The interest that the handlers of a descriptor amount to. */
  function Interest(p: Pair): Mask {
    Mask(p.read.Some?, p.write.Some?)
  }

  function Bit(m: Mask, d: Dir): bool {
    if d.Read? then m.rd else m.wr
  }

  function WithBit(m: Mask, d: Dir, b: bool): Mask {
    if d.Read? then m.(rd := b) else m.(wr := b)
  }

  /** An entry of fd_table, for backends that keep no field of their own in it. */
  datatype Entry = Entry(open: bool, h: Pair, list: FdList)

  /** What fd_close leaves, and what the table starts with: all bytes zero. */
  const ZERO := Entry(false, IDLE, NoList)

  /** comm_setselect, fd_open and fd_close. */
  datatype Call =
    | SetSelect(fd: nat, list: FdList, read: bool, write: bool, handler: Option<Handler>)
    | Open(fd: nat)
    | Close(fd: nat)

  /** The handlers that a caller has registered; a closed descriptor has none. */
  type Plain = seq<Option<Pair>>

  /** The handlers of a table. */
  ghost function HandlersOf(table: seq<Entry>): Plain {
    seq(|table|, i requires 0 <= i < |table| => if table[i].open then Some(table[i].h) else None)
  }

  /** What a call means for the handlers, whatever the backend. */
  function Registered(p: Plain, c: Call): Plain {
    if c.fd >= |p| then p
    else match c {
      case SetSelect(fd, _, r, w, h) =>
        if p[fd].None? then p
        else
          var q := if r then p[fd].value.(read := h) else p[fd].value;
          p[fd := Some(if w then q.(write := h) else q)]
      case Open(fd) => p[fd := Some(IDLE)]
      case Close(fd) => p[fd := None]
    }
  }

  /** A handler is taken out of the table before it runs. */
  function Fired(p: Plain, fd: nat, d: Dir): Plain {
    if fd < |p| && p[fd].Some? then p[fd := Some(With(p[fd].value, d, None))] else p
  }

  /** Descriptor `k` after a call: opened and closed by its own calls, and registered in the directions that are asked for. */
  lemma CallMeans(p: Plain, c: Call, k: nat, d: Dir)
    requires k < |p|
    ensures |Registered(p, c)| == |p|
    ensures Registered(p, c)[k].Some? <==> if c.fd != k || c.SetSelect? then p[k].Some? else c.Open?
    ensures c.Open? && c.fd == k ==> Registered(p, c)[k] == Some(Pair(None, None))
    ensures p[k].Some? && (c.fd != k || c.SetSelect?) ==>
              Of(Registered(p, c)[k].value, d) ==
                if c.fd == k && (if d == Read then c.read else c.write) then c.handler else Of(p[k].value, d)
  {
  }

  /** Descriptor `k` after a handler was taken: only that handler is gone. */
  lemma FireMeans(p: Plain, fd: nat, d: Dir, k: nat, e: Dir)
    requires k < |p|
    ensures |Fired(p, fd, d)| == |p| && (Fired(p, fd, d)[k].Some? <==> p[k].Some?)
    ensures p[k].Some? ==> Of(Fired(p, fd, d)[k].value, e) == if k == fd && e == d then None else Of(p[k].value, e)
  {
  }

  /** The calls that a handler makes, by how much has happened before it in the dispatch round. */
  type Script = nat -> seq<Call>

  /** What a handler leaves that makes the calls one after the other; `step` is what the backend makes of one. */
  ghost function Played<S(!new)>(step: (S, Call) -> S, st: S, calls: seq<Call>): S
    decreases |calls|
  {
    if calls == [] then st else Played(step, step(st, calls[0]), calls[1..])
  }

  /** What happens to the handlers in a dispatch round: a handler is taken, makes a call, or may not make it. */
  datatype Event = Fire(fd: nat, dir: Dir) | Did(call: Call) | Refused(call: Call)

  /** The descriptor that an event changes. */
  function FdOf(e: Event): int {
    match e {
      case Fire(fd, _) => fd
      case Did(c) => c.fd
      case Refused(_) => -1
    }
  }

  /** The descriptors that the events concern. */
  ghost function Touched(events: seq<Event>): set<int> {
    set e | e in events :: FdOf(e)
  }

  lemma TouchedAppend(a: seq<Event>, b: seq<Event>)
    ensures Touched(a + b) == Touched(a) + Touched(b)
  {
    assert forall e :: e in a + b <==> e in a || e in b;
  }

  lemma TouchedOne(e: Event)
    ensures Touched([e]) == {FdOf(e)}
  {
    assert e in [e];
  }

  function Happened(p: Plain, e: Event): Plain {
    match e {
      case Fire(fd, d) => Fired(p, fd, d)
      case Did(c) => Registered(p, c)
      case Refused(_) => p
    }
  }

  /** The handlers after the events, by the meaning of each event alone. */
  function Replay(p: Plain, events: seq<Event>): Plain
    decreases |events|
  {
    if events == [] then p
    else Happened(Replay(p, events[..|events| - 1]), events[|events| - 1])
  }

  lemma ReplayMore(p: Plain, events: seq<Event>, e: Event)
    ensures Replay(p, events + [e]) == Happened(Replay(p, events), e)
  {
    assert (events + [e])[..|events|] == events;
  }

  lemma ReplayOne(p: Plain, e: Event)
    ensures Replay(p, [e]) == Happened(p, e)
  {
    ReplayMore(p, [], e);
    assert [] + [e] == [e];
  }

  lemma ReplayNothing(p: Plain)
    ensures Replay(p, []) == p
  {
  }

  /** No handler is taken twice in one direction. */
  ghost predicate FiredOnce(events: seq<Event>) {
    forall i, j :: 0 <= i < j < |events| && events[i].Fire? && events[j].Fire? ==> events[i] != events[j]
  }

  lemma {:induction false} ReplayAppend(p: Plain, a: seq<Event>, b: seq<Event>)
    ensures Replay(p, a + b) == Replay(Replay(p, a), b)
    decreases |b|
  {
    if b == [] {
      assert a + b == a;
    } else {
      assert (a + b)[..|a + b| - 1] == a + b[..|b| - 1];
      ReplayAppend(p, a, b[..|b| - 1]);
    }
  }

  /** The events of one branch of a dispatch loop: a handler is taken, then makes its calls. */
  ghost predicate Branch(events: seq<Event>, fd: nat, d: Dir) {
    |events| > 0 && events[0] == Fire(fd, d) && forall i :: 0 < i < |events| ==> !events[i].Fire?
  }

  lemma BranchOnce(before: seq<Event>, events: seq<Event>, fd: nat, d: Dir)
    requires FiredOnce(before) && Branch(events, fd, d) && Fire(fd, d) !in before
    ensures FiredOnce(before + events)
    ensures forall e :: e in before + events && e.Fire? ==> e in before || e == Fire(fd, d)
  {
    var all := before + events;
    forall i, j | 0 <= i < j < |all| && all[i].Fire? && all[j].Fire? ensures all[i] != all[j] {
      if j >= |before| {
        assert j - |before| == 0;
      }
    }
  }

  /** Some event is a call on the descriptor. */
  ghost predicate CalledOn(events: seq<Event>, fd: int) {
    exists e :: e in events && e.Did? && e.call.fd == fd
  }

  lemma CalledOnMore(events: seq<Event>, more: seq<Event>, fd: int)
    ensures CalledOn(events + more, fd) <==> CalledOn(events, fd) || CalledOn(more, fd)
  {
    assert forall e :: e in events + more <==> e in events || e in more;
  }

  /** A descriptor on which no call is made stays open, or closed. */
  lemma {:induction false} ReplayOpen(p: Plain, events: seq<Event>, fd: nat)
    requires fd < |p| && !CalledOn(events, fd)
    ensures |Replay(p, events)| == |p| && (Replay(p, events)[fd].Some? <==> p[fd].Some?)
    decreases |events|
  {
    if events != [] {
      var front, e := events[..|events| - 1], events[|events| - 1];
      assert events == front + [e] && e in events;
      CalledOnMore(front, [e], fd);
      ReplayOpen(p, front, fd);
    }
  }

  /** A handler that is not taken, on a descriptor on which no call is made, is still there. */
  lemma {:induction false} ReplayKeepsHandler(p: Plain, events: seq<Event>, fd: nat, d: Dir)
    requires fd < |p| && p[fd].Some? && !CalledOn(events, fd) && Fire(fd, d) !in events
    ensures |Replay(p, events)| == |p| && Replay(p, events)[fd].Some?
    ensures Of(Replay(p, events)[fd].value, d) == Of(p[fd].value, d)
    decreases |events|
  {
    if events != [] {
      var front, e := events[..|events| - 1], events[|events| - 1];
      assert events == front + [e] && e in events;
      CalledOnMore(front, [e], fd);
      ReplayKeepsHandler(p, front, fd, d);
    }
  }

  /** There is a handler for the direction. */
  ghost predicate Waiting(p: Plain, fd: nat, d: Dir) {
    fd < |p| && p[fd].Some? && Of(p[fd].value, d).Some?
  }

  // ------------------------------------------------------------------------------------
  // Handlers that run
  // ------------------------------------------------------------------------------------

  /** The list that a descriptor was last registered on. */
  function PlacedBy(l: seq<FdList>, e: Event): seq<FdList> {
    if !e.Did? || e.call.fd >= |l| then l
    else l[e.call.fd := if e.call.SetSelect? then e.call.list else NoList]
  }

  function Placed(l: seq<FdList>, events: seq<Event>): seq<FdList>
    decreases |events|
  {
    if events == [] then l else PlacedBy(Placed(l, events[..|events| - 1]), events[|events| - 1])
  }

  lemma PlacedMore(l: seq<FdList>, events: seq<Event>, e: Event)
    ensures Placed(l, events + [e]) == PlacedBy(Placed(l, events), e)
  {
    assert (events + [e])[..|events|] == events;
  }

  lemma {:induction false} PlacedAppend(l: seq<FdList>, a: seq<Event>, b: seq<Event>)
    ensures Placed(l, a + b) == Placed(Placed(l, a), b)
    decreases |b|
  {
    if b == [] {
      assert a + b == a;
    } else {
      assert (a + b)[..|a + b| - 1] == a + b[..|b| - 1];
      PlacedAppend(l, a, b[..|b| - 1]);
    }
  }

  lemma {:induction false} SameSize(p: Plain, l: seq<FdList>, events: seq<Event>)
    ensures |Replay(p, events)| == |p| && |Placed(l, events)| == |l|
    decreases |events|
  {
    if events != [] {
      SameSize(p, l, events[..|events| - 1]);
    }
  }

  /**
   A call that no backend may refuse: opening a closed descriptor; and registering or closing an
   open one, as long as that does not take it off a list on which it still has handlers. fd_close
   counts as the IRC list. For descriptors in `busy` only the list that they are on counts.
   */
  ghost predicate Due(p: Plain, l: seq<FdList>, c: Call, busy: set<int>) {
    && c.fd < |p| && c.fd < |l|
    && match c {
      case Open(fd) => p[fd].None?
      case Close(fd) => p[fd].Some? && (l[fd] != HttpdList || (p[fd].value == IDLE && fd !in busy))
      case SetSelect(fd, list, _, _, _) =>
        p[fd].Some? && list != NoList && (l[fd] == list || (p[fd].value == IDLE && fd !in busy))
    }
  }

  /** The event at `j` is the call `c`, or its refusal, for which there was a reason. */
  ghost predicate Attempted(p: Plain, l: seq<FdList>, events: seq<Event>, j: nat, c: Call, busy: set<int>)
    requires j < |events|
  {
    events[j] == Did(c) || (events[j] == Refused(c) && !Due(Replay(p, events[..j]), Placed(l, events[..j]), c, busy))
  }

  /** The events are the calls of a handler, one after the other. */
  ghost predicate Attempts(p: Plain, l: seq<FdList>, events: seq<Event>, calls: seq<Call>, busy: set<int>) {
    |events| == |calls| && forall m :: 0 <= m < |calls| ==> Attempted(p, l, events, m, calls[m], busy)
  }

  /** The calls that a branch makes: those of its handler, if there is one. */
  ghost function CallsOf(p: Plain, fd: nat, d: Dir, calls: seq<Call>): seq<Call> {
    if Waiting(p, fd, d) then calls else []
  }

  /** A branch: the handler is taken, and then makes its calls. */
  ghost predicate BranchPlays(p: Plain, l: seq<FdList>, events: seq<Event>, fd: nat, d: Dir, calls: seq<Call>, busy: set<int>) {
    && |events| > 0 && events[0] == Fire(fd, d)
    && Attempts(Fired(p, fd, d), l, events[1..], CallsOf(p, fd, d, calls), busy + {fd})
  }

  /** The branch that the event at `i` begins is played: its handler makes all calls of the script, in order, and no others. */
  ghost predicate PlaysAt(p: Plain, l: seq<FdList>, events: seq<Event>, script: Script, busy: set<int>, i: nat)
    requires i < |events| && events[i].Fire?
  {
    var before, fd, d := Replay(p, events[..i]), events[i].fd, events[i].dir;
    var calls := CallsOf(before, fd, d, script(i));
    && i + |calls| < |events| && (i + |calls| + 1 < |events| ==> events[i + |calls| + 1].Fire?)
    && forall m :: 0 <= m < |calls| ==> Attempted(p, l, events, i + 1 + m, calls[m], busy + {fd})
  }

  /** Every handler that is taken runs, as the script says. */
  ghost predicate Plays(p: Plain, l: seq<FdList>, events: seq<Event>, script: Script, busy: set<int>) {
    && (events != [] ==> events[0].Fire?)
    && forall i :: 0 <= i < |events| && events[i].Fire? ==> PlaysAt(p, l, events, script, busy, i)
  }

  lemma NothingPlays(p: Plain, l: seq<FdList>, script: Script, busy: set<int>)
    ensures Plays(p, l, [], script, busy) && Attempts(p, l, [], [], busy) && Placed(l, []) == l && Replay(p, []) == p
  {
  }

  /** One more call is made, or refused. */
  lemma Logged(p: Plain, l: seq<FdList>, events: seq<Event>, calls: seq<Call>, e: Event, c: Call, busy: set<int>)
    requires Attempts(p, l, events, calls, busy)
    requires e == Did(c) || (e == Refused(c) && !Due(Replay(p, events), Placed(l, events), c, busy))
    ensures Attempts(p, l, events + [e], calls + [c], busy)
    ensures Replay(p, events + [e]) == if e.Did? then Registered(Replay(p, events), c) else Replay(p, events)
    ensures Placed(l, events + [e]) == if e.Did? then PlacedBy(Placed(l, events), e) else Placed(l, events)
  {
    AttemptMore(p, l, events, calls, e, c, busy);
    ReplayMore(p, events, e);
    PlacedMore(l, events, e);
  }

  lemma AttemptMore(p: Plain, l: seq<FdList>, events: seq<Event>, calls: seq<Call>, e: Event, c: Call, busy: set<int>)
    requires Attempts(p, l, events, calls, busy)
    requires e == Did(c) || (e == Refused(c) && !Due(Replay(p, events), Placed(l, events), c, busy))
    ensures Attempts(p, l, events + [e], calls + [c], busy)
  {
    var all, more := events + [e], calls + [c];
    forall m | 0 <= m < |more| ensures Attempted(p, l, all, m, more[m], busy) {
      if m < |calls| {
        assert Attempted(p, l, events, m, calls[m], busy);
        assert all[..m] == events[..m];
      } else {
        assert all[..m] == events;
      }
    }
  }

  /** The calls behind the event that takes their handler. */
  lemma BranchIs(p: Plain, l: seq<FdList>, did: seq<Event>, fd: nat, d: Dir, calls: seq<Call>, busy: set<int>)
    requires Attempts(Fired(p, fd, d), l, did, CallsOf(p, fd, d, calls), busy + {fd})
    requires forall e :: e in did ==> !e.Fire?
    ensures BranchPlays(p, l, [Fire(fd, d)] + did, fd, d, calls, busy) && Branch([Fire(fd, d)] + did, fd, d)
    ensures Replay(p, [Fire(fd, d)] + did) == Replay(Fired(p, fd, d), did) && Placed(l, [Fire(fd, d)] + did) == Placed(l, did)
  {
    assert ([Fire(fd, d)] + did)[1..] == did;
    ReplayAppend(p, [Fire(fd, d)], did);
    ReplayOne(p, Fire(fd, d));
    PlacedAppend(l, [Fire(fd, d)], did);
    PlacedMore(l, [], Fire(fd, d));
    assert [] + [Fire(fd, d)] == [Fire(fd, d)];
  }

  /** A branch after others: what holds of the events so far. */
  lemma Continues(p: Plain, l: seq<FdList>, before: seq<Event>, more: seq<Event>, fd: nat, d: Dir, script: Script, busy: set<int>)
    requires Plays(p, l, before, script, busy)
    requires BranchPlays(Replay(p, before), Placed(l, before), more, fd, d, script(|before|), busy)
    ensures Plays(p, l, before + more, script, busy)
    ensures Replay(p, before + more) == Replay(Replay(p, before), more)
    ensures Placed(l, before + more) == Placed(Placed(l, before), more)
  {
    hide *;
    PlaysMore(p, l, before, more, fd, d, script, busy);
    ReplayAppend(p, before, more);
    PlacedAppend(l, before, more);
  }

  /** A branch that is played after others. */
  lemma PlaysMore(p: Plain, l: seq<FdList>, before: seq<Event>, more: seq<Event>, fd: nat, d: Dir, script: Script, busy: set<int>)
    requires Plays(p, l, before, script, busy)
    requires BranchPlays(Replay(p, before), Placed(l, before), more, fd, d, script(|before|), busy)
    ensures Plays(p, l, before + more, script, busy)
  {
    hide PlaysAt, BranchPlays, Replay, Placed;
    var all := before + more;
    OneFire(Replay(p, before), Placed(l, before), more, fd, d, script(|before|), busy);
    forall i | 0 <= i < |all| && all[i].Fire? ensures PlaysAt(p, l, all, script, busy, i) {
      if i < |before| {
        EarlierPlays(p, l, before, more, script, busy, i);
      } else {
        LaterPlays(p, l, before, more, fd, d, script, busy);
      }
    }
  }

  /** Rounds that are played one after the other; the script goes on where the first one ended. */
  lemma JoinPlays(p: Plain, l: seq<FdList>, before: seq<Event>, more: seq<Event>, script: Script, rest: Script, busy: set<int>)
    requires Plays(p, l, before, script, busy) && Plays(Replay(p, before), Placed(l, before), more, rest, busy)
    requires forall k :: rest(k) == script(|before| + k)
    ensures Plays(p, l, before + more, script, busy)
    ensures Replay(p, before + more) == Replay(Replay(p, before), more)
    ensures Placed(l, before + more) == Placed(Placed(l, before), more)
  {
    hide PlaysAt, Replay, Placed;
    var all := before + more;
    ReplayAppend(p, before, more);
    PlacedAppend(l, before, more);
    forall i | 0 <= i < |all| && all[i].Fire? ensures PlaysAt(p, l, all, script, busy, i) {
      if i >= |before| {
        ShiftedPlays(p, l, before, more, script, rest, busy, i - |before|);
      } else if more == [] {
        assert all == before;
      } else {
        EarlierPlays(p, l, before, more, script, busy, i);
      }
    }
  }

  lemma Shifted(p: Plain, l: seq<FdList>, before: seq<Event>, more: seq<Event>, k: nat)
    requires k <= |more|
    ensures Replay(p, (before + more)[..|before| + k]) == Replay(Replay(p, before), more[..k])
    ensures Placed(l, (before + more)[..|before| + k]) == Placed(Placed(l, before), more[..k])
  {
    assert (before + more)[..|before| + k] == before + more[..k];
    ReplayAppend(p, before, more[..k]);
    PlacedAppend(l, before, more[..k]);
  }

  lemma ShiftedAttempt(p: Plain, l: seq<FdList>, before: seq<Event>, more: seq<Event>, j: nat, c: Call, busy: set<int>)
    requires j < |more| && Attempted(Replay(p, before), Placed(l, before), more, j, c, busy)
    ensures Attempted(p, l, before + more, |before| + j, c, busy)
  {
    hide Due, Placed, Replay;
    Shifted(p, l, before, more, j);
  }

  lemma ShiftedPlays(p: Plain, l: seq<FdList>, before: seq<Event>, more: seq<Event>, script: Script, rest: Script, busy: set<int>, i: nat)
    requires i < |more| && more[i].Fire? && PlaysAt(Replay(p, before), Placed(l, before), more, rest, busy, i)
    requires rest(i) == script(|before| + i)
    ensures (before + more)[|before| + i].Fire? && PlaysAt(p, l, before + more, script, busy, |before| + i)
  {
    hide Attempted, CallsOf, Placed, Replay;
    var all, n := before + more, |before|;
    Shifted(p, l, before, more, i);
    var calls := CallsOf(Replay(p, all[..n + i]), more[i].fd, more[i].dir, script(n + i));
    forall m | 0 <= m < |calls| ensures Attempted(p, l, all, n + i + 1 + m, calls[m], busy + {more[i].fd}) {
      ShiftedAttempt(p, l, before, more, i + 1 + m, calls[m], busy + {more[i].fd});
      assert n + (i + 1 + m) == n + i + 1 + m;
    }
  }

  lemma OneFire(p: Plain, l: seq<FdList>, events: seq<Event>, fd: nat, d: Dir, calls: seq<Call>, busy: set<int>)
    requires BranchPlays(p, l, events, fd, d, calls, busy)
    ensures |events| > 0 && events[0] == Fire(fd, d) && forall k :: 0 < k < |events| ==> !events[k].Fire?
  {
    hide Due, Replay, Placed;
    var did := CallsOf(p, fd, d, calls);
    forall k | 0 < k < |events| ensures !events[k].Fire? {
      assert events[k] == events[1..][k - 1];
      assert Attempted(Fired(p, fd, d), l, events[1..], k - 1, did[k - 1], busy + {fd});
    }
  }

  lemma EarlierPlays(p: Plain, l: seq<FdList>, before: seq<Event>, more: seq<Event>, script: Script, busy: set<int>, i: nat)
    requires i < |before| && before[i].Fire? && PlaysAt(p, l, before, script, busy, i) && more != [] && more[0].Fire?
    ensures (before + more)[i].Fire? && PlaysAt(p, l, before + more, script, busy, i)
  {
    var all := before + more;
    assert forall k :: 0 <= k <= |before| ==> all[..k] == before[..k];
    assert forall k :: 0 <= k < |before| ==> all[k] == before[k];
    assert all[|before|] == more[0];
    var r, fd, d := Replay(p, before[..i]), before[i].fd, before[i].dir;
    var calls := CallsOf(r, fd, d, script(i));
    forall m | 0 <= m < |calls| ensures Attempted(p, l, all, i + 1 + m, calls[m], busy + {fd}) {
      assert Attempted(p, l, before, i + 1 + m, calls[m], busy + {fd});
    }
  }

  lemma LaterPlays(p: Plain, l: seq<FdList>, before: seq<Event>, more: seq<Event>, fd: nat, d: Dir, script: Script, busy: set<int>)
    requires BranchPlays(Replay(p, before), Placed(l, before), more, fd, d, script(|before|), busy)
    ensures |before| < |before + more| && (before + more)[|before|].Fire?
    ensures PlaysAt(p, l, before + more, script, busy, |before|)
  {
    hide Due, Registered, Fired;
    var all, n := before + more, |before|;
    var r := Replay(p, before);
    var calls := CallsOf(r, fd, d, script(n));
    assert all[..n] == before && all[n] == more[0];
    forall m | 0 <= m < |calls| ensures Attempted(p, l, all, n + 1 + m, calls[m], busy + {fd}) {
      assert Attempted(Fired(r, fd, d), Placed(l, before), more[1..], m, calls[m], busy + {fd});
      assert all[n + 1 + m] == more[1..][m];
      assert all[..n + 1 + m] == before + ([Fire(fd, d)] + more[1..][..m]);
      ReplayAppend(p, before, [Fire(fd, d)] + more[1..][..m]);
      ReplayAppend(r, [Fire(fd, d)], more[1..][..m]);
      ReplayOne(r, Fire(fd, d));
      PlacedAppend(l, before, [Fire(fd, d)] + more[1..][..m]);
      PlacedAppend(Placed(l, before), [Fire(fd, d)], more[1..][..m]);
      PlacedMore(Placed(l, before), [], Fire(fd, d));
      assert [] + [Fire(fd, d)] == [Fire(fd, d)];
    }
  }

  lemma ContinuesIf(p: Plain, l: seq<FdList>, before: seq<Event>, more: seq<Event>, fd: nat, d: Dir, script: Script, busy: set<int>)
    requires Plays(p, l, before, script, busy)
    requires more == [] || BranchPlays(Replay(p, before), Placed(l, before), more, fd, d, script(|before|), busy)
    ensures Plays(p, l, before + more, script, busy)
    ensures Replay(p, before + more) == Replay(Replay(p, before), more)
    ensures Placed(l, before + more) == Placed(Placed(l, before), more)
  {
    hide *;
    if more == [] {
      assert before + more == before;
      ReplayNothing(Replay(p, before));
      NothingPlays(Replay(p, before), Placed(l, before), script, busy);
    } else {
      Continues(p, l, before, more, fd, d, script, busy);
    }
  }

  /** The list of each descriptor of a table. */
  ghost function ListsOf(table: seq<Entry>): seq<FdList> {
    seq(|table|, i requires 0 <= i < |table| => table[i].list)
  }

  lemma AttemptsBusier(p: Plain, l: seq<FdList>, events: seq<Event>, calls: seq<Call>, busy: set<int>, more: set<int>)
    requires Attempts(p, l, events, calls, busy) && busy <= more
    ensures Attempts(p, l, events, calls, more)
  {
    hide Replay, Placed;
    forall m | 0 <= m < |calls| ensures Attempted(p, l, events, m, calls[m], more) {
      assert Attempted(p, l, events, m, calls[m], busy);
    }
  }

  lemma PlaysBusier(p: Plain, l: seq<FdList>, events: seq<Event>, script: Script, busy: set<int>, more: set<int>)
    requires Plays(p, l, events, script, busy) && busy <= more
    ensures Plays(p, l, events, script, more)
  {
    hide Replay, Placed, CallsOf;
    forall i | 0 <= i < |events| && events[i].Fire? ensures PlaysAt(p, l, events, script, more, i) {
      assert PlaysAt(p, l, events, script, busy, i);
      var calls := CallsOf(Replay(p, events[..i]), events[i].fd, events[i].dir, script(i));
      forall m | 0 <= m < |calls| ensures Attempted(p, l, events, i + 1 + m, calls[m], more + {events[i].fd}) {
        assert Attempted(p, l, events, i + 1 + m, calls[m], busy + {events[i].fd});
      }
    }
  }

  /** A handler that is there when it is taken makes each call of its script, in order, unless there was a reason not to. */
  lemma HandlerRuns(p: Plain, l: seq<FdList>, events: seq<Event>, script: Script, busy: set<int>, i: nat, m: nat)
    requires Plays(p, l, events, script, busy) && i < |events| && events[i].Fire? && m < |script(i)|
    requires Waiting(Replay(p, events[..i]), events[i].fd, events[i].dir)
    ensures i + 1 + m < |events|
    ensures var j, c := i + 1 + m, script(i)[m];
            || events[j] == Did(c)
            || (events[j] == Refused(c) && !Due(Replay(p, events[..j]), Placed(l, events[..j]), c, busy + {events[i].fd}))
    ensures i + 1 + |script(i)| < |events| ==> events[i + 1 + |script(i)|].Fire?
  {
    hide Replay, Placed, Due, Waiting;
    assert PlaysAt(p, l, events, script, busy, i);
    CallsOfWaiting(Replay(p, events[..i]), events[i].fd, events[i].dir, script(i));
    assert Attempted(p, l, events, i + 1 + m, script(i)[m], busy + {events[i].fd});
  }

  lemma CallsOfWaiting(p: Plain, fd: nat, d: Dir, calls: seq<Call>)
    requires Waiting(p, fd, d)
    ensures CallsOf(p, fd, d, calls) == calls
  {
  }

  /**
   What this is for: a handler that does nothing but register itself again, on the list that its
   descriptor is on, is there after the round, unless the descriptor is concerned again.
   */
  lemma RegistersAgain(p: Plain, l: seq<FdList>, events: seq<Event>, script: Script, busy: set<int>, i: nat, list: FdList, h: Handler)
    requires Plays(p, l, events, script, busy) && |p| == |l| && i < |events| && events[i].Fire?
    requires Waiting(Replay(p, events[..i]), events[i].fd, events[i].dir)
    requires events[i].fd < |Placed(l, events[..i])| && Placed(l, events[..i])[events[i].fd] == list && list != NoList
    requires script(i) == [SetSelect(events[i].fd, list, events[i].dir.Read?, events[i].dir.Write?, Some(h))]
    requires forall j :: i + 1 < j < |events| ==> FdOf(events[j]) != events[i].fd
    ensures var fd, end := events[i].fd, Replay(p, events);
            fd < |end| && end[fd].Some? && Of(end[fd].value, events[i].dir) == Some(h)
  {
    hide Plays, Replay, Placed, Due;
    var fd, d := events[i].fd, events[i].dir;
    RegistersAtOnce(p, l, events, script, busy, i, list, h);
    var front, rest := events[..i + 2], events[i + 2..];
    assert events == front + rest;
    ReplayAppend(p, front, rest);
    forall e | e in rest ensures FdOf(e) != fd {
      var k :| 0 <= k < |rest| && rest[k] == e;
      assert e == events[i + 2 + k];
    }
    NotConcerned(rest, fd, d);
    ReplayKeepsHandler(Replay(p, front), rest, fd, d);
    SameSize(p, l, events);
  }

  lemma NotConcerned(events: seq<Event>, fd: nat, d: Dir)
    requires forall e :: e in events ==> FdOf(e) != fd
    ensures !CalledOn(events, fd) && Fire(fd, d) !in events
  {
    assert FdOf(Fire(fd, d)) == fd;
    assert forall e :: e in events && e.Did? ==> e.call.fd != fd;
  }

  lemma RegistersAtOnce(p: Plain, l: seq<FdList>, events: seq<Event>, script: Script, busy: set<int>, i: nat, list: FdList, h: Handler)
    requires Plays(p, l, events, script, busy) && |p| == |l| && i < |events| && events[i].Fire?
    requires Waiting(Replay(p, events[..i]), events[i].fd, events[i].dir)
    requires events[i].fd < |Placed(l, events[..i])| && Placed(l, events[..i])[events[i].fd] == list && list != NoList
    requires script(i) == [SetSelect(events[i].fd, list, events[i].dir.Read?, events[i].dir.Write?, Some(h))]
    ensures i + 1 < |events|
    ensures var fd, after := events[i].fd, Replay(p, events[..i + 2]);
            fd < |after| && after[fd].Some? && Of(after[fd].value, events[i].dir) == Some(h)
  {
    hide Replay, Placed, Due, Fired, Registered, Plays;
    var fd := events[i].fd;
    HandlerRuns(p, l, events, script, busy, i, 0);
    assert events[..i + 1] == events[..i] + [events[i]];
    assert events[..i + 2] == events[..i + 1] + [events[i + 1]];
    ReplayMore(p, events[..i], events[i]);
    PlacedMore(l, events[..i], events[i]);
    ReplayMore(p, events[..i + 1], events[i + 1]);
    OnItsList(Replay(p, events[..i]), Placed(l, events[..i]), fd, events[i].dir, list, h, busy + {fd});
  }

  lemma OnItsList(p: Plain, l: seq<FdList>, fd: nat, d: Dir, list: FdList, h: Handler, busy: set<int>)
    requires fd < |p| && fd < |l| && p[fd].Some? && l[fd] == list && list != NoList
    ensures var c, q := SetSelect(fd, list, d.Read?, d.Write?, Some(h)), Fired(p, fd, d);
            && Due(q, l, c, busy) && |Registered(q, c)| == |p| && Registered(q, c)[fd].Some?
            && Of(Registered(q, c)[fd].value, d) == Some(h)
  {
  }

  /** Each of the first `n` reports for which there was a handler was served, unless a handler made a call on the descriptor. */
  ghost predicate ReportsServed(p: Plain, events: seq<Event>, reports: seq<(nat, Mask)>, n: nat)
    requires n <= |reports|
  {
    forall i, d :: 0 <= i < n && Bit(reports[i].1, d) && Waiting(p, reports[i].0, d) ==>
      Fire(reports[i].0, d) in events || CalledOn(events, reports[i].0)
  }

  lemma NothingToServe(p: Plain, reports: seq<(nat, Mask)>)
    ensures ReportsServed(p, [], reports, 0)
  {
  }

  /** In each direction reported, a handler that is there is taken, unless a handler makes a call on the descriptor. */
  ghost predicate Serves(p: Plain, events: seq<Event>, fd: nat, report: Mask) {
    forall d :: Bit(report, d) && Waiting(p, fd, d) ==> Fire(fd, d) in events || CalledOn(events, fd)
  }

  /** First the branch that reads, then the branch that writes. */
  lemma TwoBranches(p: Plain, rs: seq<Event>, ws: seq<Event>, fd: nat, report: Mask)
    requires report.rd && Waiting(p, fd, Read) ==> Fire(fd, Read) in rs
    requires report.wr && Waiting(Replay(p, rs), fd, Write) ==> Fire(fd, Write) in ws
    ensures Serves(p, rs + ws, fd, report)
  {
    assert forall e :: e in rs + ws <==> e in rs || e in ws;
    CalledOnMore(rs, ws, fd);
    if Waiting(p, fd, Write) && !CalledOn(rs, fd) && Fire(fd, Write) !in rs {
      ReplayKeepsHandler(p, rs, fd, Write);
    }
  }

  lemma ReportServed(p: Plain, before: seq<Event>, events: seq<Event>, reports: seq<(nat, Mask)>, n: nat)
    requires n < |reports| && ReportsServed(p, before, reports, n)
    requires Serves(Replay(p, before), events, reports[n].0, reports[n].1)
    ensures ReportsServed(p, before + events, reports, n + 1)
  {
    var all := before + events;
    assert forall e :: e in all <==> e in before || e in events;
    forall i, d | 0 <= i < n + 1 && Bit(reports[i].1, d) && Waiting(p, reports[i].0, d)
      ensures Fire(reports[i].0, d) in all || CalledOn(all, reports[i].0)
    {
      var fd := reports[i].0;
      CalledOnMore(before, events, fd);
      if i == n && !CalledOn(before, fd) && Fire(fd, d) !in before {
        ReplayKeepsHandler(p, before, fd, d);
      }
    }
  }

  /** Every handler taken so far was of a descriptor that the first `n` reports name, in that direction. */
  ghost predicate Reported(events: seq<Event>, reports: seq<(nat, Mask)>, n: nat)
    requires n <= |reports|
  {
    forall e :: e in events && e.Fire? ==> exists i :: 0 <= i < n && reports[i].0 == e.fd && Bit(reports[i].1, e.dir)
  }

  lemma NothingReported(reports: seq<(nat, Mask)>)
    ensures Reported([], reports, 0)
  {
  }

  lemma ReportedMore(before: seq<Event>, events: seq<Event>, reports: seq<(nat, Mask)>, n: nat)
    requires n < |reports| && Reported(before, reports, n)
    requires forall e :: e in events && e.Fire? ==> e.fd == reports[n].0 && Bit(reports[n].1, e.dir)
    ensures Reported(before + events, reports, n + 1)
  {
    forall e | e in before + events && e.Fire?
      ensures exists i :: 0 <= i < n + 1 && reports[i].0 == e.fd && Bit(reports[i].1, e.dir)
    {
      if e in before {
        var i :| 0 <= i < n && reports[i].0 == e.fd && Bit(reports[i].1, e.dir);
      }
    }
  }

  /** A descriptor that was open and is not was closed by a handler. */
  lemma {:induction false} ReplayClosed(p: Plain, events: seq<Event>, fd: nat)
    requires fd < |p| && p[fd].Some? && |Replay(p, events)| == |p| && Replay(p, events)[fd].None?
    ensures Did(Close(fd)) in events
    decreases |events|
  {
    var front, e := events[..|events| - 1], events[|events| - 1];
    assert events == front + [e] && e in events;
    if e != Did(Close(fd)) {
      ReplayClosed(p, front, fd);
    }
  }
}
