/**
 The epoll backend (server/s_bsd_epoll.c): `pflags` of a descriptor mirrors what epoll_ctl has
 told the kernel. Every descriptor is registered with `ep`, whatever its list.
 */
module EpollBackend {
  import opened LinkedLists
  import opened Readiness

  /** An entry of fd_table. */
  datatype Fde = Fde(open: bool, h: Pair, list: FdList, pflags: Mask)

  const ZEROED := Fde(false, IDLE, NoList, NOTHING)

  /**
   `ep` and `hep` are the interest lists of the two epoll descriptors: None where a descriptor is
   not registered.
   */
  datatype State = State(table: seq<Fde>, ep: seq<Option<Mask>>, hep: seq<Option<Mask>>)

  ghost function Handlers(st: State): Plain {
    seq(|st.table|, i requires 0 <= i < |st.table| => if st.table[i].open then Some(st.table[i].h) else None)
  }

  datatype Op = Add | Mod | Del

  /** The list of each descriptor. */
  ghost function Lists(st: State): seq<FdList> {
    seq(|st.table|, i requires 0 <= i < |st.table| => st.table[i].list)
  }

  /** epoll_ctl: it fails, without effect, where the descriptor is or is not registered against the operation. */
  function Ctl(k: Option<Mask>, op: Op, m: Mask): Option<Mask> {
    match op {
      case Add => if k.None? then Some(m) else k
      case Mod => if k.Some? then Some(m) else k
      case Del => None
    }
  }

  /** The descriptor whose report is being handled, and its pflags before; `slips` if OUT may linger. */
  datatype Busy = Quiet | Running(fd: nat, was: Mask, slips: bool)

  // ------------------------------------------------------------------------------------
  // What holds at every point
  // ------------------------------------------------------------------------------------

  /** No interest is lost: there is no handler that the kernel is not asked for. */
  ghost predicate Covers(f: Fde, k: Option<Mask>) {
    && k == (if f.pflags == NOTHING then None else Some(f.pflags))
    && (f.h.read.Some? ==> f.pflags.rd) && (f.h.write.Some? ==> f.pflags.wr)
    && (!f.open ==> f == ZEROED)
  }

  /** Reading is exact outside of dispatch; what is asked too much during dispatch was asked before it. */
  ghost predicate FdOk(f: Fde, k: Option<Mask>, fd: nat, busy: Busy) {
    && Covers(f, k)
    && if busy.Running? && busy.fd == fd then
         (f.pflags.rd && f.h.read.None? ==> busy.was.rd) && (f.pflags.wr && f.h.write.None? ==> busy.was.wr || busy.slips)
       else f.pflags.rd == f.h.read.Some?
  }

  /** Nothing is ever registered with the second epoll descriptor. */
  ghost predicate Inv(st: State, busy: Busy) {
    && |st.ep| == |st.table| == |st.hep| && (forall fd :: 0 <= fd < |st.hep| ==> st.hep[fd].None?)
    && forall fd :: 0 <= fd < |st.table| ==> FdOk(st.table[fd], st.ep[fd], fd, busy)
  }

  predicate Exact(f: Fde) {
    f.pflags == Interest(f.h)
  }

  // ------------------------------------------------------------------------------------
  // Registering
  // ------------------------------------------------------------------------------------

  function WithFde(st: State, fd: nat, f: Fde): State
    requires fd < |st.table|
  {
    st.(table := st.table[fd := f])
  }

  /** What comm_setselect makes of the entry. */
  function Chosen(f: Fde, list: FdList, read: bool, write: bool, h: Option<Handler>): Fde {
    f.(list := list,
       h := Pair(if read then h else f.h.read, if write then h else f.h.write),
       pflags := Mask(if read then h.Some? else f.pflags.rd, if write then h.Some? else f.pflags.wr))
  }

  /** The operation by which comm_setselect tells the kernel of a change of pflags. */
  function OpFor(was: Mask, now: Mask): Option<Op> {
    if was == NOTHING && now == NOTHING then None
    else if now == NOTHING then Some(Del)
    else if was == NOTHING then Some(Add)
    else if now != was then Some(Mod)
    else None
  }

  /** comm_setselect */
  function Selected(st: State, fd: nat, list: FdList, read: bool, write: bool, h: Option<Handler>): State
    requires fd < |st.table| == |st.ep|
  {
    var f := Chosen(st.table[fd], list, read, write, h);
    var op := OpFor(st.table[fd].pflags, f.pflags);
    st.(table := st.table[fd := f], ep := if op.None? then st.ep else st.ep[fd := Ctl(st.ep[fd], op.value, f.pflags)])
  }

  /** fd_close */
  function Closed(st: State, fd: nat): State
    requires fd < |st.table| == |st.ep|
  {
    WithFde(Selected(st, fd, NoList, true, true, None), fd, ZEROED)
  }

  /** fd_open */
  function Opened(st: State, fd: nat): State
    requires fd < |st.table| == |st.ep|
  {
    var st0 := if st.table[fd].open then Closed(st, fd) else st;
    WithFde(st0, fd, st0.table[fd].(open := true, list := NoList))
  }

  /** All that is asked of a caller is that it registers and closes open descriptors. */
  predicate Allowed(table: seq<Fde>, c: Call) {
    c.fd < |table| && (table[c.fd].open || c.Open?)
  }

  function Called(st: State, c: Call): State
    requires c.fd < |st.table| == |st.ep|
  {
    match c {
      case SetSelect(fd, list, read, write, h) => Selected(st, fd, list, read, write, h)
      case Close(fd) => Closed(st, fd)
      case Open(fd) => Opened(st, fd)
    }
  }

  /** A call that a handler makes, if it is allowed. */
  function Step(st: State, c: Call): State {
    if |st.table| == |st.ep| && Allowed(st.table, c) then Called(st, c) else st
  }

  ghost predicate OnlyAt(st: State, st': State, fd: nat) {
    && |st.ep| == |st.table| == |st'.table| == |st'.ep| && st'.hep == st.hep
    && forall k :: 0 <= k < |st.table| && k != fd ==> st'.table[k] == st.table[k] && st'.ep[k] == st.ep[k]
  }

  lemma InvAt(st: State, st': State, fd: nat, busy: Busy, busy': Busy)
    requires Inv(st, busy) && OnlyAt(st, st', fd) && fd < |st.table|
    requires busy' == busy || ((busy.Quiet? || busy.fd == fd) && (busy'.Quiet? || busy'.fd == fd))
    ensures Inv(st', busy') <==> FdOk(st'.table[fd], st'.ep[fd], fd, busy')
  {
    forall k | 0 <= k < |st.table| && k != fd ensures FdOk(st'.table[k], st'.ep[k], k, busy') {
      assert FdOk(st.table[k], st.ep[k], k, busy);
    }
  }

  lemma EntryOk(st: State, fd: nat, busy: Busy)
    requires Inv(st, busy) && fd < |st.table|
    ensures |st.ep| == |st.table| && FdOk(st.table[fd], st.ep[fd], fd, busy)
  {
  }

  /** Every call on an open descriptor keeps the coverage, also while a handler runs; exact entries stay exact. */
  lemma CalledKeeps(st: State, c: Call, busy: Busy)
    requires Inv(st, busy) && Allowed(st.table, c)
    ensures |st.table| == |st.ep| && Inv(Called(st, c), busy)
    ensures Handlers(Called(st, c)) == Registered(Handlers(st), c)
    ensures |Called(st, c).table| == |st.table| && (Exact(st.table[c.fd]) ==> Exact(Called(st, c).table[c.fd]))
    ensures forall k :: 0 <= k < |st.table| && k != c.fd ==> Called(st, c).table[k] == st.table[k]
  {
    hide Inv;
    EntryOk(st, c.fd, busy);
    InvAt(st, Called(st, c), c.fd, busy, busy);
  }

  // ------------------------------------------------------------------------------------
  // Dispatch
  // ------------------------------------------------------------------------------------

  /** The handler is taken out before it runs; pflags are not touched. */
  function Taken(st: State, fd: nat, d: Dir): State
    requires fd < |st.table|
  {
    WithFde(st, fd, st.table[fd].(h := With(st.table[fd].h, d, None)))
  }

  /** The end of a dispatch step: pflags are brought up to date if they were not right before the step. */
  function Settled(st: State, fd: nat, was: Mask): State
    requires fd < |st.table| == |st.ep|
  {
    var f := st.table[fd];
    var flags := Interest(f.h);
    if !f.open || was == flags then st
    else
      st.(table := st.table[fd := f.(pflags := flags)],
          ep := st.ep[fd := Ctl(st.ep[fd], if flags == NOTHING then Del else Mod, flags)])
  }

  /**
   The interest in writing lingers: a handler armed it during the step, it was taken without
   being armed again, and the handlers are now those that pflags stood for before the step.
   */
  predicate Lingers(f: Fde, was: Mask) {
    f.open && f.pflags.wr && f.h.write.None? && !was.wr && was.rd == f.h.read.Some?
  }

  lemma TakenKeeps(st: State, fd: nat, d: Dir, busy: Busy)
    requires Inv(st, busy) && fd < |st.table| && busy.Running? && busy.fd == fd
    requires d.Read? ==> st.table[fd].pflags.rd ==> busy.was.rd
    ensures var slips := busy.slips || (d.Write? && st.table[fd].h.write.Some? && !busy.was.wr);
            Inv(Taken(st, fd, d), busy.(slips := slips)) && Handlers(Taken(st, fd, d)) == Fired(Handlers(st), fd, d)
  {
    EntryOk(st, fd, busy);
    var slips := busy.slips || (d.Write? && st.table[fd].h.write.Some? && !busy.was.wr);
    InvAt(st, Taken(st, fd, d), fd, busy, busy.(slips := slips));
  }

  /** A dispatch step ends with the kernel asked exactly, unless and only unless the interest lingers. */
  lemma SettledExactIff(st: State, fd: nat, busy: Busy)
    requires busy.Running? && busy.fd == fd && Inv(st, busy) && fd < |st.table|
    ensures |st.table| == |st.ep|
    ensures var st' := Settled(st, fd, busy.was);
            && Inv(st', Quiet) && Handlers(st') == Handlers(st) && |st'.table| == |st.table|
            && (Exact(st'.table[fd]) <==> !Lingers(st.table[fd], busy.was))
            && (forall k :: 0 <= k < |st.table| && k != fd ==> st'.table[k] == st.table[k])
    ensures Lingers(st.table[fd], busy.was) ==> busy.slips
  {
    EntryOk(st, fd, busy);
    InvAt(st, Settled(st, fd, busy.was), fd, busy, Quiet);
  }

  lemma StepStarts(st: State, fd: nat)
    requires Inv(st, Quiet) && fd < |st.table|
    ensures Inv(st, Running(fd, st.table[fd].pflags, false)) && (st.table[fd].h.write.Some? ==> st.table[fd].pflags.wr)
  {
    EntryOk(st, fd, Quiet);
    InvAt(st, st, fd, Quiet, Running(fd, st.table[fd].pflags, false));
  }

  /**
   The lingering interest is real: after a hangup on a descriptor that was only read, the read
   handler asks to read and write, the write handler runs at once, and OUT stays in the kernel.
   */
  lemma HangupLingers(h: Handler) returns (st: State)
    ensures Inv(st, Quiet) && |st.table| == 1 && Exact(st.table[0])
    ensures var armed := Selected(Taken(st, 0, Read), 0, IrcdList, true, true, Some(h));
            var end := Settled(Taken(armed, 0, Write), 0, st.table[0].pflags);
            Inv(end, Quiet) && end.ep[0] == Some(Mask(true, true)) && end.table[0].h == Pair(Some(h), None)
  {
    st := State([Fde(true, Pair(Some(h), None), IrcdList, Mask(true, false))], [Some(Mask(true, false))], [None]);
    assert FdOk(st.table[0], st.ep[0], 0, Quiet);
  }

  lemma LingerNeeds(f: Fde, was: Mask)
    ensures Lingers(f, was) ==> !was.wr
  {
  }

  /** What epoll_wait can report: descriptors registered with the epoll descriptor of the list. */
  ghost predicate KernelReports(st: State, http: bool, reports: seq<(nat, Mask)>) {
    && |st.ep| == |st.table| == |st.hep|
    && forall i :: 0 <= i < |reports| ==>
         reports[i].0 < |st.table| && (if http then st.hep else st.ep)[reports[i].0].Some?
  }

  lemma NoHttpReports(st: State, reports: seq<(nat, Mask)>)
    requires Inv(st, Quiet) && KernelReports(st, true, reports)
    ensures reports == []
  {
    FirstReport(st, reports);
  }

  lemma FirstReport(st: State, reports: seq<(nat, Mask)>)
    requires KernelReports(st, true, reports)
    ensures reports == [] || exists fd :: 0 <= fd < |st.hep| && st.hep[fd].Some?
  {
    if reports != [] {
      assert st.hep[reports[0].0].Some?;
    }
  }

  /** A read handler registered for the HTTP list sits with `ep`, and polling the HTTP list can report nothing. */
  lemma HttpIsNotHeard(st: State, fd: nat, h: Handler, reports: seq<(nat, Mask)>)
    requires Inv(st, Quiet) && fd < |st.table| && st.table[fd].open
    ensures |st.table| == |st.ep|
    ensures var st' := Selected(st, fd, HttpdList, true, false, Some(h));
            && st'.table[fd].h.read == Some(h) && st'.ep[fd].Some? && st'.ep[fd].value.rd
            && (KernelReports(st', true, reports) ==> reports == [])
  {
    CalledKeeps(st, SetSelect(fd, HttpdList, true, false, Some(h)), Quiet);
    EntryOk(Selected(st, fd, HttpdList, true, false, Some(h)), fd, Quiet);
    if KernelReports(Selected(st, fd, HttpdList, true, false, Some(h)), true, reports) {
      NoHttpReports(Selected(st, fd, HttpdList, true, false, Some(h)), reports);
    }
  }

  /** Descriptors that were asked for exactly still are, except perhaps `fd`. */
  ghost predicate StaysExact(table: seq<Fde>, table': seq<Fde>, fd: int) {
    |table| == |table'| && forall k :: 0 <= k < |table| && k != fd && Exact(table[k]) ==> Exact(table'[k])
  }

  /** The lists after a call, after a handler is taken, and at the end of a dispatch step. */
  lemma CalledLists(st: State, c: Call)
    requires |st.table| == |st.ep| && Allowed(st.table, c)
    ensures Lists(Called(st, c)) == PlacedBy(Lists(st), Did(c))
  {
  }

  lemma SameLists(st: State, fd: nat, d: Dir, was: Mask)
    requires fd < |st.table| == |st.ep|
    ensures Lists(Taken(st, fd, d)) == Lists(st) && Lists(Settled(st, fd, was)) == Lists(st)
  {
  }

  lemma WaitingIs(st: State, fd: nat, d: Dir, busy: Busy)
    requires Inv(st, busy) && fd < |st.table|
    ensures Waiting(Handlers(st), fd, d) <==> Of(st.table[fd].h, d).Some?
  {
    EntryOk(st, fd, busy);
  }

  lemma OpenIf(st: State, fd: nat)
    requires fd < |st.table|
    ensures !st.table[fd].open ==> !Waiting(Handlers(st), fd, Write)
  {
  }

  lemma DueIsAllowed(st: State, c: Call, busy: set<int>)
    requires Due(Handlers(st), Lists(st), c, busy)
    ensures Allowed(st.table, c)
  {
  }

  // ------------------------------------------------------------------------------------
  // The code
  // ------------------------------------------------------------------------------------

  class Epoll {
    const table: array<Fde>
    var ep: seq<Option<Mask>>
    var hep: seq<Option<Mask>>

    ghost function View(): State
      reads this, table
    {
      State(table[..], ep, hep)
    }

    /** init_netio and fdlist_init */
    constructor (connections: nat)
      ensures Inv(View(), Quiet) && table.Length == connections && Handlers(View()) == seq(connections, i => None)
    {
      table := new Fde[connections](i => ZEROED);
      ep := seq(connections, i => None);
      hep := seq(connections, i => None);
    }

    /** comm_setselect */
    method Register(fd: nat, list: FdList, read: bool, write: bool, h: Option<Handler>)
      requires fd < table.Length == |ep|
      modifies this, table
      ensures View() == Selected(old(View()), fd, list, read, write, h)
    {
      var was := table[fd].pflags;
      table[fd] := table[fd].(list := list);
      if read {
        table[fd] := table[fd].(pflags := WithBit(table[fd].pflags, Read, h.Some?));
        table[fd] := table[fd].(h := With(table[fd].h, Read, h));
      }
      if write {
        table[fd] := table[fd].(pflags := WithBit(table[fd].pflags, Write, h.Some?));
        table[fd] := table[fd].(h := With(table[fd].h, Write, h));
      }
      assert table[..] == old(table[..])[fd := Chosen(old(table[fd]), list, read, write, h)];
      var now := table[fd].pflags;
      var op: Option<Op> := None;
      if was == NOTHING && now == NOTHING {
        return;
      } else if now == NOTHING {
        op := Some(Del);
      } else if was == NOTHING {
        op := Some(Add);
      } else if now != was {
        op := Some(Mod);
      }
      if op.None? {
        return;
      }
      ep := ep[fd := Ctl(ep[fd], op.value, now)];
    }

    /** fd_close */
    method FdClose(fd: nat)
      requires fd < table.Length == |ep|
      modifies this, table
      ensures View() == Closed(old(View()), fd)
    {
      hide Selected;
      Register(fd, NoList, true, true, None);
      table[fd] := ZEROED;
    }

    /** fd_open */
    method FdOpen(fd: nat)
      requires fd < table.Length == |ep|
      modifies this, table
      ensures View() == Opened(old(View()), fd)
    {
      hide Closed;
      if table[fd].open {
        FdClose(fd);
      }
      table[fd] := table[fd].(open := true, list := NoList);
    }

    /** A handler runs: it makes its calls, as far as they are on open descriptors. */
    method RunHandler(calls: seq<Call>, ghost busy: Busy) returns (did: seq<Event>)
      requires Inv(View(), busy)
      modifies this, table
      ensures Inv(View(), busy) && Handlers(View()) == Replay(old(Handlers(View())), did) && forall e :: e in did ==> !e.Fire?
      ensures Lists(View()) == Placed(old(Lists(View())), did)
      ensures Attempts(old(Handlers(View())), old(Lists(View())), did, calls, {})
      ensures StaysExact(old(table[..]), table[..], -1) && View() == Played(Step, old(View()), calls)
    {
      hide Handlers, Registered, Selected, Closed, Opened, Replay, FdOk, Exact, Lists, Placed, PlacedBy, Due, Attempts;
      ghost var p, l := Handlers(View()), Lists(View());
      did := [];
      NothingPlays(p, l, k => [], {});
      for i := 0 to |calls|
        invariant Inv(View(), busy) && Handlers(View()) == Replay(p, did) && forall e :: e in did ==> !e.Fire?
        invariant Lists(View()) == Placed(l, did) && Attempts(p, l, did, calls[..i], {})
        invariant StaysExact(old(table[..]), table[..], -1) && Played(Step, View(), calls[i..]) == Played(Step, old(View()), calls)
      {
        assert calls[i..][0] == calls[i] && calls[i..][1..] == calls[i + 1..];
        assert calls[..i + 1] == calls[..i] + [calls[i]];
        var c := calls[i];
        ghost var st := View();
        if c.fd < table.Length && Allowed(table[..], c) {
          CalledKeeps(st, c, busy);
          CalledLists(st, c);
          match c {
            case SetSelect(fd, list, read, write, h) => Register(fd, list, read, write, h);
            case Close(fd) => FdClose(fd);
            case Open(fd) => FdOpen(fd);
          }
          Logged(p, l, did, calls[..i], Did(c), c, {});
          did := did + [Did(c)];
        } else {
          if Due(Handlers(st), Lists(st), c, {}) {
            DueIsAllowed(st, c, {});
          }
          Logged(p, l, did, calls[..i], Refused(c), c, {});
          did := did + [Refused(c)];
        }
      }
      assert calls[..|calls|] == calls;
    }

    /** One branch of the dispatch loop: the handler is taken out and, if there was one, runs. */
    method Take(fd: nat, d: Dir, calls: seq<Call>, ghost busy: Busy) returns (events: seq<Event>, ghost busy': Busy)
      requires Inv(View(), busy) && fd < table.Length && busy.Running? && busy.fd == fd
      requires d.Read? ==> table[fd].pflags.rd ==> busy.was.rd
      modifies this, table
      ensures busy' == busy.(slips := busy.slips || (d.Write? && old(table[fd]).h.write.Some? && !busy.was.wr))
      ensures Inv(View(), busy') && Branch(events, fd, d) && Handlers(View()) == Replay(old(Handlers(View())), events)
      ensures BranchPlays(old(Handlers(View())), old(Lists(View())), events, fd, d, calls, {})
      ensures Lists(View()) == Placed(old(Lists(View())), events) && StaysExact(old(table[..]), table[..], fd)
      ensures View() == if Of(old(table[fd]).h, d).Some? then Played(Step, Taken(old(View()), fd, d), calls) else Taken(old(View()), fd, d)
    {
      hide Handlers, Replay, Fired, FdOk, Played, Lists, Placed, Attempts, BranchPlays;
      ghost var p, l := Handlers(View()), Lists(View());
      WaitingIs(View(), fd, d, busy);
      SameLists(View(), fd, d, NOTHING);
      TakenKeeps(View(), fd, d, busy);
      busy' := busy.(slips := busy.slips || (d.Write? && table[fd].h.write.Some? && !busy.was.wr));
      var h := Of(table[fd].h, d);
      table[fd] := table[fd].(h := With(table[fd].h, d, None));
      assert View() == Taken(old(View()), fd, d);
      var did: seq<Event> := [];
      NothingPlays(Fired(p, fd, d), l, k => [], {});
      if h.Some? {
        did := RunHandler(calls, busy');
      }
      AttemptsBusier(Fired(p, fd, d), l, did, CallsOf(p, fd, d, calls), {}, {} + {fd});
      BranchIs(p, l, did, fd, d, calls, {});
      events := [Fire(fd, d)] + did;
    }

    /** The end of a dispatch step */
    method Settle(fd: nat, was: Mask)
      requires fd < table.Length == |ep|
      modifies this, table
      ensures View() == Settled(old(View()), fd, was)
    {
      if !table[fd].open {
        return;
      }
      var flags := NOTHING;
      if table[fd].h.read.Some? {
        flags := flags.(rd := true);
      }
      if table[fd].h.write.Some? {
        flags := flags.(wr := true);
      }
      if was != flags {
        table[fd] := table[fd].(pflags := flags);
        ep := ep[fd := Ctl(ep[fd], if flags == NOTHING then Del else Mod, flags)];
      }
    }

    /**
     One report. The descriptor ends up exact, or else its write interest lingers; that takes a
     report in both directions, and no write interest before: a lingering interest is cleared by the next report.
     */
    method Dispatch(fd: nat, report: Mask, script: Script) returns (events: seq<Event>, lingers: bool)
      requires Inv(View(), Quiet) && fd < table.Length
      modifies this, table
      ensures Inv(View(), Quiet) && Handlers(View()) == Replay(old(Handlers(View())), events)
      ensures Lists(View()) == Placed(old(Lists(View())), events)
      ensures Plays(old(Handlers(View())), old(Lists(View())), events, script, {})
      ensures StaysExact(old(table[..]), table[..], fd) && (Exact(table[fd]) <==> !lingers)
      ensures lingers ==> report.rd && report.wr && !old(table[fd]).pflags.wr
      ensures forall e :: e in events && e.Fire? ==> e.fd == fd && Bit(report, e.dir)
      ensures Serves(old(Handlers(View())), events, fd, report)
    {
      hide Handlers, Replay, FdOk, Settled, Lingers, Exact, Serves, Played, Lists, Placed, Plays, BranchPlays;
      ghost var p, l := Handlers(View()), Lists(View());
      var was := table[fd].pflags;
      StepStarts(View(), fd);
      ghost var busy := Running(fd, was, false);
      var rs: seq<Event>, ws: seq<Event> := [], [];
      NothingPlays(p, l, script, {});
      if report.rd {
        rs, busy := Take(fd, Read, script(0), busy);
      }
      ContinuesIf(p, l, [], rs, fd, Read, script, {});
      assert [] + rs == rs;
      NothingPlays(Handlers(View()), Lists(View()), script, {});
      OpenIf(View(), fd);
      if table[fd].open && report.wr {
        ws, busy := Take(fd, Write, script(|rs|), busy);
      }
      ContinuesIf(p, l, rs, ws, fd, Write, script, {});
      TwoBranches(p, rs, ws, fd, report);
      events := rs + ws;
      SameLists(View(), fd, Read, was);
      SettledExactIff(View(), fd, busy);
      LingerNeeds(table[fd], was);
      lingers := Lingers(table[fd], was);
      Settle(fd, was);
    }

    /**
     comm_select, with the reports of the kernel. No interest is ever lost; and descriptors that
     were asked for exactly still are, unless their write interest lingers after this round.
     */
    method CommSelect(http: bool, reports: seq<(nat, Mask)>, script: Script) returns (events: seq<Event>, lingering: set<int>)
      requires Inv(View(), Quiet) && KernelReports(View(), http, reports)
      modifies this, table
      ensures Inv(View(), Quiet) && Handlers(View()) == Replay(old(Handlers(View())), events)
      ensures forall k :: 0 <= k < table.Length && old(Exact(table[k])) && k !in lingering ==> Exact(table[k])
      ensures forall k :: k in lingering ==> exists i :: 0 <= i < |reports| && reports[i] == (k, Mask(true, true))
      ensures ReportsServed(old(Handlers(View())), events, reports, |reports|) && Reported(events, reports, |reports|)
      ensures Plays(old(Handlers(View())), old(Lists(View())), events, script, {})
      ensures http ==> events == []
    {
      hide Handlers, Replay, FdOk, Exact, ReportsServed, Serves, Reported, Lists, Placed, Plays;
      ghost var p, l := Handlers(View()), Lists(View());
      events, lingering := [], {};
      NothingPlays(p, l, script, {});
      NothingToServe(p, reports);
      NothingReported(reports);
      if http {
        NoHttpReports(View(), reports);
      }
      for i := 0 to |reports|
        invariant Inv(View(), Quiet) && Handlers(View()) == Replay(p, events)
        invariant Lists(View()) == Placed(l, events) && Plays(p, l, events, script, {})
        invariant forall k :: 0 <= k < table.Length && old(Exact(table[k])) && k !in lingering ==> Exact(table[k])
        invariant forall k :: k in lingering ==> exists j :: 0 <= j < i && reports[j] == (k, Mask(true, true))
        invariant ReportsServed(p, events, reports, i) && Reported(events, reports, i)
        invariant i == 0 ==> events == []
      {
        var fd := reports[i].0;
        ghost var before := lingering;
        var more, lingers: bool;
        var done: nat := |events|;
        var rest := (k: nat) => script(done + k);
        more, lingers := Dispatch(fd, reports[i].1, rest);
        JoinPlays(p, l, events, more, script, rest, {});
        lingering := if lingers then lingering + {fd} else lingering - {fd};
        ReportServed(p, events, more, reports, i);
        ReportedMore(events, more, reports, i);
        events := events + more;
        assert lingers ==> reports[i] == (fd, Mask(true, true));
        forall k | k in lingering ensures exists j :: 0 <= j < i + 1 && reports[j] == (k, Mask(true, true)) {
          if k in before {
            var j :| 0 <= j < i && reports[j] == (k, Mask(true, true));
          }
        }
      }
    }
  }
}
