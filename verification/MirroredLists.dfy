/**
 Relations between users that are kept at both ends: ACCEPT lists, the senders a user has been
 warned about (server/s_accept.c) and DCCALLOW lists (server/s_dcc.c).
 */
module MirroredLists {
  import opened LinkedLists

  type Id = nat

  const MAXACCEPTED: nat := 20
  const MAXDCCALLOW: nat := 10

  // ------------------------------------------------------------------------------------
  // Lists
  // ------------------------------------------------------------------------------------

  /** The list without its first entry for `x`. */
  function WithoutFirst(s: seq<Id>, x: Id): seq<Id>
    decreases |s|
  {
    if s == [] then [] else if s[0] == x then s[1..] else [s[0]] + WithoutFirst(s[1..], x)
  }

  lemma {:induction false} OnlyOneToDelete(s: seq<Id>, x: Id)
    requires Distinct(s)
    ensures Distinct(WithoutFirst(s, x)) && WithoutFirst(s, x) == Without(s, x)
    decreases |s|
  {
    WithoutDistinct(s, x);
    if s != [] {
      OnlyOneToDelete(s[1..], x);
      WithoutStranger(s[1..], x);
    }
  }

  /** dlinkFind followed by dlinkDeleteNode, as in the loops of deny_client and del_dccallow */
  method DeleteFirst(list: seq<Id>, x: Id) returns (r: seq<Id>)
    ensures r == WithoutFirst(list, x)
  {
    r := list;
    var i := 0;
    while i < |list|
      invariant 0 <= i <= |list|
      invariant r == list && list[..i] + WithoutFirst(list[i..], x) == WithoutFirst(list, x)
    {
      assert list[i..][0] == list[i] && list[i..][1..] == list[i + 1..];
      if list[i] == x {
        return list[..i] + list[i + 1..];
      }
      ghost var rest := WithoutFirst(list[i + 1..], x);
      assert WithoutFirst(list[i..], x) == [list[i]] + rest;
      assert list[..i] + ([list[i]] + rest) == list[..i + 1] + rest;
      i := i + 1;
    }
  }

  /** The inner loops of remove_accept_references and remove_dcc_references */
  method DeleteAll(list: seq<Id>, x: Id) returns (r: seq<Id>)
    ensures r == Without(list, x)
  {
    r := [];
    var i := 0;
    while i < |list|
      invariant 0 <= i <= |list|
      invariant r + Without(list[i..], x) == Without(list, x)
    {
      assert list[i..][1..] == list[i + 1..];
      if list[i] != x {
        r := r + [list[i]];
      }
      i := i + 1;
    }
  }

  // ------------------------------------------------------------------------------------
  // A relation with its reverse
  // ------------------------------------------------------------------------------------

  type Table = map<Id, seq<Id>>

  datatype Rel = Rel(fwd: Table, rev: Table)

  const EMPTY := Rel(map[], map[])

  ghost predicate Tidy(t: Table, users: set<Id>) {
    t.Keys == users && forall x :: x in users ==> Distinct(t[x]) && forall y :: y in t[x] ==> y in users
  }

  /** Both tables say the same, mention users only, and mention nobody twice. */
  ghost predicate Mirror(r: Rel, users: set<Id>) {
    && Tidy(r.fwd, users) && Tidy(r.rev, users)
    && forall x, y :: x in users && y in users ==> (y in r.fwd[x] <==> x in r.rev[y])
  }

  function Added(t: Table, x: Id, y: Id): Table
    requires x in t
  {
    t[x := [y] + t[x]]
  }

  function Cut(t: Table, x: Id, y: Id): Table
    requires x in t
  {
    t[x := WithoutFirst(t[x], y)]
  }

  function Link(r: Rel, x: Id, y: Id): Rel
    requires x in r.fwd && y in r.rev
  {
    Rel(Added(r.fwd, x, y), Added(r.rev, y, x))
  }

  function Unlink(r: Rel, x: Id, y: Id): Rel
    requires x in r.fwd && y in r.rev
  {
    Rel(Cut(r.fwd, x, y), Cut(r.rev, y, x))
  }

  /** A table in which nobody mentions `x`, and `x` mentions nobody. */
  function Purged(t: Table, x: Id): Table {
    map z | z in t :: if z == x then [] else Without(t[z], x)
  }

  function PurgedRel(r: Rel, x: Id): Rel {
    Rel(Purged(r.fwd, x), Purged(r.rev, x))
  }

  lemma TidyAdded(t: Table, users: set<Id>, x: Id, y: Id)
    requires Tidy(t, users) && x in users && y in users && y !in t[x]
    ensures Tidy(Added(t, x, y), users)
  {
    var s := t[x];
    forall j | 0 <= j < |s| ensures s[j] != y {
      assert s[j] in s;
    }
  }

  lemma LinkKeeps(r: Rel, users: set<Id>, x: Id, y: Id)
    requires Mirror(r, users) && x in users && y in users && y !in r.fwd[x]
    ensures Mirror(Link(r, x, y), users)
  {
    TidyAdded(r.fwd, users, x, y);
    TidyAdded(r.rev, users, y, x);
  }

  lemma TidyCut(t: Table, users: set<Id>, x: Id, y: Id)
    requires Tidy(t, users) && x in users
    ensures Tidy(Cut(t, x, y), users)
    ensures forall z, u :: z in users ==> (u in Cut(t, x, y)[z] <==> u in t[z] && !(z == x && u == y))
  {
    OnlyOneToDelete(t[x], y);
    WithoutMembers(t[x], y);
  }

  lemma UnlinkKeeps(r: Rel, users: set<Id>, x: Id, y: Id)
    requires Mirror(r, users) && x in users && y in users
    ensures Mirror(Unlink(r, x, y), users) && y !in Unlink(r, x, y).fwd[x]
  {
    TidyCut(r.fwd, users, x, y);
    TidyCut(r.rev, users, y, x);
  }

  lemma TidyPurged(t: Table, users: set<Id>, x: Id)
    requires Tidy(t, users)
    ensures Tidy(Purged(t, x) - {x}, users - {x}) && Purged(t, x).Keys == users
    ensures forall z, u :: z in users ==> (u in Purged(t, x)[z] <==> u in t[z] && z != x && u != x)
  {
    forall z | z in users ensures Distinct(Without(t[z], x)) && forall u :: u in Without(t[z], x) <==> u in t[z] && u != x {
      OnlyOneToDelete(t[z], x);
      WithoutMembers(t[z], x);
    }
  }

  /** Once the references to `x` are removed, no list of any user mentions it. */
  lemma PurgeKeeps(r: Rel, users: set<Id>, x: Id)
    requires Mirror(r, users)
    ensures var p := PurgedRel(r, x);
            && Mirror(Rel(p.fwd - {x}, p.rev - {x}), users - {x})
            && forall z :: z in users ==> x !in p.fwd[z] && x !in p.rev[z]
  {
    TidyPurged(r.fwd, users, x);
    TidyPurged(r.rev, users, x);
  }

  /** The table in which the users in `ys` no longer mention `x`. */
  function Severed(t: Table, ys: seq<Id>, x: Id): Table {
    map z | z in t :: if z in ys then Without(t[z], x) else t[z]
  }

  lemma SeveredNothing(t: Table, x: Id)
    ensures Severed(t, [], x) == t
  {
  }

  lemma SeverStep(t: Table, ys: seq<Id>, x: Id, y: Id)
    requires y in t
    ensures var s := Severed(t, ys, x); y in s && Severed(t, ys + [y], x) == s[y := Without(s[y], x)]
  {
    hide Without;
    WithoutMembers(t[y], x);
    WithoutStranger(Without(t[y], x), x);
  }

  /** One of the outer loops: every user on the list `ys` of `x` forgets `x`. */
  method Sever(ys: seq<Id>, t: Table, x: Id) returns (t': Table)
    requires forall y :: y in ys ==> y in t
    ensures t' == Severed(t, ys, x)
  {
    hide Severed, Without;
    t' := t;
    var i := 0;
    SeveredNothing(t, x);
    while i < |ys|
      invariant 0 <= i <= |ys|
      invariant t' == Severed(t, ys[..i], x)
    {
      var y := ys[i];
      SeverStep(t, ys[..i], x, y);
      assert ys[..i + 1] == ys[..i] + [y];
      var list := DeleteAll(t'[y], x);
      t' := t'[y := list];
      i := i + 1;
    }
    assert ys[..i] == ys;
  }

  /** remove_dcc_references, or one half of remove_accept_references */
  method RemoveReferences(r: Rel, x: Id, ghost users: set<Id>) returns (r': Rel)
    requires Mirror(r, users) && x in users
    ensures r' == PurgedRel(r, x)
  {
    hide Severed, Purged, Without;
    SeverReverse(r, users, x);
    var rev := Sever(r.fwd[x], r.rev, x);
    var fwd := r.fwd[x := []];
    fwd := Sever(rev[x], fwd, x);
    rev := rev[x := []];
    r' := Rel(fwd, rev);
  }

  /** After the first loop nobody is listed as accepting `x` twice over; the second loop completes the purge. */
  lemma SeverReverse(r: Rel, users: set<Id>, x: Id)
    requires Mirror(r, users) && x in users
    ensures var rev := Severed(r.rev, r.fwd[x], x);
            && x in rev && (forall y :: y in rev[x] ==> y in users)
            && rev[x := []] == Purged(r.rev, x)
            && Severed(r.fwd[x := []], rev[x], x) == Purged(r.fwd, x)
  {
    hide Without, Severed, Purged;
    var rev := Severed(r.rev, r.fwd[x], x);
    SeverFirst(r, users, x);
    SeverSecond(r, users, x, rev[x]);
  }

  lemma SeverFirst(r: Rel, users: set<Id>, x: Id)
    requires Mirror(r, users) && x in users
    ensures var rev := Severed(r.rev, r.fwd[x], x);
            && x in rev && (forall y :: y in rev[x] <==> y in r.rev[x] && y != x) && (forall y :: y in rev[x] ==> y in users)
            && rev[x := []] == Purged(r.rev, x)
  {
    hide Without;
    var rev := Severed(r.rev, r.fwd[x], x);
    WithoutMembers(r.rev[x], x);
    WithoutStranger(r.rev[x], x);
    forall z | z in users ensures rev[z] == Without(r.rev[z], x) {
      WithoutStranger(r.rev[z], x);
    }
  }

  lemma SeverSecond(r: Rel, users: set<Id>, x: Id, ys: seq<Id>)
    requires Mirror(r, users) && x in users && forall y :: y in ys <==> y in r.rev[x] && y != x
    ensures Severed(r.fwd[x := []], ys, x) == Purged(r.fwd, x)
  {
    hide Without;
    var fwd := Severed(r.fwd[x := []], ys, x);
    forall z | z in users ensures fwd[z] == Purged(r.fwd, x)[z] {
      WithoutStranger(r.fwd[z], x);
    }
  }

  // ------------------------------------------------------------------------------------
  // Users and what they do
  // ------------------------------------------------------------------------------------

  /** MyClient, user mode +P, and IsPrivileged. */
  datatype User = User(local: bool, denies: bool, privileged: bool)

  /** `notices` are the warnings sent, as pairs of sender and recipient; `used` are all ids ever given out. */
  datatype World = World(users: map<Id, User>, accept: Rel, informed: Rel, dcc: Rel, notices: seq<(Id, Id)>, used: set<Id>)

  ghost predicate Bounded(t: Table, max: nat) {
    forall x :: x in t ==> |t[x]| < max
  }

  /** A warning is remembered exactly as long as both users are there. */
  ghost predicate NoticeInv(users: set<Id>, informed: Table, notices: seq<(Id, Id)>, used: set<Id>) {
    && Distinct(notices) && users <= used && users <= informed.Keys
    && (forall n :: n in notices ==> n.0 in used && n.1 in used)
    && (forall from, to :: from in users && to in users ==> ((from, to) in notices <==> from in informed[to]))
  }

  ghost predicate Inv(w: World) {
    && Mirror(w.accept, w.users.Keys) && Mirror(w.informed, w.users.Keys) && Mirror(w.dcc, w.users.Keys)
    && Bounded(w.accept.fwd, MAXACCEPTED) && Bounded(w.dcc.fwd, MAXDCCALLOW)
    && NoticeInv(w.users.Keys, w.informed.fwd, w.notices, w.used)
  }

  /** accept_client and add_dccallow on one relation: who is listed already, or too many, is not added. */
  function Allow(r: Rel, users: map<Id, User>, x: Id, y: Id, max: nat): Rel {
    if x in users && y in users && x in r.fwd && y in r.rev && y !in r.fwd[x] && |r.fwd[x]| + 1 < max
    then Link(r, x, y) else r
  }

  /** deny_client and del_dccallow */
  function Forbid(r: Rel, x: Id, y: Id): Rel {
    if x in r.fwd && y in r.rev then Unlink(r, x, y) else r
  }

  /** check_accept lets the message pass. */
  predicate Passes(w: World, from: Id, to: Id)
    requires from in w.users && to in w.users && to in w.accept.fwd
  {
    !w.users[to].local || !w.users[to].denies || w.users[from].privileged || from in w.accept.fwd[to]
  }

  /** What check_accept leaves behind. */
  function Checked(w: World, from: Id, to: Id): World
    requires from in w.users && to in w.users && to in w.accept.fwd && to in w.informed.fwd && from in w.informed.rev
  {
    if Passes(w, from, to) || from in w.informed.fwd[to] then w
    else w.(informed := Link(w.informed, to, from), notices := w.notices + [(from, to)])
  }

  function Gone(r: Rel, x: Id): Rel {
    Rel(Purged(r.fwd, x) - {x}, Purged(r.rev, x) - {x})
  }

  /** The user part of exit_one_client. */
  function Exited(w: World, x: Id): World {
    w.(users := w.users - {x}, accept := Gone(w.accept, x), informed := Gone(w.informed, x), dcc := Gone(w.dcc, x))
  }

  function Fresh(r: Rel, x: Id): Rel {
    Rel(r.fwd[x := []], r.rev[x := []])
  }

  /** A user registers. */
  function Entered(w: World, x: Id, u: User): World {
    w.(users := w.users[x := u], accept := Fresh(w.accept, x), informed := Fresh(w.informed, x),
       dcc := Fresh(w.dcc, x), used := w.used + {x})
  }

  lemma AllowKeeps(r: Rel, users: map<Id, User>, x: Id, y: Id, max: nat)
    requires Mirror(r, users.Keys) && Bounded(r.fwd, max)
    ensures Mirror(Allow(r, users, x, y, max), users.Keys) && Bounded(Allow(r, users, x, y, max).fwd, max)
  {
    if Allow(r, users, x, y, max) != r {
      LinkKeeps(r, users.Keys, x, y);
    }
  }

  lemma ForbidKeeps(r: Rel, users: set<Id>, x: Id, y: Id, max: nat)
    requires Mirror(r, users) && Bounded(r.fwd, max)
    ensures Mirror(Forbid(r, x, y), users) && Bounded(Forbid(r, x, y).fwd, max)
  {
    if x in users && y in users {
      UnlinkKeeps(r, users, x, y);
      OnlyOneToDelete(r.fwd[x], y);
      WithoutStranger(r.fwd[x], y);
    }
  }

  lemma GoneKeeps(r: Rel, users: set<Id>, x: Id, max: nat)
    requires Mirror(r, users)
    ensures Mirror(Gone(r, x), users - {x})
    ensures Bounded(r.fwd, max) ==> Bounded(Gone(r, x).fwd, max)
    ensures forall z, u :: z in users && z != x ==> (u in Gone(r, x).fwd[z] <==> u in r.fwd[z] && u != x)
  {
    PurgeKeeps(r, users, x);
    TidyPurged(r.fwd, users, x);
    forall z | z in users ensures |Without(r.fwd[z], x)| <= |r.fwd[z]| {
      WithoutStranger(r.fwd[z], x);
    }
  }

  lemma FreshKeeps(r: Rel, users: set<Id>, x: Id, max: nat)
    requires Mirror(r, users) && x !in users
    ensures Mirror(Fresh(r, x), users + {x}) && (max > 0 && Bounded(r.fwd, max) ==> Bounded(Fresh(r, x).fwd, max))
  {
  }

  lemma NoticeMore(users: set<Id>, informed: Table, notices: seq<(Id, Id)>, used: set<Id>, from: Id, to: Id)
    requires NoticeInv(users, informed, notices, used) && from in users && to in users && from !in informed[to]
    ensures NoticeInv(users, Added(informed, to, from), notices + [(from, to)], used)
  {
    var more := notices + [(from, to)];
    assert (from, to) !in notices;
    assert forall n :: n in more <==> n in notices || n == (from, to);
    forall f, t | f in users && t in users ensures (f, t) in more <==> f in Added(informed, to, from)[t] {
    }
  }

  /** A blocked message warns the recipient once: the pair is new among the notices. */
  lemma CheckedKeeps(w: World, from: Id, to: Id)
    requires Inv(w) && from in w.users && to in w.users
    ensures to in w.accept.fwd && to in w.informed.fwd && from in w.informed.rev && Inv(Checked(w, from, to))
  {
    hide Bounded, Mirror, NoticeInv;
    MirrorKeys(w.informed, w.users.Keys);
    MirrorKeys(w.accept, w.users.Keys);
    if from !in w.informed.fwd[to] {
      LinkKeeps(w.informed, w.users.Keys, to, from);
      NoticeMore(w.users.Keys, w.informed.fwd, w.notices, w.used, from, to);
    }
  }

  lemma ExitedKeeps(w: World, x: Id)
    requires Inv(w)
    ensures Inv(Exited(w, x))
  {
    hide Bounded, Mirror, Gone;
    GoneKeeps(w.accept, w.users.Keys, x, MAXACCEPTED);
    GoneKeeps(w.informed, w.users.Keys, x, 0);
    GoneKeeps(w.dcc, w.users.Keys, x, MAXDCCALLOW);
    MirrorKeys(Gone(w.informed, x), w.users.Keys - {x});
    assert Exited(w, x).users.Keys == w.users.Keys - {x};
  }

  /** No list mentions `x`. */
  ghost predicate Unmentioned(r: Rel, x: Id) {
    (forall z :: z in r.fwd ==> x !in r.fwd[z]) && forall z :: z in r.rev ==> x !in r.rev[z]
  }

  lemma Forgotten(r: Rel, users: set<Id>, x: Id)
    requires Mirror(r, users) && x !in users
    ensures Unmentioned(r, x)
  {
  }

  lemma MirrorKeys(r: Rel, users: set<Id>)
    requires Mirror(r, users)
    ensures r.fwd.Keys == users == r.rev.Keys
  {
  }

  lemma NoticeFresh(users: set<Id>, informed: Table, notices: seq<(Id, Id)>, used: set<Id>, x: Id)
    requires NoticeInv(users, informed, notices, used) && x !in used && Tidy(informed, users)
    ensures NoticeInv(users + {x}, informed[x := []], notices, used + {x})
  {
    forall f, t | f in users + {x} && t in users + {x} ensures (f, t) in notices <==> f in informed[x := []][t] {
      if f == x || t == x {
        assert (f, t) !in notices;
      }
    }
  }

  lemma EnteredKeeps(w: World, x: Id, u: User)
    requires Inv(w) && x !in w.used
    ensures Inv(Entered(w, x, u))
  {
    hide Bounded, Tidy;
    FreshKeeps(w.accept, w.users.Keys, x, MAXACCEPTED);
    FreshKeeps(w.informed, w.users.Keys, x, 0);
    FreshKeeps(w.dcc, w.users.Keys, x, MAXDCCALLOW);
    NoticeFresh(w.users.Keys, w.informed.fwd, w.notices, w.used, x);
    assert Entered(w, x, u).users.Keys == w.users.Keys + {x};
  }

  // ------------------------------------------------------------------------------------
  // What a step does
  // ------------------------------------------------------------------------------------

  datatype Step =
    | Enter(x: Id, user: User) | SetMode(x: Id, user: User) | Exit(x: Id)
    | Accept(x: Id, y: Id) | Deny(x: Id, y: Id) | Message(x: Id, y: Id)
    | AddDcc(x: Id, y: Id) | DelDcc(x: Id, y: Id)

  /** If both users are there, `x` does not list `y` and has room, both ends gain an entry; otherwise nothing changes. */
  ghost predicate Adds(r: Rel, r': Rel, users: set<Id>, x: Id, y: Id, max: nat) {
    if x in users && y in users && x in r.fwd && y in r.rev && y !in r.fwd[x] && |r.fwd[x]| + 1 < max
    then r'.fwd == r.fwd[x := [y] + r.fwd[x]] && r'.rev == r.rev[y := [x] + r.rev[y]]
    else r' == r
  }

  ghost predicate Listed(r: Rel, x: Id, y: Id) {
    x in r.fwd && y in r.rev && y in r.fwd[x] && x in r.rev[y]
  }

  ghost predicate KeysAre(r: Rel, users: set<Id>) {
    r.fwd.Keys == r.rev.Keys == users
  }

  /** The pair is gone, at both ends, and no other. */
  ghost predicate Drops(r: Rel, r': Rel, users: set<Id>, x: Id, y: Id) {
    && KeysAre(r, users) && r'.fwd.Keys == r'.rev.Keys == users
    && (forall z, u :: z in users ==> (u in r'.fwd[z] <==> u in r.fwd[z] && !(z == x && u == y)))
    && (forall z, u :: z in users ==> (u in r'.rev[z] <==> u in r.rev[z] && !(z == y && u == x)))
  }

  /** All pairs with `x` are gone, at both ends, and no others. */
  ghost predicate Leaves(r: Rel, r': Rel, users: set<Id>, x: Id) {
    && KeysAre(r, users) && r'.fwd.Keys == r'.rev.Keys == users - {x}
    && (forall z, u :: z in users && z != x ==> (u in r'.fwd[z] <==> u in r.fwd[z] && u != x))
    && (forall z, u :: z in users && z != x ==> (u in r'.rev[z] <==> u in r.rev[z] && u != x))
  }

  ghost predicate Joins(r: Rel, r': Rel, x: Id) {
    r'.fwd == r.fwd[x := []] && r'.rev == r.rev[x := []]
  }

  /** Only a local recipient with +P blocks, and only senders who are neither privileged nor on its accept list. */
  ghost predicate Blocked(w: World, from: Id, to: Id)
    requires from in w.users && to in w.users && to in w.accept.fwd
  {
    w.users[to].local && w.users[to].denies && !w.users[from].privileged && from !in w.accept.fwd[to]
  }

  /** Each step does this, and nothing else. */
  ghost predicate Follows(w: World, step: Step, w': World) {
    var there := w.users.Keys;
    && KeysAre(w.accept, there) && KeysAre(w.informed, there) && KeysAre(w.dcc, there)
    && match step {
      case Enter(x, u) =>
        if x in w.used then w' == w
        else
          && w'.users == w.users[x := u] && w'.used == w.used + {x} && w'.notices == w.notices
          && Joins(w.accept, w'.accept, x) && Joins(w.informed, w'.informed, x) && Joins(w.dcc, w'.dcc, x)
      case SetMode(x, u) => w' == if x in there then w.(users := w.users[x := u]) else w
      case Exit(x) =>
        if x !in there then w' == w
        else
          && w'.users == w.users - {x} && w'.used == w.used && w'.notices == w.notices
          && Leaves(w.accept, w'.accept, there, x) && Leaves(w.informed, w'.informed, there, x) && Leaves(w.dcc, w'.dcc, there, x)
      case Accept(x, y) => w' == w.(accept := w'.accept) && Adds(w.accept, w'.accept, there, x, y, 20)
      case AddDcc(x, y) => w' == w.(dcc := w'.dcc) && Adds(w.dcc, w'.dcc, there, x, y, 10)
      case Deny(x, y) =>
        w' == w.(accept := w'.accept) && if x in there && y in there then Drops(w.accept, w'.accept, there, x, y) else w' == w
      case DelDcc(x, y) =>
        w' == w.(dcc := w'.dcc) && if x in there && y in there then Drops(w.dcc, w'.dcc, there, x, y) else w' == w
      case Message(from, to) =>
        if from in there && to in there && Blocked(w, from, to) && from !in w.informed.fwd[to] then
          && w' == w.(informed := w'.informed, notices := w.notices + [(from, to)])
          && w'.informed.fwd == w.informed.fwd[to := [from] + w.informed.fwd[to]]
          && w'.informed.rev == w.informed.rev[from := [to] + w.informed.rev[from]]
        else w' == w
    }
  }

  lemma WorldKeys(w: World)
    requires Inv(w)
    ensures KeysAre(w.accept, w.users.Keys) && KeysAre(w.informed, w.users.Keys) && KeysAre(w.dcc, w.users.Keys)
  {
    hide Bounded, NoticeInv;
  }

  lemma AllowAdds(r: Rel, users: map<Id, User>, x: Id, y: Id, max: nat)
    requires Mirror(r, users.Keys)
    ensures Adds(r, Allow(r, users, x, y, max), users.Keys, x, y, max)
    ensures x in users && y in users && |r.fwd[x]| + 1 < max ==> Listed(Allow(r, users, x, y, max), x, y)
  {
  }

  lemma DropsIt(r: Rel, r': Rel, users: set<Id>, x: Id, y: Id)
    requires Drops(r, r', users, x, y) && x in users
    ensures !Listed(r', x, y)
  {
  }

  lemma ForbidDrops(r: Rel, users: set<Id>, x: Id, y: Id)
    requires Mirror(r, users) && x in users && y in users
    ensures Drops(r, Forbid(r, x, y), users, x, y)
  {
    TidyCut(r.fwd, users, x, y);
    TidyCut(r.rev, users, y, x);
  }

  lemma TableLeaves(t: Table, users: set<Id>, x: Id)
    requires Tidy(t, users)
    ensures (Purged(t, x) - {x}).Keys == users - {x}
    ensures forall z, u :: z in users && z != x ==> (u in (Purged(t, x) - {x})[z] <==> u in t[z] && u != x)
  {
    hide Without, Tidy;
    TidyPurged(t, users, x);
  }

  lemma GoneLeaves(r: Rel, users: set<Id>, x: Id)
    requires Mirror(r, users)
    ensures Leaves(r, Gone(r, x), users, x)
  {
    hide Purged, Tidy;
    MirrorKeys(r, users);
    TableLeaves(r.fwd, users, x);
    TableLeaves(r.rev, users, x);
  }

  // ------------------------------------------------------------------------------------
  // The code
  // ------------------------------------------------------------------------------------

  class Directory {
    var users: map<Id, User>
    var accept: Rel
    var informed: Rel
    var dcc: Rel
    var notices: seq<(Id, Id)>
    var used: set<Id>

    ghost function W(): World
      reads this
    {
      World(users, accept, informed, dcc, notices, used)
    }

    constructor ()
      ensures Inv(W()) && users == map[]
    {
      users, accept, informed, dcc, notices, used := map[], EMPTY, EMPTY, EMPTY, [], {};
    }

    /** accept_client on one pair of lists; add_dccallow does the same on the other */
    method AddTo(r: Rel, x: Id, y: Id, max: nat) returns (r': Rel)
      requires Mirror(r, users.Keys)
      ensures r' == Allow(r, users, x, y, max)
    {
      r' := r;
      if y !in users || x !in users {
        return;
      }
      var cnt := |r.fwd[x]|;
      if y in r.fwd[x] {
        return;
      }
      cnt := cnt + 1;
      if cnt >= max {
        return;
      }
      r' := Rel(r.fwd[x := [y] + r.fwd[x]], r.rev[y := [x] + r.rev[y]]);
    }

    /** deny_client on one pair of lists; del_dccallow does the same on the other */
    method DeleteFrom(r: Rel, x: Id, y: Id) returns (r': Rel)
      requires x in r.fwd && y in r.rev
      ensures r' == Forbid(r, x, y)
    {
      var list := DeleteFirst(r.fwd[x], y);
      var back := DeleteFirst(r.rev[y], x);
      r' := Rel(r.fwd[x := list], r.rev[y := back]);
    }

    method AcceptClient(x: Id, y: Id)
      requires Inv(W())
      modifies this
      ensures Inv(W()) && Follows(old(W()), Accept(x, y), W())
      ensures x in users && y in users && x in old(accept).fwd && |old(accept).fwd[x]| + 1 < 20 ==> Listed(accept, x, y)
    {
      hide Mirror, Bounded, NoticeInv, Allow, Adds, Listed;
      WorldKeys(W());
      AllowAdds(accept, users, x, y, MAXACCEPTED);
      AllowKeeps(accept, users, x, y, MAXACCEPTED);
      accept := AddTo(accept, x, y, MAXACCEPTED);
    }

    method DenyClient(x: Id, y: Id)
      requires Inv(W()) && x in users && y in users
      modifies this
      ensures Inv(W()) && Follows(old(W()), Deny(x, y), W()) && !Listed(accept, x, y)
    {
      hide Bounded, NoticeInv, Mirror, Forbid, Drops, Listed, WithoutFirst;
      WorldKeys(W());
      ForbidDrops(accept, users.Keys, x, y);
      ForbidKeeps(accept, users.Keys, x, y, MAXACCEPTED);
      DropsIt(accept, Forbid(accept, x, y), users.Keys, x, y);
      accept := DeleteFrom(accept, x, y);
    }

    method AddDccallow(x: Id, y: Id)
      requires Inv(W())
      modifies this
      ensures Inv(W()) && Follows(old(W()), AddDcc(x, y), W())
      ensures x in users && y in users && x in old(dcc).fwd && |old(dcc).fwd[x]| + 1 < 10 ==> Listed(dcc, x, y)
    {
      hide Mirror, Bounded, NoticeInv, Allow, Adds, Listed;
      WorldKeys(W());
      AllowAdds(dcc, users, x, y, MAXDCCALLOW);
      AllowKeeps(dcc, users, x, y, MAXDCCALLOW);
      dcc := AddTo(dcc, x, y, MAXDCCALLOW);
    }

    method DelDccallow(x: Id, y: Id)
      requires Inv(W()) && x in users && y in users
      modifies this
      ensures Inv(W()) && Follows(old(W()), DelDcc(x, y), W()) && !Listed(dcc, x, y)
    {
      hide Bounded, NoticeInv, Mirror, Forbid, Drops, Listed, WithoutFirst;
      WorldKeys(W());
      ForbidDrops(dcc, users.Keys, x, y);
      ForbidKeeps(dcc, users.Keys, x, y, MAXDCCALLOW);
      DropsIt(dcc, Forbid(dcc, x, y), users.Keys, x, y);
      dcc := DeleteFrom(dcc, x, y);
    }

    /** The search loops of check_accept and allow_dcc */
    method Find(list: seq<Id>, x: Id) returns (found: bool)
      ensures found <==> x in list
    {
      for i := 0 to |list|
        invariant x !in list[..i]
      {
        if list[i] == x {
          return true;
        }
      }
      return false;
    }

    /** check_accept */
    method CheckAccept(from: Id, to: Id) returns (passes: bool)
      requires Inv(W()) && from in users && to in users
      modifies this
      ensures Inv(W()) && Follows(old(W()), Message(from, to), W())
      ensures passes == old(!users[to].local || !users[to].denies || users[from].privileged || (to in accept.fwd && from in accept.fwd[to]))
    {
      hide Bounded, NoticeInv, Mirror;
      WorldKeys(W());
      CheckedKeeps(W(), from, to);
      if !users[to].local || !users[to].denies || users[from].privileged {
        return true;
      }
      var found := Find(accept.fwd[to], from);
      if found {
        return true;
      }
      found := Find(informed.fwd[to], from);
      if found {
        return false;
      }
      notices := notices + [(from, to)];
      informed := Rel(informed.fwd[to := [from] + informed.fwd[to]], informed.rev[from := [to] + informed.rev[from]]);
      return false;
    }

    /** allow_dcc */
    method AllowDcc(to: Id, from: Id) returns (allowed: bool)
      requires Inv(W()) && to in users
      ensures allowed <==> from in dcc.fwd[to]
      ensures from in users ==> (allowed <==> to in dcc.rev[from])
    {
      allowed := Find(dcc.fwd[to], from);
    }

    /** remove_dcc_references, remove_accept_references and free_user, as exit_one_client calls them */
    method ExitUser(x: Id)
      requires Inv(W()) && x in users
      modifies this
      ensures Inv(W()) && Follows(old(W()), Exit(x), W())
      ensures Unmentioned(accept, x) && Unmentioned(informed, x) && Unmentioned(dcc, x)
    {
      hide Mirror, Bounded, NoticeInv, Purged, Unmentioned, Leaves;
      WorldKeys(W());
      GoneLeaves(accept, users.Keys, x);
      GoneLeaves(informed, users.Keys, x);
      GoneLeaves(dcc, users.Keys, x);
      ExitedKeeps(W(), x);
      ghost var left := users.Keys - {x};
      Forgotten(Gone(accept, x), left, x);
      Forgotten(Gone(informed, x), left, x);
      Forgotten(Gone(dcc, x), left, x);
      var r := RemoveReferences(dcc, x, users.Keys);
      dcc := Rel(r.fwd - {x}, r.rev - {x});
      r := RemoveReferences(accept, x, users.Keys);
      accept := Rel(r.fwd - {x}, r.rev - {x});
      r := RemoveReferences(informed, x, users.Keys);
      informed := Rel(r.fwd - {x}, r.rev - {x});
      users := users - {x};
    }

    method EnterUser(x: Id, u: User)
      requires Inv(W()) && x !in used
      modifies this
      ensures Inv(W()) && Follows(old(W()), Enter(x, u), W())
    {
      hide Mirror, Bounded, NoticeInv;
      WorldKeys(W());
      EnteredKeeps(W(), x, u);
      users, used := users[x := u], used + {x};
      accept := Rel(accept.fwd[x := []], accept.rev[x := []]);
      informed := Rel(informed.fwd[x := []], informed.rev[x := []]);
      dcc := Rel(dcc.fwd[x := []], dcc.rev[x := []]);
    }

    method Do(step: Step)
      requires Inv(W())
      modifies this
      ensures Inv(W()) && Follows(old(W()), step, W()) && old(notices) <= notices
    {
      hide Mirror, Bounded, NoticeInv, Gone, Fresh, Link, Allow, Forbid, Adds, Drops, Leaves, Joins, Unmentioned;
      WorldKeys(W());
      match step {
        case Enter(x, u) => if x !in used { EnterUser(x, u); }
        case SetMode(x, u) =>
          if x in users {
            assert users[x := u].Keys == users.Keys;
            users := users[x := u];
          }
        case Exit(x) => if x in users { ExitUser(x); }
        case Accept(x, y) => AcceptClient(x, y);
        case Deny(x, y) => if x in users && y in users { DenyClient(x, y); }
        case Message(x, y) => if x in users && y in users { var passes := CheckAccept(x, y); }
        case AddDcc(x, y) => AddDccallow(x, y);
        case DelDcc(x, y) => if x in users && y in users { DelDccallow(x, y); }
      }
    }

    /**
     Any run: both ends of every relation agree, nobody is mentioned who is not there, the lists
     stay below their limits, and no pair of users is warned about twice. `worlds` are the states
     before, between and after the steps.
     */
    method Run(steps: seq<Step>) returns (ghost worlds: seq<World>)
      requires Inv(W())
      modifies this
      ensures Inv(W()) && old(notices) <= notices && Distinct(notices)
      ensures |worlds| == |steps| + 1 && worlds[0] == old(W()) && worlds[|steps|] == W()
      ensures forall i :: 0 <= i < |steps| ==> Inv(worlds[i]) && Follows(worlds[i], steps[i], worlds[i + 1])
    {
      hide Mirror, Bounded, Follows;
      worlds := [W()];
      for i := 0 to |steps|
        invariant Inv(W()) && old(notices) <= notices
        invariant |worlds| == i + 1 && worlds[0] == old(W()) && worlds[i] == W()
        invariant forall k :: 0 <= k < i ==> Inv(worlds[k]) && Follows(worlds[k], steps[k], worlds[k + 1])
      {
        Do(steps[i]);
        worlds := worlds + [W()];
      }
    }
  }
}
