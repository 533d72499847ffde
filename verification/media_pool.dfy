/** The media port pool (sip/mediapool.go) and the sessions that hold its ports: who owns a port, in
    every run. */
module MediaPorts {
  import opened SipTypes

  const MEDIA_START_PORT := 7000
  const MEDIA_END_PORT := 57000

  // ----- one reservation, one release

  /** What a reservation may return: a free port that can be bound, or nothing when there is none. */
  predicate MayReserve(alloc: map<int, bool>, binds: set<int>, conn: Option<int>) {
    match conn
    case Some(p) => p in alloc && !alloc[p] && p in binds
    case None => forall p :: p in alloc && p in binds ==> alloc[p]
  }

  function Mark(alloc: map<int, bool>, conn: Option<int>, used: bool): map<int, bool> {
    if conn.Some? && conn.value in alloc then alloc[conn.value := used] else alloc
  }

  lemma HasMember(s: set<int>)
    ensures s == {} || exists p :: p in s
  {
    if forall p :: p !in s {
      assert s == {};
    }
  }

  class MediaPool {
    var alloc: map<int, bool>

    /** NewMediaPortPool. */
    constructor ()
      ensures forall p :: p in alloc <==> MEDIA_START_PORT <= p <= MEDIA_END_PORT
      ensures forall p :: p in alloc ==> !alloc[p]
    {
      alloc := map[];
      new;
      var port := MEDIA_START_PORT;
      while port <= MEDIA_END_PORT
        invariant MEDIA_START_PORT <= port <= MEDIA_END_PORT + 1
        invariant forall p :: p in alloc <==> MEDIA_START_PORT <= p < port
        invariant forall p :: p in alloc ==> !alloc[p]
      {
        alloc := alloc[port := false];
        port := port + 1;
      }
    }

    /** Goes through the ports in no particular order; `binds` are those that can be bound. */
    method ReserveSocket(binds: set<int>) returns (conn: Option<int>)
      modifies this
      ensures MayReserve(old(alloc), binds, conn) && alloc == Mark(old(alloc), conn, true)
    {
      var rest := alloc.Keys;
      while rest != {}
        invariant alloc == old(alloc) && forall p :: p in rest ==> p in alloc
        invariant forall p :: p in alloc && p !in rest && p in binds ==> alloc[p]
        decreases rest
      {
        HasMember(rest);
        var port :| port in rest;
        rest := rest - {port};
        if !alloc[port] {
          if port !in binds {
            continue;
          }
          alloc := alloc[port := true];
          return Some(port);
        }
      }
      return None;
    }

    method ReleaseSocket(conn: Option<int>) returns (released: bool)
      modifies this
      ensures alloc == Mark(old(alloc), conn, false)
      ensures released <==> conn.None? || (conn.value in old(alloc) && old(alloc)[conn.value])
    {
      if conn.None? {
        return true;
      }
      var port := conn.value;
      if port in alloc && alloc[port] {
        alloc := alloc[port := false];
        return true;
      }
      return false;
    }
  }

  // ----- the sessions that hold ports

  datatype Holder = Holder(port: Option<int>, disposed: bool)

  datatype Use = Acquired(p: int) | Released(p: int)

  /** The pool's map, the sessions, and the log of what was acquired and released. */
  datatype System = System(alloc: map<int, bool>, holders: seq<Holder>, log: seq<Use>)

  /** A session comes; a session that was just routed reserves a port, and gets what the pool gives; a
      session is dropped. */
  datatype Event = Comes | Routed(i: nat, got: Option<int>) | Dropped(i: nat)

  /** A session is routed once. */
  predicate CanBeRouted(s: System, i: nat) {
    i < |s.holders| && !s.holders[i].disposed && s.holders[i].port.None?
  }

  /** What can happen when the ports in `binds` can be bound. */
  predicate Possible(s: System, binds: set<int>, e: Event) {
    e.Routed? ==> CanBeRouted(s, e.i) && MayReserve(s.alloc, binds, e.got)
  }

  /** DropMe: only the first time does it do anything. */
  function DropHolder(s: System, i: nat): System {
    if i < |s.holders| && !s.holders[i].disposed then
      var h := s.holders[i];
      System(Mark(s.alloc, h.port, false), s.holders[i := h.(disposed := true)],
             if h.port.Some? then s.log + [Released(h.port.value)] else s.log)
    else s
  }

  function Next(s: System, e: Event): System {
    match e
    case Comes => s.(holders := s.holders + [Holder(None, false)])
    case Routed(i, got) =>
      if !CanBeRouted(s, i) then s
      else System(Mark(s.alloc, got, true), s.holders[i := Holder(got, false)],
                  if got.Some? then s.log + [Acquired(got.value)] else s.log)
    case Dropped(i) => DropHolder(s, i)
  }

  predicate Holds(s: System, i: nat, p: int) {
    i < |s.holders| && !s.holders[i].disposed && s.holders[i].port == Some(p)
  }

  /** The ports marked used are exactly those held by undisposed sessions, each by one of them. */
  ghost predicate Owned(s: System) {
    && (forall p :: p in s.alloc && s.alloc[p] ==> exists i: nat :: Holds(s, i, p))
    && (forall i: nat, p :: Holds(s, i, p) ==> p in s.alloc && s.alloc[p])
    && (forall i: nat, j: nat, p :: Holds(s, i, p) && Holds(s, j, p) ==> i == j)
  }

  function Balance(log: seq<Use>, p: int): int
    decreases |log|
  {
    if log == [] then 0
    else
      Balance(log[..|log| - 1], p) + match log[|log| - 1]
                                     case Acquired(q) => if q == p then 1 else 0
                                     case Released(q) => if q == p then -1 else 0
  }

  /** A port was acquired once more than released while it is used, and as often while it is not. */
  ghost predicate Balanced(s: System) {
    forall p :: p in s.alloc ==> Balance(s.log, p) == if s.alloc[p] then 1 else 0
  }

  lemma BalanceNext(log: seq<Use>, u: Use, p: int)
    ensures Balance(log + [u], p) == Balance(log, p) + if u.p != p then 0 else if u.Acquired? then 1 else -1
  {
    assert (log + [u])[..|log|] == log;
  }

  lemma RoutedKeeps(s: System, binds: set<int>, i: nat, got: Option<int>)
    requires Owned(s) && Balanced(s) && Possible(s, binds, Routed(i, got))
    ensures Owned(Next(s, Routed(i, got))) && Balanced(Next(s, Routed(i, got)))
  {
    var t := Next(s, Routed(i, got));
    if got.Some? {
      forall p | p in t.alloc
        ensures Balance(t.log, p) == if t.alloc[p] then 1 else 0
      {
        BalanceNext(s.log, Acquired(got.value), p);
      }
    }
    forall j: nat, p | j != i
      ensures Holds(t, j, p) == Holds(s, j, p)
    {
    }
    forall p | p in t.alloc && t.alloc[p]
      ensures exists j: nat :: Holds(t, j, p)
    {
      if got != Some(p) {
        var j: nat :| Holds(s, j, p);
        assert Holds(t, j, p);
      } else {
        assert Holds(t, i, p);
      }
    }
  }

  lemma DroppedKeeps(s: System, i: nat)
    requires Owned(s) && Balanced(s)
    ensures Owned(DropHolder(s, i)) && Balanced(DropHolder(s, i))
  {
    if i < |s.holders| && !s.holders[i].disposed {
      var (t, port) := (DropHolder(s, i), s.holders[i].port);
      forall j: nat, p
        ensures Holds(t, j, p) == (j != i && Holds(s, j, p))
      {
      }
      if port.Some? {
        assert Holds(s, i, port.value);
        forall p | p in t.alloc
          ensures Balance(t.log, p) == if t.alloc[p] then 1 else 0
        {
          BalanceNext(s.log, Released(port.value), p);
        }
      }
      forall p | p in t.alloc && t.alloc[p]
        ensures exists j: nat :: Holds(t, j, p)
      {
        var j: nat :| Holds(s, j, p);
        assert Holds(t, j, p);
      }
    }
  }

  lemma NextKeeps(s: System, binds: set<int>, e: Event)
    requires Owned(s) && Balanced(s) && Possible(s, binds, e)
    ensures Owned(Next(s, e)) && Balanced(Next(s, e)) && Next(s, e).alloc.Keys == s.alloc.Keys
  {
    match e
    case Routed(i, got) => RoutedKeeps(s, binds, i, got);
    case Dropped(i) => DroppedKeeps(s, i);
    case Comes =>
      var t := Next(s, e);
      forall i: nat, p
        ensures Holds(t, i, p) == Holds(s, i, p)
      {
      }
  }

  /** A run: what happened, and which ports could be bound at the time. */
  predicate Happened(s: System, run: seq<(Event, set<int>)>, t: System)
    decreases |run|
  {
    if run == [] then t == s
    else
      var (e, binds) := (run[0].0, run[0].1);
      Possible(s, binds, e) && Happened(Next(s, e), run[1..], t)
  }

  /** In every run, whatever can be bound when: the ports marked used are exactly those held by
      undisposed sessions, no two of which share one; no port is released more often than acquired; and
      the pool keeps its set of ports. */
  lemma {:induction false} OwnershipKept(s: System, run: seq<(Event, set<int>)>, t: System)
    requires Owned(s) && Balanced(s) && Happened(s, run, t)
    ensures Owned(t) && Balanced(t) && t.alloc.Keys == s.alloc.Keys
    decreases |run|
  {
    if run != [] {
      NextKeeps(s, run[0].1, run[0].0);
      OwnershipKept(Next(s, run[0].0), run[1..], t);
    }
  }

  // ----- the sessions as objects

  class MediaSession {
    var mediaConn: Option<int>
    var isDisposed: bool

    constructor ()
      ensures mediaConn == None && !isDisposed
    {
      mediaConn, isDisposed := None, false;
    }

    function AsHolder(): Holder
      reads this
    {
      Holder(mediaConn, isDisposed)
    }
  }

  /** The pool and all sessions ever made. */
  class Switch {
    const pool: MediaPool
    var sessions: seq<MediaSession>
    ghost var log: seq<Use>

    ghost predicate Valid()
      reads this, sessions
    {
      forall i, j :: 0 <= i < j < |sessions| ==> sessions[i] != sessions[j]
    }

    ghost function State(): System
      reads this, pool, sessions
    {
      System(pool.alloc,
             seq(|sessions|, i requires 0 <= i < |sessions| reads this, sessions => sessions[i].AsHolder()), log)
    }

    constructor ()
      ensures Valid() && fresh(pool) && State() == System(pool.alloc, [], [])
      ensures Owned(State()) && Balanced(State())
    {
      pool := new MediaPool();
      sessions, log := [], [];
    }

    method NewSession()
      requires Valid()
      modifies this
      ensures Valid() && State() == Next(old(State()), Comes)
      ensures |sessions| == |old(sessions)| + 1 && sessions[..|old(sessions)|] == old(sessions)
      ensures fresh(sessions[|old(sessions)|])
    {
      var session := new MediaSession();
      sessions := sessions + [session];
    }

    /** The media part of routing a call on a session. */
    method Route(i: nat, binds: set<int>) returns (got: Option<int>)
      requires Valid() && CanBeRouted(State(), i)
      modifies this, pool, sessions[i]
      ensures Valid() && Possible(old(State()), binds, Routed(i, got))
      ensures State() == Next(old(State()), Routed(i, got))
      ensures sessions == old(sessions)
    {
      got := pool.ReserveSocket(binds);
      sessions[i].mediaConn := got;
      if got.Some? {
        log := log + [Acquired(got.value)];
      }
    }

    /** DropMe. */
    method DropMe(i: nat)
      requires Valid() && i < |sessions| && Owned(State())
      modifies this, pool, sessions[i]
      ensures Valid() && State() == Next(old(State()), Dropped(i))
      ensures sessions == old(sessions)
    {
      var session := sessions[i];
      if session.isDisposed {
        return;
      }
      assert session.mediaConn.Some? ==> Holds(State(), i, session.mediaConn.value);
      var released := pool.ReleaseSocket(session.mediaConn);
      assert released;
      session.isDisposed := true;
      if session.mediaConn.Some? {
        log := log + [Released(session.mediaConn.value)];
      }
    }
  }
}
