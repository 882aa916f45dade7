/** What the port allocation guarantees for every list of listeners. */
module PortSafety {
  import opened PortAllocation

  /** Some listener was refused because no port was left. */
  predicate Exhausted(a: Allocation) {
    exists f :: f in a.failures && f.NoPortLeft?
  }

  predicate Distinct(ports: seq<StreamPort>) {
    forall j, k :: 0 <= j < k < |ports| ==> ports[j].kongPort != ports[k].kongPort
  }

  /** A port a stream listener may be given. */
  predicate Usable(port: int) {
    port >= 1024 && port !in RESERVED
  }

  predicate CursorSkipsNothing(a: Allocation) {
    WINDOW_START <= a.cursor <= WINDOW_END && forall p :: WINDOW_START <= p < a.cursor ==> p in a.occupied
  }

  predicate StreamsServed(a: Allocation) {
    Distinct(a.streams) && forall k :: 0 <= k < |a.streams| ==>
          Usable(a.streams[k].kongPort) && a.streams[k].kongPort in a.occupied
  }

  /** The invariant of the listener loop. */
  predicate Inv(a: Allocation) {
    && CursorSkipsNothing(a)
    && RESERVED <= a.occupied
    && |a.occupied| + (if Exhausted(a) then 1 else 0) <= 4 + |a.streams|
    && (Exhausted(a) ==> a.cursor == WINDOW_END)
    && (!Exhausted(a) ==> StreamsServed(a))
  }

  lemma {:induction false} AssignInv(a: Allocation, i: nat, l: Listener)
    requires Inv(a) && IsStream(l)
    ensures Inv(Handle(a, i, l))
  {
    var a' := Handle(a, i, l);
    var after := Assign(a, i, l.port);
    if after.failures == a.failures {
      var port := after.kongPorts[l.port];
      assert port !in a.occupied && after.occupied == a.occupied + {port};
      assert Exhausted(a') == Exhausted(a);
    } else {
      assert NoPortLeft(i, l.port) in a'.failures && Exhausted(a');
    }
  }

  lemma {:induction false} UnsupportedInv(a: Allocation, i: nat, l: Listener)
    requires Inv(a) && l.protocol.Unsupported?
    ensures Inv(Handle(a, i, l))
  {
    var a' := Handle(a, i, l);
    assert Exhausted(a') == Exhausted(a) by {
      assert forall f :: f in a'.failures <==> f in a.failures || f == UnsupportedProtocol(i, l.protocol);
    }
  }

  lemma {:induction false} AllocateInv(ls: seq<Listener>)
    ensures Inv(Allocate(ls))
  {
    if ls == [] {
      assert |RESERVED| == 4;
    } else {
      var i := |ls| - 1;
      var a := Allocate(ls[..i]);
      AllocateInv(ls[..i]);
      if IsStream(ls[i]) {
        AssignInv(a, i, ls[i]);
      } else if ls[i].protocol.Unsupported? {
        UnsupportedInv(a, i, ls[i]);
      } else {
        assert Exhausted(Handle(a, i, ls[i])) == Exhausted(a);
      }
    }
  }

  // ---------------------------------------------------------------- main results

  /** On success the Kong ports of the stream listeners are pairwise distinct, never a reserved
      port and never below 1024. */
  lemma {:induction false} StreamPortsAreDistinctAndUsable(ls: seq<Listener>)
    requires Succeeds(ls)
    ensures Distinct(Allocate(ls).streams)
    ensures forall s :: s in Allocate(ls).streams ==> Usable(s.kongPort)
  {
    AllocateInv(ls);
  }

  /** The cursor never leaves a free port behind, and a listener is refused only when every port of
      the window is occupied. */
  lemma {:induction false} CursorLeavesNoFreePort(ls: seq<Listener>)
    ensures CursorSkipsNothing(Allocate(ls))
    ensures Exhausted(Allocate(ls)) ==> forall p :: WINDOW_START <= p < WINDOW_END ==> p in Allocate(ls).occupied
  {
    AllocateInv(ls);
  }

  /** The first `n` ports of the window. */
  function Window(n: nat): (w: set<int>)
    ensures |w| == n && forall p :: p in w <==> WINDOW_START <= p < WINDOW_START + n
  {
    if n == 0 then {} else Window(n - 1) + {WINDOW_START + n - 1}
  }

  lemma {:induction false} SubsetSize<T>(a: set<T>, b: set<T>)
    requires a <= b
    ensures |a| <= |b|
  {
    if x :| x in a {
      SubsetSize(a - {x}, b - {x});
    }
  }

  function StreamCount(ls: seq<Listener>): nat {
    if ls == [] then 0 else StreamCount(ls[..|ls| - 1]) + if IsStream(ls[|ls| - 1]) then 1 else 0
  }

  lemma {:induction false} StreamsCounted(ls: seq<Listener>)
    ensures |Allocate(ls).streams| == StreamCount(ls)
  {
    if ls != [] {
      StreamsCounted(ls[..|ls| - 1]);
    }
  }

  /** The reserved ports lie outside the window, so the allocation cannot run out of ports while
      the stream listeners number at most the size of the window. */
  lemma {:induction false} NeverExhaustedWithinWindow(ls: seq<Listener>)
    requires StreamCount(ls) <= WINDOW_SIZE
    ensures !Exhausted(Allocate(ls))
  {
    AllocateInv(ls);
    StreamsCounted(ls);
    if Exhausted(Allocate(ls)) {
      FullWindow(Allocate(ls).occupied, WINDOW_SIZE);
    }
  }

  lemma {:induction false} FullWindow(occupied: set<int>, n: nat)
    requires n <= WINDOW_SIZE && RESERVED <= occupied
    requires forall p :: WINDOW_START <= p < WINDOW_START + n ==> p in occupied
    ensures |occupied| >= 4 + n
  {
    assert RESERVED !! Window(n) && |RESERVED| == 4;
    assert |RESERVED + Window(n)| == 4 + n;
    SubsetSize(RESERVED + Window(n), occupied);
  }

  predicate WindowFull(a: Allocation) {
    forall p :: WINDOW_START <= p < WINDOW_END ==> p in a.occupied
  }

  /** Listener `n` needs a port of the window when none is left. */
  predicate RefusedAt(ls: seq<Listener>, n: nat)
    requires n < |ls|
  {
    var a := Allocate(ls[..n]);
    IsStream(ls[n]) && MustMove(a, ls[n].port) && WindowFull(a)
  }

  lemma {:induction false} OneMoreFailure(a: Allocation, a': Allocation, f: Failure)
    requires a'.failures == a.failures + [f]
    ensures Exhausted(a') <==> Exhausted(a) || f.NoPortLeft?
  {
    assert forall g :: g in a'.failures <==> g in a.failures || g == f;
  }

  /** The cursor finds nothing if and only if the whole window is occupied. */
  lemma {:induction false} NothingFreeIff(a: Allocation)
    requires CursorSkipsNothing(a)
    ensures NextFree(a.occupied, a.cursor) < WINDOW_END <==> !WindowFull(a)
  {
    var c := NextFree(a.occupied, a.cursor);
    hide NextFree;
    assert c < WINDOW_END ==> c !in a.occupied && WINDOW_START <= c;
    assert forall p :: WINDOW_START <= p < c ==> p in a.occupied;
  }

  lemma {:induction false} RefusedStep(a: Allocation, i: nat, l: Listener)
    requires Inv(a)
    ensures Exhausted(Handle(a, i, l)) <==> Exhausted(a) || (IsStream(l) && MustMove(a, l.port) && WindowFull(a))
  {
    var a' := Handle(a, i, l);
    NothingFreeIff(a);
    hide NextFree, WindowFull, Inv;
    if IsStream(l) && MustMove(a, l.port) {
      if NextFree(a.occupied, a.cursor) < WINDOW_END {
        assert a'.failures == a.failures;
      } else {
        OneMoreFailure(a, a', NoPortLeft(i, l.port));
      }
    } else if l.protocol.Unsupported? {
      OneMoreFailure(a, a', UnsupportedProtocol(i, l.protocol));
    } else {
      assert a'.failures == a.failures;
    }
  }

  /** For any listeners: the ports run out if and only if some stream listener has to move when every
      port of the window is occupied, by listeners that moved there or asked for it. */
  lemma {:induction false} ExhaustedIff(ls: seq<Listener>)
    ensures Exhausted(Allocate(ls)) <==> exists n :: 0 <= n < |ls| && RefusedAt(ls, n)
  {
    if ls != [] {
      var i := |ls| - 1;
      var init := ls[..i];
      ExhaustedIff(init);
      AllocateInv(init);
      RefusedStep(Allocate(init), i, ls[i]);
      assert RefusedAt(ls, i) || Exhausted(Allocate(init)) <==> Exhausted(Allocate(ls));
      forall n | 0 <= n < i ensures RefusedAt(init, n) <==> RefusedAt(ls, n) {
        assert init[..n] == ls[..n] && init[n] == ls[n];
      }
      hide Allocate, Exhausted, RefusedAt;
    }
  }

  /** The allocation as a whole: it fails exactly for an unsupported protocol or for want of a port. */
  lemma {:induction false} FailsIff(ls: seq<Listener>)
    ensures !Succeeds(ls) <==> Exhausted(Allocate(ls)) || exists l :: l in ls && l.protocol.Unsupported?
  {
    if ls != [] {
      var i := |ls| - 1;
      FailsIff(ls[..i]);
      var a, a' := Allocate(ls[..i]), Allocate(ls);
      assert forall l :: l in ls <==> l in ls[..i] || l == ls[i];
      assert a.failures <= a'.failures;
      if a'.failures != a.failures {
        assert a'.failures[|a.failures|] in a'.failures;
      }
    }
  }

  /** Every listener has to move at its turn: its port is below 1024, reserved, or already occupied. */
  predicate AllMustMove(ls: seq<Listener>) {
    forall k :: 0 <= k < |ls| ==> IsStream(ls[k]) && MustMove(Allocate(ls[..k]), ls[k].port)
  }

  /** With the first `n` ports of the window occupied, the next free one is the port after them. */
  lemma {:induction false} NextAfterWindow(a: Allocation, n: nat)
    requires n <= WINDOW_SIZE && CursorSkipsNothing(a) && a.occupied == RESERVED + Window(n)
    ensures NextFree(a.occupied, a.cursor) == WINDOW_START + n
  {
    var c := NextFree(a.occupied, a.cursor);
    InWindow(c, n);
    InWindow(WINDOW_START + n, n);
    InWindow(a.cursor - 1, n);
    hide NextFree, Window, CursorSkipsNothing;
    assert c < WINDOW_END ==> c !in a.occupied;
    assert a.cursor <= WINDOW_START + n < c ==> WINDOW_START + n in a.occupied;
  }

  /** Nothing of the window beyond the first `n` ports is occupied or reserved. */
  lemma {:induction false} InWindow(p: int, n: nat)
    requires n <= WINDOW_SIZE
    ensures WINDOW_START <= p ==> (p in RESERVED + Window(n) <==> p < WINDOW_START + n)
  {
  }

  lemma {:induction false} MovedStep(a: Allocation, i: nat, l: Listener, n: nat)
    requires n < WINDOW_SIZE && Inv(a) && a.occupied == RESERVED + Window(n) && IsStream(l) && MustMove(a, l.port)
    ensures Handle(a, i, l).occupied == RESERVED + Window(n + 1)
  {
    NextAfterWindow(a, n);
    hide NextFree, Window, MustMove, Inv;
    MovedTo(a, i, l, WINDOW_START + n);
    WindowGrows(n);
  }

  lemma {:induction false} MovedTo(a: Allocation, i: nat, l: Listener, c: int)
    requires NextFree(a.occupied, a.cursor) == c < WINDOW_END && IsStream(l) && MustMove(a, l.port)
    ensures Handle(a, i, l).occupied == a.occupied + {c}
  {
    hide NextFree;
  }

  lemma {:induction false} WindowGrows(n: nat)
    ensures RESERVED + Window(n + 1) == (RESERVED + Window(n)) + {WINDOW_START + n}
  {
  }

  /** The first `n` listeners, all moved, occupy exactly the first `n` ports of the window. */
  lemma {:induction false} MovesFillTheWindow(ls: seq<Listener>, n: nat)
    requires AllMustMove(ls) && n <= |ls| && n <= WINDOW_SIZE
    ensures Allocate(ls[..n]).occupied == RESERVED + Window(n)
  {
    if n == 0 {
      assert ls[..0] == [] && Window(0) == {};
    } else {
      MovesFillTheWindow(ls, n - 1);
      AllocateInv(ls[..n - 1]);
      OneMore(ls, n - 1);
      hide Allocate, Window, Handle, Inv;
      MovedStep(Allocate(ls[..n - 1]), n - 1, ls[n - 1], n - 1);
    }
  }

  lemma {:induction false} NoneLeft(ls: seq<Listener>, n: nat)
    requires AllMustMove(ls) && n == WINDOW_SIZE < |ls|
    ensures Exhausted(Allocate(ls[..n + 1]))
  {
    MovesFillTheWindow(ls, n);
    AllocateInv(ls[..n]);
    OneMore(ls, n);
    hide Allocate, Handle, Window, NextFree;
    NextAfterWindow(Allocate(ls[..n]), n);
    FullMeansRefused(Allocate(ls[..n]), n, ls[n]);
  }

  lemma {:induction false} OneMore(ls: seq<Listener>, n: nat)
    requires n < |ls|
    ensures Allocate(ls[..n + 1]) == Handle(Allocate(ls[..n]), n, ls[n])
  {
    assert ls[..n + 1][..n] == ls[..n];
  }

  lemma {:induction false} FullMeansRefused(a: Allocation, n: nat, l: Listener)
    requires NextFree(a.occupied, a.cursor) == WINDOW_END && IsStream(l) && MustMove(a, l.port)
    ensures Exhausted(Handle(a, n, l))
  {
    assert NoPortLeft(n, l.port) in Handle(a, n, l).failures;
  }

  lemma {:induction false} ExhaustionLasts(ls: seq<Listener>, n: nat)
    requires n <= |ls| && Exhausted(Allocate(ls[..n]))
    ensures Exhausted(Allocate(ls))
    decreases |ls| - n
  {
    if n == |ls| {
      assert ls[..n] == ls;
    } else {
      assert ls[..n + 1][..n] == ls[..n];
      assert Allocate(ls[..n]).failures <= Allocate(ls[..n + 1]).failures;
      ExhaustionLasts(ls, n + 1);
    }
  }

  /** The bound is tight: listeners that all have to move are served exactly up to the size of the window. */
  lemma {:induction false} BoundIsTight(ls: seq<Listener>)
    requires AllMustMove(ls)
    ensures Exhausted(Allocate(ls)) <==> |ls| > WINDOW_SIZE
  {
    var n: nat := WINDOW_SIZE;
    if n < |ls| {
      NoneLeft(ls, n);
      ExhaustionLasts(ls, n + 1);
    } else {
      AllStreamsCount(ls);
      NeverExhaustedWithinWindow(ls);
    }
  }

  lemma {:induction false} AllStreamsCount(ls: seq<Listener>)
    ensures StreamCount(ls) <= |ls|
  {
    if ls != [] {
      AllStreamsCount(ls[..|ls| - 1]);
    }
  }

  // ---------------------------------------------------------------- one port per listener

  /** The Kong port listener `k` is given at its turn. */
  function Given(ls: seq<Listener>, k: nat): int
    requires k < |ls|
  {
    Lookup(Allocate(ls[..k + 1]).kongPorts, ls[k].port)
  }

  /** No later listener took over the map entry of an earlier one. */
  predicate NothingOverwritten(ls: seq<Listener>) {
    forall k :: 0 <= k < |ls| ==> Lookup(Allocate(ls).kongPorts, ls[k].port) == Given(ls, k)
  }

  predicate MayShare(a: Listener, b: Listener) {
    a.protocol == b.protocol && a.protocol in {HTTP, HTTPS}
  }

  predicate SharingAllowed(ls: seq<Listener>) {
    forall j, k :: 0 <= j < k < |ls| && ls[j].port == ls[k].port ==> MayShare(ls[j], ls[k])
  }

  lemma {:induction false} PrefixSucceeds(ls: seq<Listener>, n: nat)
    requires Succeeds(ls) && n <= |ls|
    ensures Succeeds(ls[..n])
    decreases |ls| - n
  {
    if n == |ls| {
      assert ls[..n] == ls;
    } else {
      PrefixSucceeds(ls, n + 1);
      assert ls[..n + 1][..n] == ls[..n];
    }
  }

  /** What a turn gives: HTTP and HTTPS their fixed port, a stream listener a port nobody had before. */
  lemma {:induction false} GivenAtTurn(ls: seq<Listener>, k: nat)
    requires k < |ls| && Succeeds(ls)
    ensures ls[k].protocol.HTTP? ==> Given(ls, k) == PROXY_PORT
    ensures ls[k].protocol.HTTPS? ==> Given(ls, k) == PROXY_SSL_PORT
    ensures IsStream(ls[k]) ==> Given(ls, k) !in Allocate(ls[..k]).occupied
    ensures !ls[k].protocol.Unsupported?
    ensures Given(ls, k) in Allocate(ls[..k + 1]).occupied
    ensures Allocate(ls[..k + 1]).kongPorts == Allocate(ls[..k]).kongPorts[ls[k].port := Given(ls, k)]
  {
    PrefixSucceeds(ls, k + 1);
    assert ls[..k + 1][..k] == ls[..k];
    AllocateInv(ls[..k]);
  }

  lemma {:induction false} OccupiedGrows(ls: seq<Listener>, j: nat, k: nat)
    requires j <= k <= |ls|
    ensures Allocate(ls[..j]).occupied <= Allocate(ls[..k]).occupied
    decreases k - j
  {
    if j < k {
      OccupiedGrows(ls, j, k - 1);
      assert ls[..k][..k - 1] == ls[..k - 1];
    }
  }

  /** Two listeners are given the same Kong port only if both speak HTTP, or both HTTPS. */
  lemma {:induction false} GivenEqual(ls: seq<Listener>, j: nat, k: nat)
    requires j < k < |ls| && Succeeds(ls)
    ensures Given(ls, j) == Given(ls, k) <==> MayShare(ls[j], ls[k])
  {
    GivenAtTurn(ls, j);
    GivenAtTurn(ls, k);
    OccupiedGrows(ls, j + 1, k);
    AllocateInv(ls[..j]);
    AllocateInv(ls[..k]);
  }

  /** Some stream listener before `k` was given this port. */
  predicate GivenBefore(ls: seq<Listener>, k: nat, port: int)
    requires k <= |ls|
  {
    exists j :: 0 <= j < k && IsStream(ls[j]) && Given(ls, j) == port
  }

  lemma {:induction false} OccupiedOneMore(ls: seq<Listener>, k: nat, port: int)
    requires k < |ls| && Succeeds(ls)
    ensures port in Allocate(ls[..k + 1]).occupied <==>
      port in Allocate(ls[..k]).occupied || (IsStream(ls[k]) && Given(ls, k) == port)
  {
    PrefixSucceeds(ls, k + 1);
    OneMore(ls, k);
    hide Allocate, NextFree;
  }

  lemma {:induction false} GivenBeforeOneMore(ls: seq<Listener>, k: nat, port: int)
    requires k < |ls|
    ensures GivenBefore(ls, k + 1, port) <==> GivenBefore(ls, k, port) || (IsStream(ls[k]) && Given(ls, k) == port)
  {
    hide Given;
  }

  /** Occupied are the reserved ports and those given to stream listeners so far. */
  lemma {:induction false} OccupiedIff(ls: seq<Listener>, k: nat, port: int)
    requires k <= |ls| && Succeeds(ls)
    ensures port in Allocate(ls[..k]).occupied <==> port in {8000, 8443, 8100, 8444} || GivenBefore(ls, k, port)
  {
    if k == 0 {
      assert ls[..0] == [];
    } else {
      OccupiedIff(ls, k - 1, port);
      OccupiedOneMore(ls, k - 1, port);
      GivenBeforeOneMore(ls, k - 1, port);
      hide Allocate, GivenBefore, Given;
    }
  }

  lemma {:induction false} StreamTurn(ls: seq<Listener>, k: nat)
    requires k < |ls| && Succeeds(ls) && IsStream(ls[k])
    ensures var a, port := Allocate(ls[..k]), ls[k].port;
      && CursorSkipsNothing(a)
      && Given(ls, k) == (if port >= 1024 && port !in a.occupied then port else NextFree(a.occupied, a.cursor))
      && (Given(ls, k) != port ==> NextFree(a.occupied, a.cursor) < WINDOW_END && Given(ls, k) !in a.occupied)
  {
    PrefixSucceeds(ls, k + 1);
    OneMore(ls, k);
    AllocateInv(ls[..k]);
    hide Allocate, NextFree;
  }

  /** Who is given what.  HTTP and HTTPS listeners share one fixed port each.  A stream listener keeps its own
      port exactly when that is at least 1024, not reserved, and no earlier stream listener was given it;
      otherwise it gets the lowest of the ports 16384 to 17407 that no earlier stream listener was given. */
  lemma {:induction false} WhoIsGivenWhat(ls: seq<Listener>, k: nat)
    requires k < |ls| && Succeeds(ls)
    ensures ls[k].protocol == HTTP ==> Given(ls, k) == 8000
    ensures ls[k].protocol == HTTPS ==> Given(ls, k) == 8443
    ensures IsStream(ls[k]) ==>
      (Given(ls, k) == ls[k].port <==>
         && ls[k].port >= 1024 && ls[k].port !in {8000, 8443, 8100, 8444} && !GivenBefore(ls, k, ls[k].port))
    ensures IsStream(ls[k]) && Given(ls, k) != ls[k].port ==>
      && 16384 <= Given(ls, k) <= 17407 && !GivenBefore(ls, k, Given(ls, k))
      && forall p :: 16384 <= p < Given(ls, k) ==> GivenBefore(ls, k, p)
  {
    GivenAtTurn(ls, k);
    if IsStream(ls[k]) {
      StreamTurn(ls, k);
      OccupiedIff(ls, k, ls[k].port);
      OccupiedIff(ls, k, Given(ls, k));
      hide Allocate, NextFree, GivenBefore;
      if Given(ls, k) != ls[k].port {
        forall p | 16384 <= p < Given(ls, k) ensures GivenBefore(ls, k, p) {
          OccupiedIff(ls, k, p);
        }
      }
    }
  }

  /** The stream ports are those given to the stream listeners, with their protocols. */
  lemma {:induction false} StreamPortsAreTheGiven(ls: seq<Listener>, s: StreamPort)
    requires Succeeds(ls)
    ensures s in Allocate(ls).streams <==>
      exists k :: 0 <= k < |ls| && IsStream(ls[k]) && s == StreamPort(Given(ls, k), ls[k].protocol)
  {
    if ls != [] {
      var n := |ls| - 1;
      var init := ls[..n];
      PrefixSucceeds(ls, n);
      StreamPortsAreTheGiven(init, s);
      assert ls[..n + 1] == ls;
      StreamsOneMore(Allocate(init), n, ls[n], s);
      hide Allocate, Handle;
      forall k | 0 <= k < n ensures Given(init, k) == Given(ls, k) && init[k] == ls[k] {
        assert init[..k + 1] == ls[..k + 1];
      }
      hide Given;
    }
  }

  lemma {:induction false} StreamsOneMore(a: Allocation, i: nat, l: Listener, s: StreamPort)
    ensures var a' := Handle(a, i, l);
      s in a'.streams <==>
        s in a.streams || (IsStream(l) && s == StreamPort(Lookup(a'.kongPorts, l.port), l.protocol))
  {
    hide NextFree;
  }

  /** While only listeners that may share do share, every entry written so far stands. */
  lemma {:induction false} EntriesStand(ls: seq<Listener>, n: nat, k: nat)
    requires k < n <= |ls| && Succeeds(ls) && SharingAllowed(ls)
    ensures Lookup(Allocate(ls[..n]).kongPorts, ls[k].port) == Given(ls, k)
    decreases n
  {
    GivenAtTurn(ls, n - 1);
    if k < n - 1 {
      EntriesStand(ls, n - 1, k);
      GivenEqual(ls, k, n - 1);
    }
  }

  /** No entry of the port map is overwritten with a different value if and only if listeners that
      share a port are all HTTP or all HTTPS. */
  lemma {:induction false} NothingOverwrittenIff(ls: seq<Listener>)
    requires Succeeds(ls)
    ensures NothingOverwritten(ls) <==> SharingAllowed(ls)
  {
    assert ls[..|ls|] == ls;
    if SharingAllowed(ls) {
      forall k | 0 <= k < |ls| ensures Lookup(Allocate(ls).kongPorts, ls[k].port) == Given(ls, k) {
        EntriesStand(ls, |ls|, k);
      }
    }
    if NothingOverwritten(ls) {
      forall j, k | 0 <= j < k < |ls| && ls[j].port == ls[k].port ensures MayShare(ls[j], ls[k]) {
        GivenEqual(ls, j, k);
      }
    }
  }

  /** On success every listener's port has an entry: "no target port after" cannot happen. */
  lemma {:induction false} EveryPortIsMapped(ls: seq<Listener>, k: nat)
    requires k < |ls| && Succeeds(ls)
    ensures ls[k].port in Allocate(ls).kongPorts
  {
    var n := |ls| - 1;
    PrefixSucceeds(ls, n);
    assert ls[..|ls|] == ls;
    GivenAtTurn(ls, n);
    if k < n {
      EveryPortIsMapped(ls[..n], k);
    }
  }
}
