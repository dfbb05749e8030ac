/** Runs of the editor-page reducer over sequences of events, and the
    properties of the session that only show across several events. */
module Traces {
  import opened Wrappers
  import opened Membership
  import opened EditorPage

  /** Feed the events to a transition function one after another,
      collecting the effects in the order they happen. */
  function Replay(step: (State, Event) -> Transition, s: State, evs: seq<Event>): Transition
    decreases |evs|
  {
    if |evs| == 0 then Transition(s, [])
    else
      var first := step(s, evs[0]);
      var rest := Replay(step, first.next, evs[1..]);
      Transition(rest.next, first.effects + rest.effects)
  }

  lemma {:induction false} ReplayConcat(step: (State, Event) -> Transition, s: State, a: seq<Event>, b: seq<Event>)
    ensures Replay(step, s, a + b).next == Replay(step, Replay(step, s, a).next, b).next
    ensures Replay(step, s, a + b).effects == Replay(step, s, a).effects + Replay(step, Replay(step, s, a).next, b).effects
    decreases |a|
  {
    if |a| == 0 {
      assert a + b == b;
    } else {
      var first := step(s, a[0]);
      assert (a + b)[0] == a[0];
      assert (a + b)[1..] == a[1..] + b;
      ReplayConcat(step, first.next, a[1..], b);
      var ra := Replay(step, first.next, a[1..]);
      assert first.effects + (ra.effects + Replay(step, ra.next, b).effects)
        == (first.effects + ra.effects) + Replay(step, ra.next, b).effects;
    }
  }

  /** Feed the events to `Step` one after another. This is `Replay` with
      `Step` as the transition, written out directly so that proofs about
      particular events unfold `Step` without going through a function value;
      `RunIsReplay` shows the two agree. */
  function Run(s: State, evs: seq<Event>): (t: Transition)
    ensures t.next.roomId == s.roomId && t.next.localUserName == s.localUserName
    decreases |evs|
  {
    if |evs| == 0 then Transition(s, [])
    else
      var first := Step(s, evs[0]);
      var rest := Run(first.next, evs[1..]);
      Transition(rest.next, first.effects + rest.effects)
  }

  lemma {:induction false} RunIsReplay(s: State, evs: seq<Event>)
    ensures Run(s, evs) == Replay(Step, s, evs)
    decreases |evs|
  {
    if |evs| > 0 {
      RunIsReplay(Step(s, evs[0]).next, evs[1..]);
    }
  }

  /** Running two traces back to back is running their concatenation. */
  lemma RunConcat(s: State, a: seq<Event>, b: seq<Event>)
    ensures Run(s, a + b).next == Run(Run(s, a).next, b).next
    ensures Run(s, a + b).effects == Run(s, a).effects + Run(Run(s, a).next, b).effects
  {
    RunIsReplay(s, a + b);
    RunIsReplay(s, a);
    RunIsReplay(Run(s, a).next, b);
    ReplayConcat(Step, s, a, b);
  }

  /** Every reachable state is well shaped. */
  lemma {:induction false} RunPreservesValid(s: State, evs: seq<Event>)
    requires Valid(s)
    ensures Valid(Run(s, evs).next)
    decreases |evs|
  {
    if |evs| > 0 {
      StepPreservesValid(s, evs[0]);
      RunPreservesValid(Step(s, evs[0]).next, evs[1..]);
    }
  }

  /** The number of join requests among some effects. */
  function JoinCount(effs: seq<Effect>): nat
    decreases |effs|
  {
    if |effs| == 0 then 0
    else (if effs[0].EmitJoin? then 1 else 0) + JoinCount(effs[1..])
  }

  /** The number of `Init` events in a trace. */
  function InitCount(evs: seq<Event>): nat
    decreases |evs|
  {
    if |evs| == 0 then 0
    else (if evs[0].Init? then 1 else 0) + InitCount(evs[1..])
  }

  lemma {:induction false} JoinCountConcat(a: seq<Effect>, b: seq<Effect>)
    ensures JoinCount(a + b) == JoinCount(a) + JoinCount(b)
    decreases |a|
  {
    if |a| == 0 {
      assert a + b == b;
    } else {
      assert (a + b)[1..] == a[1..] + b;
      JoinCountConcat(a[1..], b);
    }
  }

  /** Effects without a join request count zero of them. */
  lemma {:induction false} NoJoinsCountZero(effs: seq<Effect>)
    requires forall x :: x in effs ==> !x.EmitJoin?
    ensures JoinCount(effs) == 0
    decreases |effs|
  {
    if |effs| > 0 {
      assert effs[0] in effs;
      assert forall x :: x in effs[1..] ==> x in effs;
      NoJoinsCountZero(effs[1..]);
    }
  }

  /** Only `Init` ever asks to join, and it asks exactly once. */
  lemma StepJoinCount(s: State, e: Event)
    ensures JoinCount(Step(s, e).effects) == if e.Init? then 1 else 0
  {
    var effs := Step(s, e).effects;
    if e.Init? {
      assert effs == [EmitJoin(s.roomId, s.localUserName)];
      assert JoinCount(effs) == 1 + JoinCount(effs[1..]);
      assert effs[1..] == [];
    } else {
      assert forall x :: x in effs ==> !x.EmitJoin?;
      NoJoinsCountZero(effs);
    }
  }

  /** Over any trace, one join request per `Init` and none otherwise; in
      particular `connect`, however often it comes, never re-joins. */
  lemma {:induction false} JoinsMatchInits(s: State, evs: seq<Event>)
    ensures JoinCount(Run(s, evs).effects) == InitCount(evs)
    decreases |evs|
  {
    if |evs| > 0 {
      var first := Step(s, evs[0]);
      StepJoinCount(s, evs[0]);
      JoinsMatchInits(first.next, evs[1..]);
      JoinCountConcat(first.effects, Run(first.next, evs[1..]).effects);
    }
  }

  /** Mounting and then any number of connects and disconnects yields one
      join request, naming the room and the local user. */
  lemma InitThenConnectsJoinsOnce(roomId: string, userName: Option<string>, evs: seq<Event>)
    requires forall i :: 0 <= i < |evs| ==> evs[i].Connect? || evs[i].Disconnect?
    ensures Run(Mount(roomId, userName), [Init] + evs).effects[0] == EmitJoin(roomId, userName)
    ensures JoinCount(Run(Mount(roomId, userName), [Init] + evs).effects) == 1
  {
    var s := Mount(roomId, userName);
    assert ([Init] + evs)[0] == Init;
    assert ([Init] + evs)[1..] == evs;
    JoinsMatchInits(Step(s, Init).next, evs);
    assert InitCount(evs) == 0 by {
      NoInitsCountZero(evs);
    }
    JoinsMatchInits(s, [Init] + evs);
  }

  lemma {:induction false} NoInitsCountZero(evs: seq<Event>)
    requires forall i :: 0 <= i < |evs| ==> !evs[i].Init?
    ensures InitCount(evs) == 0
    decreases |evs|
  {
    if |evs| > 0 {
      NoInitsCountZero(evs[1..]);
    }
  }

  /** None of the listeners the cleanup removes is registered. */
  ghost predicate Detached(s: State) {
    forall l :: l in CleanedListeners ==> l !in s.listeners
  }

  /** Once detached, and until the next `Init`, no event changes the
      membership or the connection flag, the page stays detached, and neither
      a code handoff nor a join request is emitted. */
  lemma {:induction false} DetachedIsFrozen(s: State, evs: seq<Event>)
    requires Detached(s)
    requires forall i :: 0 <= i < |evs| ==> !evs[i].Init?
    ensures Detached(Run(s, evs).next)
    ensures Run(s, evs).next.clients == s.clients
    ensures Run(s, evs).next.connected == s.connected
    ensures forall x :: x in Run(s, evs).effects ==> !x.EmitCodesync? && !x.EmitJoin?
    decreases |evs|
  {
    if |evs| > 0 {
      var first := Step(s, evs[0]);
      assert first.next.clients == s.clients && first.next.connected == s.connected;
      assert forall x :: x in first.effects ==> !x.EmitCodesync? && !x.EmitJoin?;
      DetachedIsFrozen(first.next, evs[1..]);
    }
  }

  /** Late delivery after the cleanup: with a socket, the cleanup detaches the
      page, so any later events short of a new `Init` leave the membership and
      the connection flag as the cleanup left them: the list as before, and
      the flag cleared if the `disconnect` listener was still registered. */
  lemma LateEventsAfterCleanup(s: State, evs: seq<Event>)
    requires s.hasSocket
    requires forall i :: 0 <= i < |evs| ==> !evs[i].Init?
    ensures Run(s, [Cleanup] + evs).next.clients == s.clients
    ensures Run(s, [Cleanup] + evs).next.connected == (s.connected && OnDisconnect !in s.listeners)
  {
    var c := Step(s, Cleanup).next;
    assert Detached(c);
    assert ([Cleanup] + evs)[0] == Cleanup;
    assert ([Cleanup] + evs)[1..] == evs;
    DetachedIsFrozen(c, evs);
  }

  /** Both membership listeners are registered. */
  ghost predicate Listening(s: State) {
    OnUserConnected in s.listeners && OnUserDisconnected in s.listeners
  }

  /** The socket ids of the departures in a trace, in order. */
  function DepartedIds(evs: seq<Event>): seq<string>
    decreases |evs|
  {
    if |evs| == 0 then []
    else (if evs[0].UserDisconnected? then [evs[0].socketId] else []) + DepartedIds(evs[1..])
  }

  /** Without a cleanup the membership listeners stay registered. */
  lemma {:induction false} ListeningWithoutCleanup(s: State, evs: seq<Event>)
    requires Listening(s)
    requires forall i :: 0 <= i < |evs| ==> !evs[i].Cleanup?
    ensures Listening(Run(s, evs).next)
    decreases |evs|
  {
    if |evs| > 0 {
      ListeningWithoutCleanup(Step(s, evs[0]).next, evs[1..]);
    }
  }

  /** With no snapshot in the trace, the membership is the starting list
      minus every departure, applied in order. */
  lemma {:induction false} ReplayWithoutSnapshot(s: State, evs: seq<Event>)
    requires Listening(s)
    requires forall i :: 0 <= i < |evs| ==> !evs[i].Cleanup? && !evs[i].UserConnected?
    ensures Run(s, evs).next.clients == RemoveAll(s.clients, DepartedIds(evs))
    decreases |evs|
  {
    if |evs| > 0 {
      var first := Step(s, evs[0]);
      var ids := DepartedIds(evs[1..]);
      if evs[0].UserDisconnected? {
        assert first.next.clients == RemoveById(s.clients, evs[0].socketId);
        assert DepartedIds(evs) == [evs[0].socketId] + ids;
        assert ([evs[0].socketId] + ids)[1..] == ids;
      } else {
        assert first.next.clients == s.clients;
        assert DepartedIds(evs) == ids;
      }
      assert Listening(first.next);
      ReplayWithoutSnapshot(first.next, evs[1..]);
    }
  }

  /** The membership after a trace is the last snapshot the server sent,
      minus the departures announced after it: the client infers nothing
      beyond what the two membership events say. */
  lemma LastSnapshotWins(s: State, pre: seq<Event>, snapshot: Event, post: seq<Event>)
    requires Listening(s)
    requires snapshot.UserConnected?
    requires forall i :: 0 <= i < |pre| ==> !pre[i].Cleanup?
    requires forall i :: 0 <= i < |post| ==> !post[i].Cleanup? && !post[i].UserConnected?
    ensures Run(s, pre + [snapshot] + post).next.clients == RemoveAll(snapshot.clients, DepartedIds(post))
    ensures forall c :: (c in Run(s, pre + [snapshot] + post).next.clients
      <==> c in snapshot.clients && c.socketId !in DepartedIds(post))
  {
    RunConcat(s, pre, [snapshot]);
    RunConcat(s, pre + [snapshot], post);
    var mid := Run(s, pre).next;
    ListeningWithoutCleanup(s, pre);
    assert Run(mid, [snapshot]).next == Step(mid, snapshot).next;
    var after := Run(s, pre + [snapshot]).next;
    assert after.clients == snapshot.clients;
    assert Listening(after);
    ReplayWithoutSnapshot(after, post);
  }

  /** The join scenario: with a code in hand, a newcomer named differently is
      announced, listed, and sent the code. */
  lemma NewcomerScenario(s: State, me: Client, bob: Client, code: string)
    requires Listening(s) && s.localUserName == Some(me.userName)
    requires bob.userName != me.userName && |code| > 0
    ensures var t := Run(s, [CodeChange(code), UserConnected([me, bob], Some(bob.userName), bob.socketId)]);
      && t.next.clients == [me, bob]
      && t.effects == [ToastSuccess(bob.userName + " joined"), EmitCodesync(code, bob.socketId)]
  {
    var join := UserConnected([me, bob], Some(bob.userName), bob.socketId);
    var s1 := Step(s, CodeChange(code)).next;
    var t2 := Step(s1, join);
    assert t2.next.clients == [me, bob];
    assert t2.effects == [ToastSuccess(bob.userName + " joined"), EmitCodesync(code, bob.socketId)];
    assert Run(s1, [join]) == Transition(t2.next, t2.effects + []);
    assert [CodeChange(code), join][1..] == [join];
  }

  /** A connection error straight after mounting: the join request, then one
      error toast and the way home; the connection flag stays false and
      nothing re-joins. */
  lemma ConnectErrorAfterMount(roomId: string, userName: Option<string>)
    ensures Run(Mount(roomId, userName), [Init, ConnectError]).effects
      == [EmitJoin(roomId, userName), ToastError(ConnectionFailedMsg), Navigate(HomePath)]
    ensures !Run(Mount(roomId, userName), [Init, ConnectError]).next.connected
  {
    var s := Mount(roomId, userName);
    var s1 := Step(s, Init).next;
    assert [Init, ConnectError][1..] == [ConnectError];
    assert Run(s1, [ConnectError]) == Transition(s1, [ToastError(ConnectionFailedMsg), Navigate(HomePath)] + []);
  }

  /** A cleanup that comes before the async `init` has set the socket finds
      nothing to disconnect; the `init` that follows still registers every
      listener, so the unmounted page keeps listening. */
  lemma CleanupBeforeInitKeepsListening(roomId: string, userName: Option<string>)
    ensures Run(Mount(roomId, userName), [Cleanup, Init]).next.listeners == AllListeners
    ensures Run(Mount(roomId, userName), [Cleanup, Init]).effects == [EmitJoin(roomId, userName)]
  {
    var s := Mount(roomId, userName);
    var s1 := Step(s, Cleanup).next;
    assert s1 == s;
    assert [Cleanup, Init][1..] == [Init];
    assert Run(s1, [Init]) == Transition(Step(s1, Init).next, [EmitJoin(roomId, userName)] + []);
  }
}
