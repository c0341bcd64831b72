/** Registration and disposal of the event listeners of the projection bridge. */
module ListenerBridge {

  /** `calls` records, in order, which listeners have been disposed of. */
  datatype Wiring = Wiring(disposers: seq<nat>, cancelled: bool, calls: seq<nat>)

  /** A registration resolves or fails some time after it was started; the caller unwires,
      possibly more than once. */
  datatype Action = Resolved(listener: nat) | Failed(listener: nat) | Unwire

  function Reverse(s: seq<nat>): seq<nat> {
    if s == [] then [] else [s[|s| - 1]] + Reverse(s[..|s| - 1])
  }

  function StepWiring(w: Wiring, action: Action): Wiring {
    match action
    case Resolved(listener) =>
      if w.cancelled then w.(calls := w.calls + [listener]) else w.(disposers := w.disposers + [listener])
    case Failed(_) => w
    case Unwire => Wiring([], true, w.calls + Reverse(w.disposers))
  }

  class Bridge {
    var disposers: seq<nat>
    var cancelled: bool
    var calls: seq<nat>

    constructor ()
      ensures State() == Wiring([], false, [])
    {
      disposers, cancelled, calls := [], false, [];
    }

    ghost function State(): Wiring
      reads this
    {
      Wiring(disposers, cancelled, calls)
    }

    method Dispose(listener: nat)
      modifies this`calls
      ensures calls == old(calls) + [listener]
    {
      calls := calls + [listener];
    }

    /** The continuation of a registration that succeeded. */
    method OnRegistered(listener: nat)
      modifies this`disposers, this`calls
      ensures State() == StepWiring(old(State()), Resolved(listener))
    {
      if cancelled {
        Dispose(listener);
        return;
      }
      disposers := disposers + [listener];
    }

    method UnwireAll()
      modifies this
      ensures State() == StepWiring(old(State()), Unwire)
    {
      cancelled := true;
      while disposers != []
        invariant cancelled
        invariant calls + Reverse(disposers) == old(calls) + Reverse(old(disposers))
        decreases |disposers|
      {
        var n := |disposers| - 1;
        var listener := disposers[n];
        disposers := disposers[..n];
        Dispose(listener);
      }
    }
  }

  // ----- every schedule -----

  function Run(schedule: seq<Action>): Wiring {
    if schedule == [] then Wiring([], false, [])
    else StepWiring(Run(schedule[..|schedule| - 1]), schedule[|schedule| - 1])
  }

  /** The listeners registered successfully, in the order they resolved. */
  function Registered(schedule: seq<Action>): seq<nat> {
    if schedule == [] then []
    else
      var last := schedule[|schedule| - 1];
      Registered(schedule[..|schedule| - 1]) + (if last.Resolved? then [last.listener] else [])
  }

  ghost predicate IsFirstUnwire(schedule: seq<Action>, k: nat) {
    k < |schedule| && schedule[k].Unwire? && forall i :: 0 <= i < k ==> !schedule[i].Unwire?
  }

  lemma {:induction false} NothingDisposedBeforeUnwire(schedule: seq<Action>)
    requires forall i :: 0 <= i < |schedule| ==> !schedule[i].Unwire?
    ensures Run(schedule) == Wiring(Registered(schedule), false, [])
  {
    if schedule != [] {
      NothingDisposedBeforeUnwire(schedule[..|schedule| - 1]);
    }
  }

  /** Until the first unwire every registered listener is held and none is disposed of. From
      then on exactly those have been disposed of: first the held ones, newest first, then the
      late ones as they resolve. Further unwires change nothing. */
  lemma {:induction false} DisposalOrder(schedule: seq<Action>, k: nat)
    requires IsFirstUnwire(schedule, k)
    ensures Run(schedule) ==
              Wiring([], true, Reverse(Registered(schedule[..k])) + Registered(schedule[k + 1..]))
  {
    var n := |schedule| - 1;
    var held := Reverse(Registered(schedule[..k]));
    if k == n {
      NothingDisposedBeforeUnwire(schedule[..n]);
      assert [] + held == held + Registered(schedule[k + 1..]);
    } else {
      var before, late := schedule[..n], schedule[k + 1..];
      assert before[..k] == schedule[..k] && before[k + 1..] == late[..|late| - 1];
      DisposalOrder(before, k);
      var done := Registered(late[..|late| - 1]);
      assert late[|late| - 1] == schedule[n];
      if schedule[n].Resolved? {
        assert held + done + [schedule[n].listener] == held + (done + [schedule[n].listener]);
      } else {
        assert held + done + [] == held + (done + []);
      }
    }
  }

  lemma {:induction false} ReverseAt(s: seq<nat>, k: nat)
    ensures |Reverse(s)| == |s|
    ensures k < |s| ==> Reverse(s)[k] == s[|s| - 1 - k]
  {
    if s != [] {
      var n := |s| - 1;
      ReverseAt(s[..n], if k > 0 then k - 1 else 0);
      assert 0 < k < |s| ==> Reverse(s)[k] == Reverse(s[..n])[k - 1] && s[..n][n - k] == s[n - k];
    }
  }

  /** Of two listeners held when the bridge is unwired, the one that registered later goes first. */
  lemma NewestGoesFirst(schedule: seq<Action>, k: nat, i: nat)
    requires IsFirstUnwire(schedule, k) && i < |Registered(schedule[..k])|
    ensures var held, calls := Registered(schedule[..k]), Run(schedule).calls;
            |held| - 1 - i < |calls| && calls[|held| - 1 - i] == held[i]
  {
    DisposalOrder(schedule, k);
    var held := Registered(schedule[..k]);
    ReverseAt(held, |held| - 1 - i);
    hide Registered, Run, Reverse, IsFirstUnwire;
  }

  // ----- each listener exactly once -----

  lemma {:induction false} ReversePermutes(s: seq<nat>)
    ensures multiset(Reverse(s)) == multiset(s)
  {
    if s != [] {
      var n := |s| - 1;
      ReversePermutes(s[..n]);
      assert s == s[..n] + [s[n]];
    }
  }

  lemma {:induction false} RegisteredConcat(a: seq<Action>, b: seq<Action>)
    ensures Registered(a + b) == Registered(a) + Registered(b)
  {
    if b == [] {
      assert a + b == a;
    } else {
      var n := |b| - 1;
      assert (a + b)[..|a + b| - 1] == a + b[..n];
      RegisteredConcat(a, b[..n]);
    }
  }

  /** A promise settles at most once. */
  ghost predicate SettlesOnce(schedule: seq<Action>) {
    forall i, j :: 0 <= i < j < |schedule| && !schedule[i].Unwire? && !schedule[j].Unwire?
      ==> schedule[i].listener != schedule[j].listener
  }

  lemma {:induction false} RegisteredOnce(schedule: seq<Action>, listener: nat)
    requires SettlesOnce(schedule)
    ensures multiset(Registered(schedule))[listener] == (if Resolved(listener) in schedule then 1 else 0)
  {
    if schedule != [] {
      var n := |schedule| - 1;
      assert schedule == schedule[..n] + [schedule[n]];
      RegisteredOnce(schedule[..n], listener);
      if schedule[n] == Resolved(listener) {
        assert Resolved(listener) !in schedule[..n];
      }
    }
  }

  lemma CountConcat(a: seq<nat>, b: seq<nat>, x: nat)
    ensures multiset(a + b)[x] == multiset(a)[x] + multiset(b)[x]
  {
    assert multiset(a + b) == multiset(a) + multiset(b);
  }

  lemma RegisteredAround(schedule: seq<Action>, k: nat)
    requires k < |schedule| && schedule[k].Unwire?
    ensures Registered(schedule) == Registered(schedule[..k]) + Registered(schedule[k + 1..])
  {
    hide Registered;
    assert schedule == schedule[..k] + [Unwire] + schedule[k + 1..];
    RegisteredBetween(schedule[..k], schedule[k + 1..]);
  }

  lemma RegisteredBetween(a: seq<Action>, b: seq<Action>)
    ensures Registered(a + [Unwire] + b) == Registered(a) + Registered(b)
  {
    RegisteredConcat(a + [Unwire], b);
    assert (a + [Unwire])[..|a|] == a;
    assert Registered(a + [Unwire]) == Registered(a) + [];
  }

  /** Once the bridge is unwired, each listener that was registered has been disposed of exactly
      once, and no other one; before, none has. */
  lemma DisposedExactlyOnce(schedule: seq<Action>, listener: nat)
    requires SettlesOnce(schedule)
    ensures multiset(Run(schedule).calls)[listener] ==
              (if Unwire in schedule && Resolved(listener) in schedule then 1 else 0)
  {
    hide Registered, Run, IsFirstUnwire, Reverse;
    if Unwire in schedule {
      var k := FirstUnwire(schedule);
      assert k < |schedule| && schedule[k].Unwire?;
      DisposalOrder(schedule, k);
      ReversePermutes(Registered(schedule[..k]));
      RegisteredOnce(schedule, listener);
      var held, late := Registered(schedule[..k]), Registered(schedule[k + 1..]);
      RegisteredAround(schedule, k);
      CountConcat(Reverse(held), late, listener);
      CountConcat(held, late, listener);
    } else {
      assert forall i :: 0 <= i < |schedule| ==> !schedule[i].Unwire?;
      NothingDisposedBeforeUnwire(schedule);
    }
  }

  lemma FirstUnwire(schedule: seq<Action>) returns (k: nat)
    requires Unwire in schedule
    ensures IsFirstUnwire(schedule, k)
  {
    k := 0;
    while !schedule[k].Unwire?
      invariant k < |schedule| && Unwire in schedule[k..]
      invariant forall i :: 0 <= i < k ==> !schedule[i].Unwire?
      decreases |schedule| - k
    {
      k := k + 1;
    }
  }
}
