/** The result channel of an AddAll group (group_job.go, internal/helpers/wg_counter.go,
    internal/helpers/response.go). Each member is closed exactly once, by its worker or before it
    starts (module JobClose), and a run sends at most once. One step is one atomic operation; the
    channel has one slot per member. */
module GroupJob {
  import opened Runs

  /** sent says whether the member's run sent its result; seen is what Done loaded. Refused members are
      closed by AddAll itself, as any unstarted one. */
  datatype Member =
    | Waiting
    | Running
    | Sending
    | Ran(sent: bool)
    | Claimed(sent: bool)
    | LoadCount(sent: bool)
    | Cas(sent: bool, seen: nat)
    | CloseChannel(sent: bool)
    | Finished(sent: bool)

  /** sends and closes count what was done to the channel; received what its reader took. */
  datatype State = State(members: seq<Member>, count: nat, sends: nat, received: nat, closes: nat)

  ghost predicate Init(s: State)
  {
    && (forall m :: 0 <= m < |s.members| ==> s.members[m].Waiting?)
    && s == State(s.members, |s.members|, 0, 0, if |s.members| == 0 then 1 else 0)
  }

  ghost predicate MemberStep(s: State, m: nat, s': State)
  {
    && m < |s.members|
    && match s.members[m]
       case Waiting =>
         || s' == s.(members := s.members[m := Running])
         || s' == s.(members := s.members[m := Claimed(false)])
       case Running => s' == s.(members := s.members[m := Sending]) || s' == s.(members := s.members[m := Ran(false)])
       case Sending =>
         && s.sends - s.received < |s.members| && s.closes == 0
         && s' == s.(sends := s.sends + 1, members := s.members[m := Ran(true)])
       case Ran(sent) => s' == s.(members := s.members[m := Claimed(sent)])
       case Claimed(sent) => s' == s.(members := s.members[m := LoadCount(sent)])
       case LoadCount(sent) =>
         s' == s.(members := s.members[m := if s.count == 0 then Finished(sent) else Cas(sent, s.count)])
       case Cas(sent, n) =>
         if s.count != n || n == 0 then s' == s.(members := s.members[m := LoadCount(sent)])
         else s' == s.(count := n - 1, members := s.members[m := if n == 1 then CloseChannel(sent) else Finished(sent)])
       case CloseChannel(sent) => s' == s.(closes := s.closes + 1, members := s.members[m := Finished(sent)])
       case Finished(_) => false
  }

  ghost predicate Next(s: State, s': State)
  {
    || (exists m: nat :: MemberStep(s, m, s'))
    || (s.received < s.sends && s' == s.(received := s.received + 1))
  }

  predicate Counted(x: Member)
  {
    x.CloseChannel? || x.Finished?
  }

  function Uncounted(members: seq<Member>): nat
  {
    if members == [] then 0 else (if Counted(members[0]) then 0 else 1) + Uncounted(members[1..])
  }

  /** Members that may still send. */
  function MaySend(members: seq<Member>): nat
  {
    if members == [] then 0
    else (if members[0].Waiting? || members[0].Running? || members[0].Sending? then 1 else 0) + MaySend(members[1..])
  }

  predicate HasSent(x: Member)
  {
    !x.Waiting? && !x.Running? && !x.Sending? && x.sent
  }

  /** Members whose run has sent its result. */
  function Sent(members: seq<Member>): nat
  {
    if members == [] then 0 else (if HasSent(members[0]) then 1 else 0) + Sent(members[1..])
  }

  function Closing(members: seq<Member>): nat
  {
    if members == [] then 0 else (if members[0].CloseChannel? then 1 else 0) + Closing(members[1..])
  }

  lemma {:induction false} CountsMove(members: seq<Member>, m: nat, x: Member)
    requires m < |members|
    ensures Uncounted(members[m := x]) - Uncounted([x]) == Uncounted(members) - Uncounted([members[m]])
    ensures MaySend(members[m := x]) - MaySend([x]) == MaySend(members) - MaySend([members[m]])
    ensures Closing(members[m := x]) - Closing([x]) == Closing(members) - Closing([members[m]])
    ensures Sent(members[m := x]) - Sent([x]) == Sent(members) - Sent([members[m]])
  {
    if m == 0 {
      assert members[m := x][1..] == members[1..];
    } else {
      CountsMove(members[1..], m - 1, x);
      assert members[m := x][1..] == members[1..][m - 1 := x];
    }
  }

  lemma {:induction false} CountsBound(members: seq<Member>, m: nat)
    requires m < |members|
    ensures Uncounted(members) >= Uncounted([members[m]]) && MaySend(members) >= MaySend([members[m]])
    ensures Closing(members) >= Closing([members[m]]) && MaySend(members) <= Uncounted(members) <= |members|
  {
    if m > 0 {
      CountsBound(members[1..], m - 1);
    } else if |members| > 1 {
      CountsBound(members[1..], 0);
    }
  }

  lemma {:induction false} AllCounted(members: seq<Member>)
    ensures (forall m :: 0 <= m < |members| ==> members[m].Finished?) ==> Uncounted(members) == Closing(members) == 0
    ensures Uncounted(members) == Closing(members) == 0 ==> forall m :: 0 <= m < |members| ==> members[m].Finished?
    ensures (forall m :: 0 <= m < |members| ==> members[m].Waiting?) ==>
      Uncounted(members) == MaySend(members) == |members| && Closing(members) == Sent(members) == 0
  {
    if members != [] {
      AllCounted(members[1..]);
      assert forall m :: 0 < m < |members| ==> members[m] == members[1..][m - 1];
    }
  }

  ghost predicate Inv(s: State)
  {
    && s.count == Uncounted(s.members)
    && s.received <= s.sends == Sent(s.members) && s.sends + MaySend(s.members) <= |s.members|
    && s.closes + Closing(s.members) == (if s.count == 0 then 1 else 0)
  }

  lemma MemberKeeps(s: State, m: nat, s': State)
    requires Inv(s) && MemberStep(s, m, s')
    ensures Inv(s')
  {
    CountsMove(s.members, m, s'.members[m]);
    CountsBound(s.members, m);
  }

  lemma RunKeeps(run: seq<State>)
    requires IsRun(Init, Next, run)
    ensures forall i :: 0 <= i < |run| ==> Inv(run[i])
  {
    forall s | Init(s) ensures Inv(s) {
      AllCounted(s.members);
    }
    forall s, s' | Inv(s) && Next(s, s') ensures Inv(s') {
      if m: nat :| MemberStep(s, m, s') {
        MemberKeeps(s, m, s');
      }
    }
    assert Inductive(Init, Next, Inv);
    Invariance(Init, Next, Inv, run);
  }

  /** In every run, a member about to send finds room and an open channel: no send blocks, and none
      comes after the close. */
  lemma SendNeverBlocks(run: seq<State>, i: nat, m: nat)
    requires IsRun(Init, Next, run) && i < |run| && m < |run[i].members| && run[i].members[m].Sending?
    ensures run[i].sends - run[i].received < |run[i].members| && run[i].closes == 0
  {
    RunKeeps(run);
    CountsBound(run[i].members, m);
  }

  /** In every run, the channel has been sent exactly the results of the members whose run sent one, and
      each member sends once: what is left in it is what its reader has not taken. */
  lemma ResultsDelivered(run: seq<State>, i: nat)
    requires IsRun(Init, Next, run) && i < |run|
    ensures run[i].sends == Sent(run[i].members) && run[i].received <= run[i].sends <= |run[i].members|
  {
    RunKeeps(run);
  }

  ghost predicate Sends(run: seq<State>, k: nat, m: nat)
  {
    k < |run| && m < |run[k].members| && (run[k].members[m].Sending? || HasSent(run[k].members[m]))
  }

  lemma SendsNext(run: seq<State>, k: nat, m: nat)
    requires IsRun(Init, Next, run) && k + 1 < |run| && Sends(run, k, m)
    ensures Sends(run, k + 1, m)
  {
    NextAt(Init, Next, run, k);
  }

  /** In every run, a member whose run was about to send a result is among those that have sent one as soon
      as it has gone on. */
  lemma RunSends(run: seq<State>, i: nat, j: nat, m: nat)
    requires IsRun(Init, Next, run) && i <= j < |run| && m < |run[i].members| && run[i].members[m].Sending?
    ensures m < |run[j].members| && (run[j].members[m].Sending? || HasSent(run[j].members[m]))
  {
    var p := (k: nat) => Sends(run, k, m);
    forall k: nat, l: nat | i <= k < j && l == k + 1 && p(k) ensures p(l) {
      SendsNext(run, k, m);
    }
    Along(p, i, j);
  }

  /** In every run, the channel is closed at most once, only after the last member was counted off,
      and exactly once when every member has finished closing, a group of none included. */
  lemma ClosedOnceAtEnd(run: seq<State>, i: nat)
    requires IsRun(Init, Next, run) && i < |run|
    ensures run[i].closes <= 1
    ensures run[i].closes == 1 <==> forall m :: 0 <= m < |run[i].members| ==> run[i].members[m].Finished?
    ensures run[i].closes == 1 ==> run[i].count == 0
  {
    RunKeeps(run);
    AllCounted(run[i].members);
  }

  /** In every run, Done never finds the count at zero, so NumPending is the members not yet closed. */
  lemma CountIsExact(run: seq<State>, i: nat)
    requires IsRun(Init, Next, run) && i < |run|
    ensures run[i].count == Uncounted(run[i].members)
    ensures forall m :: 0 <= m < |run[i].members| && run[i].members[m].LoadCount? ==> run[i].count > 0
  {
    RunKeeps(run);
    forall m | 0 <= m < |run[i].members| && run[i].members[m].LoadCount? ensures run[i].count > 0 {
      CountsBound(run[i].members, m);
    }
  }

  // ---------------------------------------------------------------- a member that goes on alone finishes

  ghost function OnlyBy(m: nat): (State, State) -> bool
  {
    (s, s') => MemberStep(s, m, s')
  }

  lemma Goes(s0: State, s: State, m: nat, s': State)
    requires Reachable(From(s0), OnlyBy(m), s) && MemberStep(s, m, s')
    ensures Reachable(From(s0), OnlyBy(m), s')
  {
    assert OnlyBy(m)(s, s');
    ReachableNext(From(s0), OnlyBy(m), s, s');
  }

  /** In every run, a member that was just closed and goes on alone is counted off, and closes the channel
      exactly if it is the last. */
  lemma MemberFinishes(run: seq<State>, i: nat, m: nat)
    requires IsRun(Init, Next, run) && i < |run| && m < |run[i].members| && run[i].members[m].Claimed?
    ensures exists s' ::
      && Reachable(From(run[i]), OnlyBy(m), s') && m < |s'.members| && s'.members[m].Finished?
      && s'.count == run[i].count - 1
      && s'.closes == run[i].closes + (if run[i].count == 1 then 1 else 0)
  {
    RunKeeps(run);
    var s := run[i];
    CountsBound(s.members, m);
    ReachableInit(From(s), OnlyBy(m), s);
    var sent := s.members[m].sent;
    var s1 := s.(members := s.members[m := LoadCount(sent)]);
    Goes(s, s, m, s1);
    var s2 := s1.(members := s1.members[m := Cas(sent, s.count)]);
    Goes(s, s1, m, s2);
    var s3 := s2.(count := s.count - 1,
                  members := s2.members[m := if s.count == 1 then CloseChannel(sent) else Finished(sent)]);
    Goes(s, s2, m, s3);
    if s.count == 1 {
      var s4 := s3.(closes := s.closes + 1, members := s3.members[m := Finished(sent)]);
      Goes(s, s3, m, s4);
    }
  }
}
