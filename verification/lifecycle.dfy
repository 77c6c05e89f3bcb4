/**
 * Any sequence of the caller's operations on a self-challenge: state
 * assignments and progress updates. The schedule and identity never change,
 * every assignment posts exactly one notification on its own channel, and
 * progress updates post none.
 */
module Lifecycle {
  import opened Constants
  import opened SelfChallenges

  /** One operation a caller performs on a challenge. */
  datatype Command = Assign(state: State) | SetProgress(value: int)

  function Apply(s: Session, cmd: Command): Session
  {
    match cmd
    case Assign(st) => SetState(s, st)
    case SetProgress(v) => UpdateProgress(s, v)
  }

  /** Performs the commands in order. */
  function Run(s: Session, cmds: seq<Command>): Session
    decreases |cmds|
  {
    if cmds == [] then s else Run(Apply(s, cmds[0]), cmds[1..])
  }

  /** The states the commands assign, in order. */
  function Assigned(cmds: seq<Command>): seq<State>
    decreases |cmds|
  {
    if cmds == [] then []
    else if cmds[0].Assign? then [cmds[0].state] + Assigned(cmds[1..])
    else Assigned(cmds[1..])
  }

  /** The number of progress updates among the commands. */
  function ProgressUpdates(cmds: seq<Command>): nat
    decreases |cmds|
  {
    if cmds == [] then 0
    else (if cmds[0].SetProgress? then 1 else 0) + ProgressUpdates(cmds[1..])
  }

  function Channels(log: seq<Notification>): seq<State>
    decreases |log|
  {
    if log == [] then [] else [log[0].channel] + Channels(log[1..])
  }

  /** The identity and schedule of a challenge: what no operation changes. */
  predicate SameSchedule(a: SelfChallenge, b: SelfChallenge)
  {
    && a.challengeId == b.challengeId
    && a.challengeType == b.challengeType
    && a.duration == b.duration
    && a.startDate == b.startDate
    && a.goal == b.goal
    && a.charityOrganization == b.charityOrganization
    && a.isTopChallenge == b.isTopChallenge
    && a.bettingAmount == b.bettingAmount
  }

  /** Every notification in the log went out on the channel of the state its
      payload holds, and carries the challenge with the given id. */
  predicate Consistent(log: seq<Notification>, id: string)
  {
    forall i :: 0 <= i < |log| ==> log[i].payload.state == log[i].channel && log[i].payload.challengeId == id
  }

  lemma ChannelsAppend(a: seq<Notification>, b: seq<Notification>)
    ensures Channels(a + b) == Channels(a) + Channels(b)
    decreases |a|
  {
    if a == [] {
      assert a + b == b;
    } else {
      assert (a + b)[0] == a[0];
      assert (a + b)[1..] == a[1..] + b;
      ChannelsAppend(a[1..], b);
    }
  }

  /** Identity, kind, duration, start, goal, charity, top flag and bet survive
      any sequence of operations, and so does the derived end instant. */
  lemma {:induction false} RunKeepsSchedule(s: Session, cmds: seq<Command>)
    ensures SameSchedule(Run(s, cmds).challenge, s.challenge)
    ensures EndDate(Run(s, cmds).challenge) == EndDate(s.challenge)
    decreases |cmds|
  {
    if cmds != [] {
      RunKeepsSchedule(Apply(s, cmds[0]), cmds[1..]);
    }
  }

  /** The operations only append to the notification log, one notification
      per state assignment and on the assigned state's channel, in order;
      they only append to the write log, one write per progress update. */
  lemma {:induction false} RunPostsOncePerAssignment(s: Session, cmds: seq<Command>)
    ensures var r := Run(s, cmds);
            && |r.posted| == |s.posted| + |Assigned(cmds)|
            && r.posted[..|s.posted|] == s.posted
            && Channels(r.posted[|s.posted|..]) == Assigned(cmds)
            && |r.issued| == |s.issued| + ProgressUpdates(cmds)
            && r.issued[..|s.issued|] == s.issued
    decreases |cmds|
  {
    if cmds != [] {
      var s1 := Apply(s, cmds[0]);
      RunPostsOncePerAssignment(s1, cmds[1..]);
      var r := Run(s1, cmds[1..]);
      assert r == Run(s, cmds);
      assert r.posted[..|s.posted|] == s.posted by {
        assert r.posted[..|s1.posted|][..|s.posted|] == s1.posted[..|s.posted|];
      }
      assert r.issued[..|s.issued|] == s.issued by {
        assert r.issued[..|s1.issued|][..|s.issued|] == s1.issued[..|s.issued|];
      }
      var fresh1 := s1.posted[|s.posted|..];
      assert r.posted[|s.posted|..] == fresh1 + r.posted[|s1.posted|..];
      ChannelsAppend(fresh1, r.posted[|s1.posted|..]);
      if cmds[0].Assign? {
        assert fresh1 == [Notification(cmds[0].state, s1.challenge)];
      } else {
        assert fresh1 == [];
      }
    }
  }

  /** Starting from a consistent log, every operation keeps the log
      consistent: no notification ever carries a state other than its
      channel's, or another challenge. */
  lemma {:induction false} RunKeepsLogConsistent(s: Session, cmds: seq<Command>)
    requires Consistent(s.posted, s.challenge.challengeId)
    ensures Consistent(Run(s, cmds).posted, s.challenge.challengeId)
    decreases |cmds|
  {
    if cmds != [] {
      var s1 := Apply(s, cmds[0]);
      assert s1.challenge.challengeId == s.challenge.challengeId;
      assert Consistent(s1.posted, s.challenge.challengeId);
      RunKeepsLogConsistent(s1, cmds[1..]);
    }
  }

  /** A freshly constructed challenge satisfies the log invariant. */
  lemma CreateIsConsistent(
    challengeId: string, challengeType: TypeOfChallenge, duration: Duration, startDate: int,
    progress: int, goal: int, charity: CharityOrganization, isTop: bool, bet: int)
    ensures var s := Create(challengeId, challengeType, duration, startDate, progress, goal, charity, isTop, bet);
            Consistent(s.posted, challengeId)
  {
  }

  /** Progress updates alone post nothing, and the last one decides the
      progress, unclamped. */
  lemma {:induction false} ProgressOnlyPostsNothing(s: Session, vs: seq<int>)
    ensures var r := Run(s, seq(|vs|, i requires 0 <= i < |vs| => SetProgress(vs[i])));
            && r.posted == s.posted
            && r.challenge.state == s.challenge.state
            && (vs != [] ==> r.challenge.progress == vs[|vs| - 1])
            && (vs == [] ==> r.challenge.progress == s.challenge.progress)
    decreases |vs|
  {
    var cmds := seq(|vs|, i requires 0 <= i < |vs| => SetProgress(vs[i]));
    if vs != [] {
      var s1 := UpdateProgress(s, vs[0]);
      assert cmds[1..] == seq(|vs[1..]|, i requires 0 <= i < |vs[1..]| => SetProgress(vs[1..][i]));
      ProgressOnlyPostsNothing(s1, vs[1..]);
      if |vs| > 1 {
        assert vs[1..][|vs[1..]| - 1] == vs[|vs| - 1];
      }
    }
  }
}
