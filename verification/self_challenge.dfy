/**
 * The self-challenge entity: a joined challenge with its schedule, progress,
 * wager and a six-state machine. Posting a notification on the state's
 * channel is modelled by appending it to a log, and writes handed to the
 * remote store by appending them to a second log, so that "exactly one
 * notification" and "no write" can be stated.
 */
module SelfChallenges {
  import opened Wrappers
  import opened Constants

  /** The errors the challenge code throws or completes with. */
  datatype ChallengeError =
    | InvalidBet
    | InvalidChallengeType
    | InvalidCharityOrganization
    | InvalidDuration
    | InvalidStartDate
    | InvalidIsTopChallenge
    | InvalidProgress
    | InvalidGoal
    | UploadError

  /** An untyped value of a database record, as Swift's `Any` holds it.
      A double is modelled by the real number it denotes. */
  datatype Value = VInt(i: int) | VDouble(d: real) | VString(s: string) | VBool(b: bool)

  /** The states of a challenge; a notification channel is named after each. */
  datatype State = Idle | HasNotEntered | DidEnter | AlreadyEntered | DidFinish | DidUpdateProgress

  /** A challenge instant is an integer number of seconds. */
  datatype SelfChallenge = SelfChallenge(
    challengeId: string,
    challengeType: TypeOfChallenge,
    duration: Duration,
    startDate: int,
    progress: int,
    goal: int,
    state: State,
    charityOrganization: CharityOrganization,
    isTopChallenge: bool,
    bettingAmount: int)

  /** The end instant, derived from the start and the duration; never stored. */
  function EndDate(c: SelfChallenge): int
  {
    c.startDate + DurationInSeconds(c.duration)
  }

  /** One posted notification: the channel and the entity value it carries. */
  datatype Notification = Notification(channel: State, payload: SelfChallenge)

  /** A write handed to the remote store: a merge of child values, or a set of one value. */
  datatype Write =
    | UpdateChildValues(path: seq<string>, fields: map<string, Value>)
    | SetValue(path: seq<string>, value: Value)

  /** An entity value together with the notifications it has posted and the
      writes it has issued, oldest first. */
  datatype Session = Session(challenge: SelfChallenge, posted: seq<Notification>, issued: seq<Write>)

  /** Path of the challenge records. */
  const SelfChallengesPath: seq<string> := ["challenges", "self_challenges"]

  /** The two values agree on every stored field except the state. */
  predicate SameButState(a: SelfChallenge, b: SelfChallenge)
  {
    a.(state := b.state) == b
  }

  /** The two values agree on every stored field except the progress. */
  predicate SameButProgress(a: SelfChallenge, b: SelfChallenge)
  {
    a.(progress := b.progress) == b
  }

  /** Posts the current value on the channel of its state. */
  function StateDidChange(s: Session): Session
  {
    s.(posted := s.posted + [Notification(s.challenge.state, s.challenge)])
  }

  /** The initializer: stores the given fields, starts in `idle` and posts once
      on the idle channel; it issues no write. */
  function Create(
    challengeId: string,
    challengeType: TypeOfChallenge,
    duration: Duration,
    startDate: int,
    progress: int,
    goal: int,
    charityOrganization: CharityOrganization,
    isTopChallenge: bool,
    bettingAmount: int): (s: Session)
    ensures s.challenge.challengeId == challengeId && s.challenge.challengeType == challengeType
    ensures s.challenge.duration == duration && s.challenge.startDate == startDate
    ensures s.challenge.progress == progress && s.challenge.goal == goal
    ensures s.challenge.charityOrganization == charityOrganization
    ensures s.challenge.isTopChallenge == isTopChallenge && s.challenge.bettingAmount == bettingAmount
    ensures s.challenge.state == Idle
    ensures |s.posted| == 1 && s.posted[0].channel == Idle && s.posted[0].payload == s.challenge
    ensures s.issued == []
  {
    var c := SelfChallenge(challengeId, challengeType, duration, startDate, progress, goal,
                           Idle, charityOrganization, isTopChallenge, bettingAmount);
    StateDidChange(Session(c, [], []))
  }

  /** Assigning the state: the value changes in its state only, and exactly one
      notification is posted, on the new state's channel, carrying the value
      after the assignment. Re-assigning the current state posts again. */
  function SetState(s: Session, st: State): (r: Session)
    ensures r.challenge.state == st && SameButState(s.challenge, r.challenge)
    ensures |r.posted| == |s.posted| + 1 && r.posted[..|s.posted|] == s.posted
    ensures r.posted[|s.posted|] == Notification(st, r.challenge)
    ensures r.issued == s.issued
  {
    StateDidChange(s.(challenge := s.challenge.(state := st)))
  }

  /** `updateProgress`: the local progress becomes exactly `newProgress` (no
      clamping to the goal, no sign check), nothing else in the value changes,
      no notification is posted, and one write of the new value to the
      record's progress child is issued. */
  function UpdateProgress(s: Session, newProgress: int): (r: Session)
    ensures r.challenge.progress == newProgress && SameButProgress(s.challenge, r.challenge)
    ensures r.posted == s.posted
    ensures |r.issued| == |s.issued| + 1 && r.issued[..|s.issued|] == s.issued
    ensures r.issued[|s.issued|] ==
            SetValue(SelfChallengesPath + [s.challenge.challengeId, "progress"], VInt(newProgress))
  {
    var c := s.challenge.(progress := newProgress);
    Session(c, s.posted,
            s.issued + [SetValue(SelfChallengesPath + [c.challengeId, "progress"], VInt(newProgress))])
  }

  /** The field map of the challenge record `postChallenge` uploads; instants are
      rendered by `describe`, the platform's date description. */
  function UploadValues(c: SelfChallenge, describe: int -> string): map<string, Value>
  {
    map[
      "challenge_type" := VString(TypeRawValue(c.challengeType)),
      "duration_seconds" := VInt(DurationInSeconds(c.duration)),
      "start_date" := VString(describe(c.startDate)),
      "end_date" := VString(describe(EndDate(c))),
      "charity_organization" := VString(CharityRawValue(c.charityOrganization)),
      "betting_amount" := VInt(c.bettingAmount),
      "is_top_challenge" := VBool(c.isTopChallenge),
      "progress" := VInt(c.progress),
      "goal" := VInt(c.goal)
    ]
  }

  /** How far `postChallenge` got synchronously. */
  datatype Completion = AwaitingStore | CompletedWithError(error: ChallengeError)

  /** `postChallenge`, up to its first write. Without a signed-in user it
      completes with `uploadError` and issues nothing; with one it issues the
      merge of the challenge record under the challenge's id and waits for
      the store. No notification is posted either way. */
  function PostChallenge(s: Session, currentUser: Option<string>, describe: int -> string)
    : (r: (Completion, Session))
    ensures r.1.challenge == s.challenge && r.1.posted == s.posted
    ensures currentUser.None? <==> r.0 == CompletedWithError(UploadError)
    ensures currentUser.None? ==> r.1.issued == s.issued
    ensures currentUser.Some? ==>
              && r.0 == AwaitingStore
              && |r.1.issued| == |s.issued| + 1 && r.1.issued[..|s.issued|] == s.issued
              && r.1.issued[|s.issued|].UpdateChildValues?
              && r.1.issued[|s.issued|].path == SelfChallengesPath + [s.challenge.challengeId]
              && r.1.issued[|s.issued|].fields == UploadValues(s.challenge, describe)
  {
    match currentUser
    case None => (CompletedWithError(UploadError), s)
    case Some(_) =>
      var w := UpdateChildValues(SelfChallengesPath + [s.challenge.challengeId],
                                 UploadValues(s.challenge, describe));
      (AwaitingStore, s.(issued := s.issued + [w]))
  }

  /** The uploaded record carries exactly the nine record keys; the kind and
      organization tokens are the ones the raw-value constructors accept back,
      the numbers and flag are the stored ones, and the start and end dates are
      rendered from the start and the derived end instant. */
  lemma UploadValuesDescribeChallenge(c: SelfChallenge, describe: int -> string)
    ensures var m := UploadValues(c, describe);
            && m.Keys == {"challenge_type", "duration_seconds", "start_date", "end_date",
                          "charity_organization", "betting_amount", "is_top_challenge",
                          "progress", "goal"}
            && m["challenge_type"].VString? && TypeFromRaw(m["challenge_type"].s) == Some(c.challengeType)
            && m["charity_organization"].VString?
            && CharityFromRaw(m["charity_organization"].s) == Some(c.charityOrganization)
            && m["duration_seconds"] == VInt(DurationInSeconds(c.duration))
            && m["betting_amount"] == VInt(c.bettingAmount)
            && m["is_top_challenge"] == VBool(c.isTopChallenge)
            && m["progress"] == VInt(c.progress) && m["goal"] == VInt(c.goal)
            && m["start_date"] == VString(describe(c.startDate))
            && m["end_date"] == VString(describe(c.startDate + DurationInSeconds(c.duration)))
  {
    TypeRawRoundTrip(c.challengeType);
    CharityRawRoundTrip(c.charityOrganization);
  }

  /** The end instant follows the start by the duration's seconds, for every
      value whatever its progress or state, and neither a progress update nor a
      state assignment moves it. */
  lemma EndDateIsDerived(s: Session, st: State, v: int)
    ensures EndDate(s.challenge) - s.challenge.startDate == DurationInHours(s.challenge.duration) * 3600
    ensures EndDate(SetState(s, st).challenge) == EndDate(s.challenge)
    ensures EndDate(UpdateProgress(s, v).challenge) == EndDate(s.challenge)
  {
    DurationTablesAgree(s.challenge.duration);
  }

  /** Assigning the same state twice posts twice, with the same notification. */
  lemma ReassignPostsAgain(s: Session, st: State)
    ensures var r := SetState(SetState(s, st), st);
            && |r.posted| == |s.posted| + 2
            && r.posted[|s.posted|] == r.posted[|s.posted| + 1] == Notification(st, r.challenge)
  {
  }
}
