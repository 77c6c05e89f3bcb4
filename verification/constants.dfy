/**
 * The closed enumerations of the app's constant tables: the kind of a
 * challenge, the charity organization that receives the wager, the goal
 * presets and the challenge duration. Every derived property is a pure
 * function of the variant; the raw-value constructors are the partial
 * inverses the record validator uses.
 */
module Constants {
  import opened Wrappers

  // ---------------------------------------------------------------------
  // TypeOfChallenge: a String-backed enum
  // ---------------------------------------------------------------------

  datatype TypeOfChallenge = MostCaloriesBurnt | MaxSteps

  /** The raw value of a case: its name. */
  function TypeRawValue(t: TypeOfChallenge): string
  {
    match t
    case MostCaloriesBurnt => "mostCaloriesBurnt"
    case MaxSteps => "maxSteps"
  }

  /** `TypeOfChallenge(rawValue:)`: accepts exactly the two case names. */
  function TypeFromRaw(s: string): (r: Option<TypeOfChallenge>)
    ensures r.Some? <==> (s == "mostCaloriesBurnt" || s == "maxSteps")
    ensures r.Some? ==> TypeRawValue(r.value) == s
  {
    if s == "mostCaloriesBurnt" then Some(TypeOfChallenge.MostCaloriesBurnt)
    else if s == "maxSteps" then Some(TypeOfChallenge.MaxSteps)
    else None
  }

  /** Base progress of a challenge kind. */
  function BaseProgress(t: TypeOfChallenge): int
  {
    match t
    case MostCaloriesBurnt => 0
    case _ => 0
  }

  /** Every case's raw value is accepted back and names that case. */
  lemma TypeRawRoundTrip(t: TypeOfChallenge)
    ensures TypeFromRaw(TypeRawValue(t)) == Some(t)
  {
  }

  /** The two raw values are distinct, so a raw value identifies its case. */
  lemma TypeRawValueInjective(t: TypeOfChallenge, u: TypeOfChallenge)
    ensures TypeRawValue(t) == TypeRawValue(u) ==> t == u
  {
  }

  /** The base progress is zero whatever the kind. */
  lemma BaseProgressIsZero(t: TypeOfChallenge)
    ensures BaseProgress(t) == 0
  {
  }

  // ---------------------------------------------------------------------
  // CharityOrganization: a String-backed enum with one case
  // ---------------------------------------------------------------------

  datatype CharityOrganization = HjartOchLungFonden

  function CharityRawValue(o: CharityOrganization): string
  {
    "hjartOchLungFonden"
  }

  /** `CharityOrganization(rawValue:)`: accepts only the single case name. */
  function CharityFromRaw(s: string): (r: Option<CharityOrganization>)
    ensures r.Some? <==> s == "hjartOchLungFonden"
    ensures r.Some? ==> CharityRawValue(r.value) == s
  {
    if s == "hjartOchLungFonden" then Some(HjartOchLungFonden) else None
  }

  function CharityName(o: CharityOrganization): string
  {
    match o
    case HjartOchLungFonden => "Hjärt- & Lungfonden"
  }

  /** The database identifier of the organization; not its raw value. */
  function CharityId(o: CharityOrganization): string
  {
    match o
    case HjartOchLungFonden => "1"
  }

  /** The Swish payment number donations are routed to. */
  function SwishNumber(o: CharityOrganization): int
  {
    match o
    case HjartOchLungFonden => 9091927
  }

  function LogotypeImagePath(o: CharityOrganization): string
  {
    match o
    case HjartOchLungFonden => "gs://benefitter-76af5.appspot.com/charity_organizations/logotypes/1/HLF-logotyp.png"
  }

  function ChallengeInfo(o: CharityOrganization): string
  {
    match o
    case HjartOchLungFonden => "Aid the fight against heart and lung disease by joining this challenge"
  }

  function TopChallengeType(o: CharityOrganization): TypeOfChallenge
  {
    match o
    case HjartOchLungFonden => TypeOfChallenge.MostCaloriesBurnt
  }

  function TopChallengeGoal(o: CharityOrganization): int
  {
    match o
    case HjartOchLungFonden => 500
  }

  function TopChallengeBet(o: CharityOrganization): int
  {
    match o
    case HjartOchLungFonden => 20
  }

  function TopChallengeDuration(o: CharityOrganization): Duration
  {
    match o
    case HjartOchLungFonden => TwentyFourHours
  }

  lemma CharityRawRoundTrip(o: CharityOrganization)
    ensures CharityFromRaw(CharityRawValue(o)) == Some(o)
  {
  }

  /** The organization's identifier "1" and payment number, and that the
      identifier used for database paths is not the raw value used in records. */
  lemma CharityIdentity(o: CharityOrganization)
    ensures CharityId(o) == "1" && SwishNumber(o) == 9091927
    ensures CharityId(o) != CharityRawValue(o)
  {
  }

  /** The organization's public information, as uploaded and displayed. */
  lemma CharityInfoTable(o: CharityOrganization)
    ensures CharityName(o) == "Hjärt- & Lungfonden"
    ensures LogotypeImagePath(o) == "gs://benefitter-76af5.appspot.com/charity_organizations/logotypes/1/HLF-logotyp.png"
    ensures ChallengeInfo(o) == "Aid the fight against heart and lung disease by joining this challenge"
  {
  }

  /** The fixed parameters of Hjärt- & Lungfonden's top challenge. */
  lemma HjartOchLungFondenTopChallenge()
    ensures TopChallengeType(HjartOchLungFonden) == TypeOfChallenge.MostCaloriesBurnt
    ensures TopChallengeGoal(HjartOchLungFonden) == 500
    ensures TopChallengeBet(HjartOchLungFonden) == 20
    ensures TopChallengeDuration(HjartOchLungFonden) == TwentyFourHours
  {
  }

  // ---------------------------------------------------------------------
  // ChallengeGoal: goal presets per kind (no raw values)
  // ---------------------------------------------------------------------

  datatype ChallengeGoal = MostCaloriesBurnt | MaxSteps

  function GoalTopChallengeGoal(g: ChallengeGoal): int
  {
    match g
    case MaxSteps => 10000
    case MostCaloriesBurnt => 500
  }

  function GoalTopChallengeBet(g: ChallengeGoal): int
  {
    match g
    case MaxSteps => 20
    case MostCaloriesBurnt => 20
  }

  function GoalDescription(g: ChallengeGoal): string
  {
    match g
    case MostCaloriesBurnt => "calories"
    case MaxSteps => "steps"
  }

  /** The presets: 500 calories or 10000 steps, each with a bet of 20. */
  lemma GoalPresets(g: ChallengeGoal)
    ensures GoalTopChallengeBet(g) == 20
    ensures GoalTopChallengeGoal(g) == (if g == ChallengeGoal.MaxSteps then 10000 else 500)
    ensures GoalDescription(g) == (if g == ChallengeGoal.MaxSteps then "steps" else "calories")
  {
  }

  /** The goal preset for burnt calories agrees with the organization's top
      challenge, whose kind is burnt calories. */
  lemma CaloriesGoalMatchesTopChallenge(o: CharityOrganization)
    ensures TopChallengeType(o) == TypeOfChallenge.MostCaloriesBurnt
    ensures GoalTopChallengeGoal(ChallengeGoal.MostCaloriesBurnt) == TopChallengeGoal(o)
    ensures GoalTopChallengeBet(ChallengeGoal.MostCaloriesBurnt) == TopChallengeBet(o)
  {
  }

  // ---------------------------------------------------------------------
  // Duration: a TimeInterval-backed enum with one case
  // ---------------------------------------------------------------------

  datatype Duration = TwentyFourHours

  /** The raw value, a double; a finite double is modelled by the real it denotes. */
  function DurationRawValue(d: Duration): real
  {
    86400.0
  }

  /** `Duration(rawValue:)`: accepts 86400 and nothing else. */
  function DurationFromRaw(x: real): (r: Option<Duration>)
    ensures r.Some? <==> x == 86400.0
    ensures r.Some? ==> DurationRawValue(r.value) == x
  {
    if x == 86400.0 then Some(TwentyFourHours) else None
  }

  /** Length in whole seconds (instants are modelled as integer seconds). */
  function DurationInSeconds(d: Duration): int
  {
    match d
    case TwentyFourHours => 86400
  }

  function DurationInHours(d: Duration): int
  {
    match d
    case TwentyFourHours => 24
  }

  lemma DurationRawRoundTrip(d: Duration)
    ensures DurationFromRaw(DurationRawValue(d)) == Some(d)
  {
  }

  /** The seconds and hours tables agree with each other and with the raw value. */
  lemma DurationTablesAgree(d: Duration)
    ensures DurationInSeconds(d) == DurationInHours(d) * 3600
    ensures DurationRawValue(d) == DurationInSeconds(d) as real
    ensures DurationInSeconds(d) > 0
  {
  }

  lemma TwentyFourHoursValues()
    ensures DurationRawValue(TwentyFourHours) == 86400.0
    ensures DurationInSeconds(TwentyFourHours) == 86400
    ensures DurationInHours(TwentyFourHours) == 24
  {
  }
}
