/**
 * The challenge factory: validates an untyped record into a self-challenge,
 * or throws the error of the first field, in a fixed order, that is missing,
 * of the wrong type or not a recognised token.
 */
module ChallengeFactory {
  import opened Wrappers
  import opened Constants
  import opened SelfChallenges

  /** A record as read from the store: field name to untyped value. */
  type Dict = map<string, Value>

  /** The `yyyy-MM-dd HH:mm:ss Z` date parser, left uninterpreted: it may
      reject a string, and yields an instant in seconds otherwise. */
  type DateParser = string -> Option<int>

  /** The factory knows the identifier of the challenge it builds. */
  datatype Challenge = Challenge(challengeId: string)

  // Swift's conditional casts `dict[key] as? T`: the value is present and of type T.

  function AsInt(d: Dict, key: string): Option<int>
  {
    if key in d && d[key].VInt? then Some(d[key].i) else None
  }

  function AsDouble(d: Dict, key: string): Option<real>
  {
    if key in d && d[key].VDouble? then Some(d[key].d) else None
  }

  function AsString(d: Dict, key: string): Option<string>
  {
    if key in d && d[key].VString? then Some(d[key].s) else None
  }

  function AsBool(d: Dict, key: string): Option<bool>
  {
    if key in d && d[key].VBool? then Some(d[key].b) else None
  }

  /** `selfChallenge(dict:)`: the guards in source order, first failure wins;
      on success the initializer builds the value, which posts on `idle`. */
  function Decode(factory: Challenge, dict: Dict, parseDate: DateParser)
    : (r: Result<Session, ChallengeError>)
    ensures r.Success? ==>
              var c := r.value.challenge;
              && c.challengeId == factory.challengeId
              && "betting_amount" in dict && dict["betting_amount"] == VInt(c.bettingAmount)
              && "challenge_type" in dict && dict["challenge_type"] == VString(TypeRawValue(c.challengeType))
              && "charity_organization" in dict
              && dict["charity_organization"] == VString(CharityRawValue(c.charityOrganization))
              && "duration_seconds" in dict && dict["duration_seconds"] == VDouble(DurationRawValue(c.duration))
              && "start_date" in dict && dict["start_date"].VString?
              && parseDate(dict["start_date"].s) == Some(c.startDate)
              && "is_top_challenge" in dict && dict["is_top_challenge"] == VBool(c.isTopChallenge)
              && "progress" in dict && dict["progress"] == VInt(c.progress)
              && "goal" in dict && dict["goal"] == VInt(c.goal)
              && c.state == Idle
              && r.value.posted == [Notification(Idle, c)]
              && r.value.issued == []
  {
    var bettingAmount :- GetBet(dict);
    var challengeType :- GetChallengeType(dict);
    var charity :- GetCharity(dict);
    var duration :- GetDuration(dict);
    var startDate :- GetStartDate(dict, parseDate);
    var isTopChallenge :- GetIsTopChallenge(dict);
    var progress :- GetProgress(dict);
    var goal :- GetGoal(dict);
    Success(Create(factory.challengeId, challengeType, duration, startDate, progress, goal,
                   charity, isTopChallenge, bettingAmount))
  }

  // One guard (or pair of guards) per field, each throwing the field's error.

  function GetBet(dict: Dict): (r: Result<int, ChallengeError>)
    ensures r.Success? <==> "betting_amount" in dict && dict["betting_amount"].VInt?
    ensures r.Success? ==> dict["betting_amount"] == VInt(r.value)
    ensures r.Failure? ==> r.error == InvalidBet
  {
    AsInt(dict, "betting_amount").ToResult(InvalidBet)
  }

  function GetChallengeType(dict: Dict): (r: Result<TypeOfChallenge, ChallengeError>)
    ensures r.Success? <==> "challenge_type" in dict && dict["challenge_type"].VString?
                            && TypeFromRaw(dict["challenge_type"].s).Some?
    ensures r.Success? ==> dict["challenge_type"] == VString(TypeRawValue(r.value))
    ensures r.Failure? ==> r.error == InvalidChallengeType
  {
    var challengeDescription :- AsString(dict, "challenge_type").ToResult(InvalidChallengeType);
    TypeFromRaw(challengeDescription).ToResult(InvalidChallengeType)
  }

  function GetCharity(dict: Dict): (r: Result<CharityOrganization, ChallengeError>)
    ensures r.Success? <==> "charity_organization" in dict && dict["charity_organization"].VString?
                            && CharityFromRaw(dict["charity_organization"].s).Some?
    ensures r.Success? ==> dict["charity_organization"] == VString(CharityRawValue(r.value))
    ensures r.Failure? ==> r.error == InvalidCharityOrganization
  {
    var charityString :- AsString(dict, "charity_organization").ToResult(InvalidCharityOrganization);
    CharityFromRaw(charityString).ToResult(InvalidCharityOrganization)
  }

  function GetDuration(dict: Dict): (r: Result<Duration, ChallengeError>)
    ensures r.Success? <==> "duration_seconds" in dict && dict["duration_seconds"].VDouble?
                            && DurationFromRaw(dict["duration_seconds"].d).Some?
    ensures r.Success? ==> dict["duration_seconds"] == VDouble(DurationRawValue(r.value))
    ensures r.Failure? ==> r.error == InvalidDuration
  {
    var durationDouble :- AsDouble(dict, "duration_seconds").ToResult(InvalidDuration);
    DurationFromRaw(durationDouble).ToResult(InvalidDuration)
  }

  function GetStartDate(dict: Dict, parseDate: DateParser): (r: Result<int, ChallengeError>)
    ensures r.Success? <==> "start_date" in dict && dict["start_date"].VString?
                            && parseDate(dict["start_date"].s).Some?
    ensures r.Success? ==> parseDate(dict["start_date"].s) == Some(r.value)
    ensures r.Failure? ==> r.error == InvalidStartDate
  {
    var startDateString :- AsString(dict, "start_date").ToResult(InvalidStartDate);
    parseDate(startDateString).ToResult(InvalidStartDate)
  }

  function GetIsTopChallenge(dict: Dict): (r: Result<bool, ChallengeError>)
    ensures r.Success? <==> "is_top_challenge" in dict && dict["is_top_challenge"].VBool?
    ensures r.Success? ==> dict["is_top_challenge"] == VBool(r.value)
    ensures r.Failure? ==> r.error == InvalidIsTopChallenge
  {
    AsBool(dict, "is_top_challenge").ToResult(InvalidIsTopChallenge)
  }

  function GetProgress(dict: Dict): (r: Result<int, ChallengeError>)
    ensures r.Success? <==> "progress" in dict && dict["progress"].VInt?
    ensures r.Success? ==> dict["progress"] == VInt(r.value)
    ensures r.Failure? ==> r.error == InvalidProgress
  {
    AsInt(dict, "progress").ToResult(InvalidProgress)
  }

  function GetGoal(dict: Dict): (r: Result<int, ChallengeError>)
    ensures r.Success? <==> "goal" in dict && dict["goal"].VInt?
    ensures r.Success? ==> dict["goal"] == VInt(r.value)
    ensures r.Failure? ==> r.error == InvalidGoal
  {
    AsInt(dict, "goal").ToResult(InvalidGoal)
  }

  // ---------------------------------------------------------------------
  // Reference definition: the fields, their order, and what makes each valid
  // ---------------------------------------------------------------------

  datatype Field = Bet | Kind | Charity | DurationSeconds | StartDate | TopFlag | Progress | Goal

  /** The order in which the fields are checked. */
  const FieldOrder: seq<Field> := [Bet, Kind, Charity, DurationSeconds, StartDate, TopFlag, Progress, Goal]

  function Key(f: Field): string
  {
    match f
    case Bet => "betting_amount"
    case Kind => "challenge_type"
    case Charity => "charity_organization"
    case DurationSeconds => "duration_seconds"
    case StartDate => "start_date"
    case TopFlag => "is_top_challenge"
    case Progress => "progress"
    case Goal => "goal"
  }

  /** Each field has its own error. */
  function ErrorOf(f: Field): ChallengeError
  {
    match f
    case Bet => InvalidBet
    case Kind => InvalidChallengeType
    case Charity => InvalidCharityOrganization
    case DurationSeconds => InvalidDuration
    case StartDate => InvalidStartDate
    case TopFlag => InvalidIsTopChallenge
    case Progress => InvalidProgress
    case Goal => InvalidGoal
  }

  /** Whether a value is acceptable for a field: of the expected type and,
      for tokens, a recognised one. */
  predicate ValueOk(f: Field, v: Value, parseDate: DateParser)
  {
    match f
    case Bet => v.VInt?
    case Kind => v.VString? && TypeFromRaw(v.s).Some?
    case Charity => v.VString? && CharityFromRaw(v.s).Some?
    case DurationSeconds => v.VDouble? && DurationFromRaw(v.d).Some?
    case StartDate => v.VString? && parseDate(v.s).Some?
    case TopFlag => v.VBool?
    case Progress => v.VInt?
    case Goal => v.VInt?
  }

  predicate FieldValid(f: Field, dict: Dict, parseDate: DateParser)
  {
    Key(f) in dict && ValueOk(f, dict[Key(f)], parseDate)
  }

  /** The position of the first invalid field of `fs`, if any. */
  function FirstInvalid(fs: seq<Field>, dict: Dict, parseDate: DateParser): (r: Option<nat>)
    ensures r.None? <==> forall i :: 0 <= i < |fs| ==> FieldValid(fs[i], dict, parseDate)
    ensures r.Some? ==> r.value < |fs| && !FieldValid(fs[r.value], dict, parseDate)
    ensures r.Some? ==> forall j :: 0 <= j < r.value ==> FieldValid(fs[j], dict, parseDate)
    decreases |fs|
  {
    if fs == [] then None
    else if !FieldValid(fs[0], dict, parseDate) then Some(0)
    else match FirstInvalid(fs[1..], dict, parseDate)
      case None => None
      case Some(i) => Some(i + 1)
  }

  /** On the fixed order, the first invalid field is found by checking the
      fields one after another. */
  lemma FirstInvalidInOrder(dict: Dict, parseDate: DateParser)
    ensures FirstInvalid(FieldOrder, dict, parseDate) ==
      if !FieldValid(Bet, dict, parseDate) then Some(0)
      else if !FieldValid(Kind, dict, parseDate) then Some(1)
      else if !FieldValid(Charity, dict, parseDate) then Some(2)
      else if !FieldValid(DurationSeconds, dict, parseDate) then Some(3)
      else if !FieldValid(StartDate, dict, parseDate) then Some(4)
      else if !FieldValid(TopFlag, dict, parseDate) then Some(5)
      else if !FieldValid(Progress, dict, parseDate) then Some(6)
      else if !FieldValid(Goal, dict, parseDate) then Some(7)
      else None
  {
  }

  /** Each guard passes exactly when its field is valid. */
  lemma GuardsCheckValidity(dict: Dict, parseDate: DateParser)
    ensures GetBet(dict).Success? <==> FieldValid(Bet, dict, parseDate)
    ensures GetChallengeType(dict).Success? <==> FieldValid(Kind, dict, parseDate)
    ensures GetCharity(dict).Success? <==> FieldValid(Charity, dict, parseDate)
    ensures GetDuration(dict).Success? <==> FieldValid(DurationSeconds, dict, parseDate)
    ensures GetStartDate(dict, parseDate).Success? <==> FieldValid(StartDate, dict, parseDate)
    ensures GetIsTopChallenge(dict).Success? <==> FieldValid(TopFlag, dict, parseDate)
    ensures GetProgress(dict).Success? <==> FieldValid(Progress, dict, parseDate)
    ensures GetGoal(dict).Success? <==> FieldValid(Goal, dict, parseDate)
  {
  }

  /** The position of the first failing guard, in source order. */
  function FirstFailingGuard(dict: Dict, parseDate: DateParser): Option<nat>
  {
    if GetBet(dict).Failure? then Some(0)
    else if GetChallengeType(dict).Failure? then Some(1)
    else if GetCharity(dict).Failure? then Some(2)
    else if GetDuration(dict).Failure? then Some(3)
    else if GetStartDate(dict, parseDate).Failure? then Some(4)
    else if GetIsTopChallenge(dict).Failure? then Some(5)
    else if GetProgress(dict).Failure? then Some(6)
    else if GetGoal(dict).Failure? then Some(7)
    else None
  }

  /** Decoding stops at the first failing guard and throws its error. */
  lemma DecodeStopsAtFirstFailingGuard(factory: Challenge, dict: Dict, parseDate: DateParser)
    ensures var r := Decode(factory, dict, parseDate);
            var g := FirstFailingGuard(dict, parseDate);
            && (r.Failure? <==> g.Some?)
            && (g.Some? ==> g.value < |FieldOrder| && r.error == ErrorOf(FieldOrder[g.value]))
  {
  }

  /** The first failing guard is the first invalid field. */
  lemma FirstFailingGuardIsFirstInvalid(dict: Dict, parseDate: DateParser)
    ensures FirstFailingGuard(dict, parseDate) == FirstInvalid(FieldOrder, dict, parseDate)
  {
    FirstInvalidInOrder(dict, parseDate);
    GuardsCheckValidity(dict, parseDate);
  }

  /** Validation is first-failure-wins in the fixed order: decoding fails
      exactly when some field is invalid, and then with the error of the
      first invalid field. */
  lemma DecodeFirstFailureWins(factory: Challenge, dict: Dict, parseDate: DateParser)
    ensures var r := Decode(factory, dict, parseDate);
            var k := FirstInvalid(FieldOrder, dict, parseDate);
            && (r.Failure? <==> k.Some?)
            && (k.Some? ==> r.error == ErrorOf(FieldOrder[k.value]))
  {
    DecodeStopsAtFirstFailingGuard(factory, dict, parseDate);
    FirstFailingGuardIsFirstInvalid(dict, parseDate);
  }

  // ---------------------------------------------------------------------
  // Later fields are never examined
  // ---------------------------------------------------------------------

  /** The two records hold the same value, or both lack one, under `key`. */
  predicate AgreeOn(d1: Dict, d2: Dict, key: string)
  {
    (key in d1 <==> key in d2) && (key in d1 ==> d1[key] == d2[key])
  }

  /** How many fields, in order, decoding looks at: up to and including the
      first invalid one, or all of them. */
  function Examined(dict: Dict, parseDate: DateParser): (n: nat)
    ensures 0 < n <= |FieldOrder|
  {
    match FirstInvalid(FieldOrder, dict, parseDate)
    case Some(i) => i + 1
    case None => |FieldOrder|
  }

  /** The examined fields are those up to the first failing guard. */
  lemma ExaminedUpToFirstFailingGuard(dict: Dict, parseDate: DateParser)
    ensures Examined(dict, parseDate) ==
            match FirstFailingGuard(dict, parseDate)
            case Some(i) => i + 1
            case None => |FieldOrder|
  {
    FirstFailingGuardIsFirstInvalid(dict, parseDate);
  }

  /** Agreement on the keys of the first `n` fields, spelled out key by key. */
  lemma AgreementOnPrefix(d1: Dict, d2: Dict, n: nat)
    requires n <= |FieldOrder|
    requires forall j :: 0 <= j < n ==> AgreeOn(d1, d2, Key(FieldOrder[j]))
    ensures n > 0 ==> AgreeOn(d1, d2, "betting_amount")
    ensures n > 1 ==> AgreeOn(d1, d2, "challenge_type")
    ensures n > 2 ==> AgreeOn(d1, d2, "charity_organization")
    ensures n > 3 ==> AgreeOn(d1, d2, "duration_seconds")
    ensures n > 4 ==> AgreeOn(d1, d2, "start_date")
    ensures n > 5 ==> AgreeOn(d1, d2, "is_top_challenge")
    ensures n > 6 ==> AgreeOn(d1, d2, "progress")
    ensures n > 7 ==> AgreeOn(d1, d2, "goal")
  {
    assert Key(FieldOrder[0]) == "betting_amount";
    assert Key(FieldOrder[1]) == "challenge_type";
    assert Key(FieldOrder[2]) == "charity_organization";
    assert Key(FieldOrder[3]) == "duration_seconds";
    assert Key(FieldOrder[4]) == "start_date";
    assert Key(FieldOrder[5]) == "is_top_challenge";
    assert Key(FieldOrder[6]) == "progress";
    assert Key(FieldOrder[7]) == "goal";
  }

  /** Decoding is determined by the guards' results up to the first failing one. */
  lemma DecodeDeterminedByGuards(factory: Challenge, d1: Dict, d2: Dict, parseDate: DateParser)
    requires GetBet(d1) == GetBet(d2)
    requires GetBet(d1).Success? ==> GetChallengeType(d1) == GetChallengeType(d2)
    requires FirstFailingGuard(d1, parseDate) != Some(0) && FirstFailingGuard(d1, parseDate) != Some(1)
             ==> GetCharity(d1) == GetCharity(d2)
    requires FirstFailingGuard(d1, parseDate).None? || FirstFailingGuard(d1, parseDate).value > 2
             ==> GetDuration(d1) == GetDuration(d2)
    requires FirstFailingGuard(d1, parseDate).None? || FirstFailingGuard(d1, parseDate).value > 3
             ==> GetStartDate(d1, parseDate) == GetStartDate(d2, parseDate)
    requires FirstFailingGuard(d1, parseDate).None? || FirstFailingGuard(d1, parseDate).value > 4
             ==> GetIsTopChallenge(d1) == GetIsTopChallenge(d2)
    requires FirstFailingGuard(d1, parseDate).None? || FirstFailingGuard(d1, parseDate).value > 5
             ==> GetProgress(d1) == GetProgress(d2)
    requires FirstFailingGuard(d1, parseDate).None? || FirstFailingGuard(d1, parseDate).value > 6
             ==> GetGoal(d1) == GetGoal(d2)
    ensures Decode(factory, d2, parseDate) == Decode(factory, d1, parseDate)
  {
  }

  /** Each guard reads only its own key. */
  lemma GuardsReadOwnKey(d1: Dict, d2: Dict, parseDate: DateParser)
    ensures AgreeOn(d1, d2, "betting_amount") ==> GetBet(d1) == GetBet(d2)
    ensures AgreeOn(d1, d2, "challenge_type") ==> GetChallengeType(d1) == GetChallengeType(d2)
    ensures AgreeOn(d1, d2, "charity_organization") ==> GetCharity(d1) == GetCharity(d2)
    ensures AgreeOn(d1, d2, "duration_seconds") ==> GetDuration(d1) == GetDuration(d2)
    ensures AgreeOn(d1, d2, "start_date") ==> GetStartDate(d1, parseDate) == GetStartDate(d2, parseDate)
    ensures AgreeOn(d1, d2, "is_top_challenge") ==> GetIsTopChallenge(d1) == GetIsTopChallenge(d2)
    ensures AgreeOn(d1, d2, "progress") ==> GetProgress(d1) == GetProgress(d2)
    ensures AgreeOn(d1, d2, "goal") ==> GetGoal(d1) == GetGoal(d2)
  {
  }

  /** Decoding depends only on the fields it examines: a record that agrees on
      those keys decodes to the same result, whatever it holds elsewhere. */
  lemma DecodeIgnoresLaterFields(factory: Challenge, d1: Dict, d2: Dict, parseDate: DateParser)
    requires forall j :: 0 <= j < Examined(d1, parseDate) ==> AgreeOn(d1, d2, Key(FieldOrder[j]))
    ensures Decode(factory, d2, parseDate) == Decode(factory, d1, parseDate)
  {
    ExaminedUpToFirstFailingGuard(d1, parseDate);
    AgreementOnPrefix(d1, d2, Examined(d1, parseDate));
    GuardsReadOwnKey(d1, d2, parseDate);
    DecodeDeterminedByGuards(factory, d1, d2, parseDate);
  }

  // ---------------------------------------------------------------------
  // Missing, mistyped and unrecognised values give the same error
  // ---------------------------------------------------------------------

  /** The record with the value under `key` removed (`None`) or replaced. */
  function Replace(d: Dict, key: string, v: Option<Value>): Dict
  {
    match v
    case None => d - {key}
    case Some(x) => d[key := x]
  }

  /** Distinct fields have distinct keys, and the order lists each field once. */
  lemma KeysDistinct(i: nat, j: nat)
    requires i < |FieldOrder| && j < |FieldOrder| && i != j
    ensures Key(FieldOrder[i]) != Key(FieldOrder[j])
  {
  }

  /** Whatever is wrong with the value of the field at position `i`, given
      that the fields before it are valid: the key is missing, or its value
      has the wrong type, or it is a string that names no case, or a date the
      parser rejects, decoding throws that field's own error. */
  lemma EveryFailureModeSameError(factory: Challenge, d: Dict, parseDate: DateParser, i: nat, v: Option<Value>)
    requires i < |FieldOrder|
    requires forall j :: 0 <= j < i ==> FieldValid(FieldOrder[j], d, parseDate)
    requires v.None? || !ValueOk(FieldOrder[i], v.value, parseDate)
    ensures Decode(factory, Replace(d, Key(FieldOrder[i]), v), parseDate) == Failure(ErrorOf(FieldOrder[i]))
  {
    var key := Key(FieldOrder[i]);
    var d' := Replace(d, key, v);
    forall j | 0 <= j < i
      ensures FieldValid(FieldOrder[j], d', parseDate)
    {
      KeysDistinct(i, j);
      assert AgreeOn(d, d', Key(FieldOrder[j]));
    }
    assert !FieldValid(FieldOrder[i], d', parseDate);
    DecodeFirstFailureWins(factory, d', parseDate);
  }

  /** A string where the bet should be is an invalid bet, however the rest of
      the record looks; here the record holds nothing else. */
  lemma EmptyStringIsInvalidBet(parseDate: DateParser)
    ensures Decode(Challenge("1"), map["betting_amount" := VString("")], parseDate) == Failure(InvalidBet)
  {
  }

  // ---------------------------------------------------------------------
  // Round trip: the record a challenge decodes from
  // ---------------------------------------------------------------------

  /** The record shape the decoder reads, holding the fields of `c`; instants
      are rendered by `render`. */
  function Record(c: SelfChallenge, render: int -> string): Dict
  {
    map[
      "betting_amount" := VInt(c.bettingAmount),
      "challenge_type" := VString(TypeRawValue(c.challengeType)),
      "charity_organization" := VString(CharityRawValue(c.charityOrganization)),
      "duration_seconds" := VDouble(DurationRawValue(c.duration)),
      "start_date" := VString(render(c.startDate)),
      "is_top_challenge" := VBool(c.isTopChallenge),
      "progress" := VInt(c.progress),
      "goal" := VInt(c.goal)
    ]
  }

  /** Decoding the record of a challenge gives back that challenge, in state
      `idle`, exactly when the date parser reads the rendered start instant
      back to the same instant; otherwise the start date is lost or changed. */
  lemma RecordRoundTrip(c: SelfChallenge, render: int -> string, parseDate: DateParser)
    ensures var r := Decode(Challenge(c.challengeId), Record(c, render), parseDate);
            (r.Success? && r.value.challenge == c.(state := Idle))
            <==> parseDate(render(c.startDate)) == Some(c.startDate)
    ensures parseDate(render(c.startDate)).None? ==>
              Decode(Challenge(c.challengeId), Record(c, render), parseDate) == Failure(InvalidStartDate)
  {
    TypeRawRoundTrip(c.challengeType);
    CharityRawRoundTrip(c.charityOrganization);
    DurationRawRoundTrip(c.duration);
  }

  /** The record `postChallenge` uploads matches the decoder's record shape on
      every key but one: it stores the duration as integer seconds where the
      decoder reads a double, and adds a rendered end date. */
  lemma UploadedRecordShape(c: SelfChallenge, describe: int -> string)
    ensures var up := UploadValues(c, describe);
            var rec := Record(c, describe);
            && rec.Keys + {"end_date"} == up.Keys
            && (forall k :: k in rec && k != "duration_seconds" ==> up[k] == rec[k])
            && up["duration_seconds"] == VInt(DurationInSeconds(c.duration))
            && rec["duration_seconds"] == VDouble(DurationInSeconds(c.duration) as real)
  {
    DurationTablesAgree(c.duration);
  }

  /** Read with the decoder's strict casts, the uploaded record passes the bet,
      kind and organization guards and then fails the duration guard, since
      its duration is an integer and not a double. */
  lemma UploadedRecordFailsStrictDecode(c: SelfChallenge, describe: int -> string, parseDate: DateParser)
    ensures Decode(Challenge(c.challengeId), UploadValues(c, describe), parseDate) == Failure(InvalidDuration)
  {
    TypeRawRoundTrip(c.challengeType);
    CharityRawRoundTrip(c.charityOrganization);
  }

  // ---------------------------------------------------------------------
  // The unit-test fixture
  // ---------------------------------------------------------------------

  const MockStartDate: string := "2020-07-06 14:38:33 +0000"

  /** The "valid" fixture of the unit tests, as written: it has no progress
      and no goal. */
  const MockValidDict: Dict := map[
    "betting_amount" := VInt(20),
    "challenge_type" := VString("mostCaloriesBurnt"),
    "charity_organization" := VString("hjartOchLungFonden"),
    "duration_seconds" := VDouble(86400.0),
    "start_date" := VString(MockStartDate),
    "is_top_challenge" := VBool(true)
  ]

  /** The fixture as written does not decode: once its date parses, the
      missing progress throws `invalidProgress`, although the test expects no
      error. */
  lemma MockValidDictIsRejected(parseDate: DateParser)
    ensures Decode(Challenge("1"), MockValidDict, parseDate)
            == Failure(if parseDate(MockStartDate).Some? then InvalidProgress else InvalidStartDate)
  {
  }

  /** The fixture completed with a progress and a goal. */
  const CompletedMockDict: Dict := MockValidDict["progress" := VInt(0)]["goal" := VInt(500)]

  /** The completed fixture decodes to the twenty-four-hour, 20-unit bet,
      burnt-calories challenge for Hjärt- & Lungfonden. */
  lemma CompletedMockDictDecodes(parseDate: DateParser)
    requires parseDate(MockStartDate).Some?
    ensures var r := Decode(Challenge("1"), CompletedMockDict, parseDate);
            && r.Success?
            && r.value.challenge == SelfChallenge("1", TypeOfChallenge.MostCaloriesBurnt, TwentyFourHours,
                                                  parseDate(MockStartDate).value, 0, 500, Idle,
                                                  HjartOchLungFonden, true, 20)
  {
  }
}
