# BeneFitter challenge core, modelled in Dafny

BeneFitter is an iOS fitness-charity app. A user joins a time-boxed challenge, for example "burn 500 calories in 24 hours". The challenge carries a wager for a charity organization. This project models the small sequential core of the app:

- **Constant tables** (`constants.dfy`, module `Constants`). These are the closed enums `TypeOfChallenge`, `CharityOrganization`, `ChallengeGoal` and `Duration`. `TypeOfChallenge`, `CharityOrganization` and `Duration` each have raw values and raw-value constructors (partial inverses). `ChallengeGoal` has no raw type. All four have derived fields.
- **The self-challenge entity** (`self_challenge.dfy`, module `SelfChallenges`). It covers the stored fields, the derived end instant and the six-state machine. Posting a notification on the state's channel is modelled as appending `(channel, value)` to a log. It also covers `updateProgress` and `postChallenge` up to its first write.
- **The challenge factory** (`factory.dfy`, module `ChallengeFactory`). `Challenge.selfChallenge(dict:)` checks eight keys in a fixed order and throws the error of the first bad field. Next to it is an independent reference definition: the field order, what makes each field valid, and the first invalid position. Lemmas connect the two definitions.
- **Lifecycles** (`lifecycle.dfy`, module `Lifecycle`). These are arbitrary sequences of state assignments and progress updates, with induction proofs of what they preserve.
- `wrappers.dfy` (module `Wrappers`) holds `Option` and `Result` for Swift optionals and thrown errors.

Modelling choices:

- A record is a `map<string, Value>`, with `Value = VInt | VDouble | VString | VBool`. A double is the real number it denotes. Swift's `as? T` accepts only the matching constructor.
- Instants are integer seconds.
- The `yyyy-MM-dd HH:mm:ss Z` date parser is an uninterpreted parameter `string -> Option<int>`. `Date.description` is a parameter `int -> string`.
- The signed-in user is a parameter `Option<string>`.
- Writes handed to the remote store are appended to a write log.
- Every operation is a pure function on a `Session`. A session is the entity value plus its notification log and its write log.

The Swift declaration of `ChallengeError` is not among the source files this model follows. The model's `ChallengeError` lists the variants thrown at Challenge.swift:28-50 and the `uploadError` completion at Challenge.swift:144.

## Model

| member | source | states |
|---|---|---|
| Constants.TypeFromRaw | BeneFitter/Utils/Constants.swift:22-24 | `TypeOfChallenge(rawValue:)` succeeds exactly for "mostCaloriesBurnt" and "maxSteps", and the case it returns has that raw value |
| Constants.TypeRawRoundTrip | BeneFitter/Utils/Constants.swift:22-24 | `init(rawValue: t.rawValue) == t` for both cases |
| Constants.TypeRawValueInjective | BeneFitter/Utils/Constants.swift:22-24 | distinct cases have distinct raw values |
| Constants.BaseProgressIsZero | BeneFitter/Utils/Constants.swift:26-33 | `progress` is 0 for every kind |
| Constants.CharityFromRaw | BeneFitter/Utils/Constants.swift:36-37 | `CharityOrganization(rawValue:)` accepts only "hjartOchLungFonden" |
| Constants.CharityRawRoundTrip | BeneFitter/Utils/Constants.swift:36-37 | the organization's raw value is accepted back and gives the same organization |
| Constants.CharityIdentity | BeneFitter/Utils/Constants.swift:46-58 | `id` is "1", which differs from the raw value; `swishNumber` is 9091927 |
| Constants.CharityInfoTable | BeneFitter/Utils/Constants.swift:39-79 | the organization's name, logotype path and challenge blurb |
| Constants.HjartOchLungFondenTopChallenge | BeneFitter/Utils/Constants.swift:81-107 | the top challenge is burnt calories, goal 500, bet 20, twenty-four hours |
| Constants.GoalPresets | BeneFitter/Utils/Constants.swift:135-165 | the presets are 500 calories or 10000 steps, each with a bet of 20 and its unit word |
| Constants.CaloriesGoalMatchesTopChallenge | BeneFitter/Utils/Constants.swift:139-155 | the calories preset's goal and bet equal the organization's top-challenge goal and bet, and its top-challenge kind is calories |
| Constants.DurationFromRaw | BeneFitter/Utils/Constants.swift:167-168 | `Duration(rawValue:)` accepts 86400 and rejects every other value |
| Constants.DurationRawRoundTrip | BeneFitter/Utils/Constants.swift:167-168 | the duration's raw value is accepted back and gives the same duration |
| Constants.DurationTablesAgree | BeneFitter/Utils/Constants.swift:167-183 | seconds = hours × 3600; the raw value equals the seconds; the length is positive |
| Constants.TwentyFourHoursValues | BeneFitter/Utils/Constants.swift:167-183 | `twentyFourHours` has raw value 86400, 86400 seconds and 24 hours |
| SelfChallenges.Create | BeneFitter/Model/Challenge.swift:113-135 | the initializer stores every argument, starts in `idle`, posts exactly one notification (on `idle`, carrying the new value) and issues no write |
| SelfChallenges.SetState | BeneFitter/Model/Challenge.swift:103-107 | an assignment changes only the state and appends exactly one notification, on the new state's channel, carrying the value after the assignment; it issues no write |
| SelfChallenges.UpdateProgress | BeneFitter/Model/Challenge.swift:227-231 | progress becomes exactly the argument, with no clamp and no sign check; nothing else changes; no notification; one write of the value to the record's `progress` child |
| SelfChallenges.PostChallenge | BeneFitter/Model/Challenge.swift:139-181 | with no signed-in user it completes with `uploadError` and issues zero writes; with one, it issues exactly one merge, at the challenge's record path, carrying the uploaded record's field map, and waits; it never posts a notification |
| SelfChallenges.UploadValuesDescribeChallenge | BeneFitter/Model/Challenge.swift:148-168 | the uploaded record has exactly the nine record keys; its kind and organization tokens map back to the entity's values through the raw-value constructors; it holds the entity's numbers and flag, the rendered start instant and the rendered derived end instant |
| SelfChallenges.EndDateIsDerived | BeneFitter/Model/Challenge.swift:95-99 | end = start + hours × 3600 for every value, and neither a state assignment nor a progress update moves it |
| SelfChallenges.ReassignPostsAgain | BeneFitter/Model/Challenge.swift:103-107 | assigning the same state twice posts twice |
| ChallengeFactory.Decode | BeneFitter/Model/Challenge.swift:23-66 | on success the result has the factory's id and exactly the record's bet, kind, charity, duration, parsed start, top flag, progress and goal; its state is `idle`; it has posted exactly one `idle` notification and issued no write |
| ChallengeFactory.GetBet | BeneFitter/Model/Challenge.swift:28 | passes exactly when `betting_amount` holds an integer, and returns it; otherwise `invalidBet` |
| ChallengeFactory.GetChallengeType | BeneFitter/Model/Challenge.swift:30-32 | passes exactly when `challenge_type` is a string naming a kind; otherwise `invalidChallengeType`, for a missing key and a bad token alike |
| ChallengeFactory.GetCharity | BeneFitter/Model/Challenge.swift:34-36 | passes exactly when `charity_organization` is a string naming an organization; otherwise `invalidCharityOrganization` |
| ChallengeFactory.GetDuration | BeneFitter/Model/Challenge.swift:38-40 | passes exactly when `duration_seconds` is a double that is a duration's raw value; otherwise `invalidDuration` |
| ChallengeFactory.GetStartDate | BeneFitter/Model/Challenge.swift:42-44 | passes exactly when `start_date` is a string the date parser accepts, and returns the parsed instant; otherwise `invalidStartDate` |
| ChallengeFactory.GetIsTopChallenge | BeneFitter/Model/Challenge.swift:46 | passes exactly when `is_top_challenge` holds a boolean; otherwise `invalidIsTopChallenge` |
| ChallengeFactory.GetProgress | BeneFitter/Model/Challenge.swift:48 | passes exactly when `progress` holds an integer; otherwise `invalidProgress` |
| ChallengeFactory.GetGoal | BeneFitter/Model/Challenge.swift:50 | passes exactly when `goal` holds an integer; otherwise `invalidGoal` |
| ChallengeFactory.FirstInvalid | BeneFitter/Model/Challenge.swift:28-50 | reference definition: none exactly when every field is valid; otherwise the position of an invalid field before which all fields are valid |
| ChallengeFactory.FirstInvalidInOrder | BeneFitter/Model/Challenge.swift:28-50 | on the fixed order bet → kind → charity → duration → start date → top flag → progress → goal, the first invalid field is found by checking the fields one by one |
| ChallengeFactory.GuardsCheckValidity | BeneFitter/Model/Challenge.swift:28-50 | each guard passes exactly when the reference calls its field valid |
| ChallengeFactory.DecodeStopsAtFirstFailingGuard | BeneFitter/Model/Challenge.swift:28-50 | decoding fails exactly when some guard fails, and then with the error of the first failing guard |
| ChallengeFactory.FirstFailingGuardIsFirstInvalid | BeneFitter/Model/Challenge.swift:28-50 | the first failing guard is the reference's first invalid field |
| ChallengeFactory.DecodeFirstFailureWins | BeneFitter/Model/Challenge.swift:28-50 | decoding fails exactly when some field is invalid, and then with the error of the first invalid field in the fixed order |
| ChallengeFactory.DecodeDeterminedByGuards | BeneFitter/Model/Challenge.swift:28-63 | two records whose guards agree up to the first failure decode to the same result |
| ChallengeFactory.GuardsReadOwnKey | BeneFitter/Model/Challenge.swift:28-50 | each guard's outcome depends only on its own key |
| ChallengeFactory.DecodeIgnoresLaterFields | BeneFitter/Model/Challenge.swift:28-50 | fields after the first invalid one, and keys outside the eight, are never examined: records that agree on the examined keys decode identically |
| ChallengeFactory.EveryFailureModeSameError | BeneFitter/Model/Challenge.swift:28-44 | when the earlier fields are valid, a missing key, a wrong-typed value and an unrecognised token for a field all throw that field's own error |
| ChallengeFactory.EmptyStringIsInvalidBet | BeneFitterTests/Model/Challenge_Tests.swift:24-40 | `{"betting_amount": ""}` alone throws `invalidBet` |
| ChallengeFactory.RecordRoundTrip | BeneFitter/Model/Challenge.swift:23-66 | decoding a challenge's record gives that challenge back in `idle` exactly when the date parser reads the rendered start back to the same instant; if the parser rejects it, `invalidStartDate` |
| ChallengeFactory.UploadedRecordShape | BeneFitter/Model/Challenge.swift:157-168 | the uploaded record matches the decoder's record on every key but `duration_seconds`, where it stores integer seconds instead of a double, and it adds `end_date` |
| ChallengeFactory.UploadedRecordFailsStrictDecode | BeneFitter/Model/Challenge.swift:28-37 | under the model's strict casts, decoding the record `postChallenge` uploads passes the bet, kind and organization guards and then fails with `invalidDuration`, because the duration is uploaded as an integer (Challenge.swift:149,160) |
| ChallengeFactory.MockValidDictIsRejected | BeneFitterTests/Model/MockDict.swift:12-19 | the "valid" fixture throws `invalidProgress` (or `invalidStartDate` if the date does not parse) |
| ChallengeFactory.CompletedMockDictDecodes | BeneFitterTests/Model/Challenge_Tests.swift:28-30 | the fixture completed with progress 0 and goal 500 decodes to the expected burnt-calories, 24-hour, bet-20 challenge |
| Lifecycle.RunKeepsSchedule | BeneFitter/Model/Challenge.swift:91-111 | no sequence of assignments and progress updates changes the id, kind, duration, start, goal, charity, top flag, bet or end instant |
| Lifecycle.RunPostsOncePerAssignment | BeneFitter/Model/Challenge.swift:255-273 | any sequence of operations only appends to the logs: one notification per state assignment on that state's channel, in order, and one write per progress update |
| Lifecycle.RunKeepsLogConsistent | BeneFitter/Model/Challenge.swift:255-273 | every notification carries a value whose state is the channel's state and whose id is the challenge's; this holds after any sequence of operations |
| Lifecycle.CreateIsConsistent | BeneFitter/Model/Challenge.swift:134 | the construction notification satisfies that invariant |
| Lifecycle.ProgressOnlyPostsNothing | BeneFitter/Model/Challenge.swift:227-229 | a run of progress updates posts nothing and keeps the state; the last update decides the progress |

## Left out

- SelfChallenges.PostChallenge: models only the user guard and the first write, because the rest is a chain of store callbacks. That chain covers the user index write, the two concurrent charity-organization writes under a `DispatchGroup` and the completion reporting (Challenge.swift:183-223).
- The remote store itself is not modelled: the `REF_*` paths (Constants.swift:12-16), `ChallengeService` and `UserService`. Writes are only recorded, never executed. `TOP_CHALLENGE_IDENTIFIER` is used only outside the core.
- Concurrency is not modelled. This covers the `DispatchGroup` sequencing and completions that can fire twice or never.
- `DateFormatter` and `Date.description` are not modelled: the first is a parameter parser and the second a parameter renderer. Instants are whole seconds, while `Date` holds fractional seconds.
- Swift's `Any` bridging is not modelled. Firebase numbers arrive as `NSNumber`, which `as? Int` and `as? Double` may both accept. The model accepts only the matching constructor. NaN and infinite doubles are not representable. So in the model, a record written by `postChallenge` does not decode back: it gives `Failure(InvalidDuration)`, because `duration_seconds` is uploaded as an `Int` (Challenge.swift:149,160). On a device the store returns an `NSNumber`, which `as? Double` accepts, so this is not a defect of the app.
- Swift `Int` is 64-bit. The model uses unbounded integers because the core does no integer arithmetic: the end instant is a `Date` addition.
- `notificationCenter`: all posts go to one log. The model leaves out which `NotificationCenter` is used (the factory's own `Challenge.notificationCenter` is never used), the `userInfo` wrapping, and delivery to observers.
- Lifecycle.RunKeepsSchedule: direct assignment to the public `var` fields `progress`, `charityOrganization`, `isTopChallenge` and `bettingAmount` (Challenge.swift:100,109-111) is not a modelled command, so the lemma covers state assignments and progress updates only. No caller in the app assigns those fields: MainVC.swift:200,220,222,261,345 only assign `state` or call `updateProgress`, and `postChallenge` is called elsewhere.
- `logotypeImage` is a `UIImage` asset and is left out.
- Also left out: HealthKit queries, UI code, Firebase Auth sign-in, local notification scheduling, and the commented-out pending/active challenge types (Challenge.swift:275-349).
- Progress has no range check in the code, and the model follows the code: the decoder and `updateProgress` accept any integer, including negative values and values above the goal.

## Findings

| source | as written | input that shows it | evidently intended | confidence | as-written member | corrected member |
|---|---|---|---|---|---|---|
| BeneFitterTests/Model/MockDict.swift:12-19 | the "valid" fixture has no `progress` and no `goal` key, so `selfChallenge(dict:)` throws `invalidProgress` at Challenge.swift:48 | the fixture itself, with a date parser that accepts "2020-07-06 14:38:33 +0000" | the fixture decodes without error, as `test_twenty_is_valid_bet` asserts at Challenge_Tests.swift:28-30 | high; not executed | ChallengeFactory.MockValidDictIsRejected | ChallengeFactory.CompletedMockDictDecodes |
