# Account hijacking prevention: a verified model

This project models the core of a login-risk service written in Python. Each login attempt is turned into five deviation features measured against the user's stored profile:

- the IP prefix;
- the distance from home;
- whether the device is known;
- whether the browser is known;
- the hour of day.

A logistic-regression model scores those features. A score of 0.65 or more leads to an adaptive challenge built from the user's security questions, and the answers are checked after trimming and lower-casing. Clients improve the model by federated updates: one gradient step on a clone of the global model, folded back by averaging.

The Dafny modules follow the Python files:

| module | models | form |
|---|---|---|
| `Models` (`models.dfy`) | `models.py` | `FederatedRiskModel` is a class whose `LocalUpdate` and `FederatedAverage` methods rewrite its `weights` and `bias` fields. Each method is proved against the pure functions `GradientStep` and `Average`, and the lemmas about those functions carry the learning and averaging properties. |
| `Risk` (`risk.dfy`) | `risk.py` | Pure functions: the IP prefix, each feature, `ExtractFeatures` (an insertion-ordered dictionary) and `ScoreRisk`. |
| `Adaptive` (`adaptive.dfy`) | `adaptive.py` | `BuildChallenge` is a pure slice. `VerifyChallenge` is a method with the source's counting loop, proved equal to the specification function `ChallengeResult`. |
| `App` (`app.dfy`) | `app.py` | The `/login` decision is the pure `Respond` and `Login`. `/federated/update` is the method `FederatedUpdate`, which updates the global model in place. |
| `Text`, `Dicts`, `Fractions` | — | Support modules. `Text` has Python's `split`, `join`, `strip` and `lower` over ASCII. `Dicts` has insertion-ordered dictionaries with unique keys and lookup. `Fractions` has facts about `correct / total`. |

A Python `dict` becomes a sequence of (key, value) pairs with unique keys, which keeps the insertion order that fixes the model's column order. Floats become `real`.

A few things are parameters rather than code:

- The logistic function is a `Sigmoid`. Its values lie in (0, 1) and it is 1/2 at 0, and the learning lemmas also assume it is strictly increasing.
- The haversine distance is a `Distance`, which is never negative. The baseline lemmas also assume it is zero from a point to itself.
- The clock reading is the attempt's `hour` and `minute`.
- The process-wide `GLOBAL_MODEL` and `USER_PROFILES` are passed in.

Two details of the code that the model keeps:

- `verify_challenge` normalises both the stored and the submitted answer (`src/account_hijacking/adaptive.py:34`), and so does `Adaptive.Matches`.
- `/federated/update` takes a name → value dictionary and uses only its values, in stored order (`src/account_hijacking/app.py:133`), and so does `App.FederatedUpdate`.

## Model

| member | source | states |
|---|---|---|
| Text.SplitPiecesAreSeparatorFree | src/account_hijacking/risk.py:43 | No piece of `ip.split(".")` contains a '.'. |
| Text.JoinSplit | src/account_hijacking/risk.py:43 | Joining the pieces of a split with the same separator gives back the original string. |
| Text.SplitJoin | src/account_hijacking/risk.py:43 | Splitting the join of separator-free pieces gives back exactly those pieces. |
| Text.SplitHead | src/account_hijacking/risk.py:43 | The first piece of a split is the longest separator-free prefix. If there are more pieces, a separator follows it and the other pieces are the split of the rest. |
| Text.SplitSeparatorFree | src/account_hijacking/risk.py:43 | A string without the separator splits into itself alone. |
| Text.SplitConcat | src/account_hijacking/risk.py:43 | A separator-free piece followed by the separator splits off as the first piece. |
| Text.StripSlice | src/account_hijacking/adaptive.py:34 | `strip()` removes exactly a whitespace prefix and a whitespace suffix, and the result neither starts nor ends with whitespace. |
| Text.StripIdempotent | src/account_hijacking/adaptive.py:34 | Stripping twice is the same as stripping once. |
| Text.Lower | src/account_hijacking/adaptive.py:34 | `lower()` keeps the length and maps each character independently, with ASCII capitals moved to lower case. |
| Text.LowerChar | src/account_hijacking/adaptive.py:34 | A capital A–Z becomes its lower-case letter; every other character is unchanged. |
| Text.LowerIdempotent | src/account_hijacking/adaptive.py:34 | Lower-casing twice is the same as lower-casing once. |
| Text.LowerHasNoCapitals | src/account_hijacking/adaptive.py:34 | A lower-cased string holds no ASCII capital. |
| Dicts.Keys | src/account_hijacking/adaptive.py:21 | `list(d.keys())` has one key per entry, in insertion order. |
| Dicts.Values | src/account_hijacking/risk.py:75 | `list(d.values())` has one value per entry, in insertion order. |
| Dicts.Get | src/account_hijacking/app.py:72 | `d.get(k)` is None exactly when `k` is not a key. Otherwise it is a value stored under `k`. |
| Dicts.GetFindsEntry | src/account_hijacking/adaptive.py:34 | With unique keys, looking up the key of entry i gives entry i's value. |
| Fractions.QuotientBounds | src/account_hijacking/adaptive.py:36 | If correct ≤ total and total > 0, then correct/total lies in [0, 1]. |
| Fractions.QuotientThreshold | src/account_hijacking/adaptive.py:36-37 | correct/total ≥ 0.7 exactly when 10·correct ≥ 7·total. |
| Models.Predict | src/account_hijacking/models.py:28-30 | The predicted probability lies strictly between 0 and 1. |
| Models.FederatedRiskModel.constructor | src/account_hijacking/models.py:22-26 | A new model stores its feature count and learning rate (default 0.1), and has feature-count zero weights and a zero bias, so it is `Valid()` (one weight per feature). |
| Models.FederatedRiskModel.PredictProba | src/account_hijacking/models.py:28-30 | The result is `Predict` on the current weights and bias, which lies strictly between 0 and 1. |
| Models.FederatedRiskModel.LocalUpdate | src/account_hijacking/models.py:32-36 | The new weights and bias are one `GradientStep` from the old ones, taken at this model's learning rate. The length, `featureCount` and `learningRate` are unchanged, so a valid model stays valid. |
| Models.FederatedRiskModel.FederatedAverage | src/account_hijacking/models.py:38-44 | An empty client list leaves the model unchanged. Otherwise the new state is the `Average` of the clients' states as they were before the call. The model is valid afterwards when it was valid and the list was empty, or when the clients' common length is its feature count. |
| Models.States | src/account_hijacking/models.py:41-42 | One state per client, in client order. |
| Models.ZeroState | src/account_hijacking/models.py:25-26 | The initial state has n zero weights and a zero bias. |
| Models.ScaleSubtractAt | src/account_hijacking/models.py:35 | Element i of `weights - c * features` is `weights[i] - c·features[i]`. |
| Models.ApplyStepAt | src/account_hijacking/models.py:35-36 | After a step of scale c, weight i is `w[i] - c·x[i]` and the bias is `b - c`. |
| Models.StepScaleSign | src/account_hijacking/models.py:33-36 | With a positive learning rate, the step scale is negative when the prediction is below the label and positive when it is above. |
| Models.DotScaleSubtract | src/account_hijacking/models.py:29-35 | Dotting the stepped weights with the features gives the old dot product minus c times ‖x‖². |
| Models.ProductsScaleSubtract | src/account_hijacking/models.py:29-35 | The elementwise products of the stepped weights with x are the old products, each minus c·x[i]². |
| Models.SumScaleSubtract | src/account_hijacking/models.py:29-35 | Sum(a - c·b) = Sum(a) - c·Sum(b). |
| Models.DotSelfNonNegative | src/account_hijacking/models.py:29 | x·x ≥ 0. |
| Models.ApplyStepLogit | src/account_hijacking/models.py:29-36 | After a step of scale c, the logit on the same features falls by exactly c·(‖x‖² + 1). |
| Models.ApplyStepDirection | src/account_hijacking/models.py:29-36 | A negative step scale strictly raises the logit on the same features, and a positive one strictly lowers it. |
| Models.StepLogits | src/account_hijacking/models.py:32-36 | The predictions before and after a gradient step are the sigmoid of two logits. The second logit is larger when the prediction was below the label and smaller when it was above. |
| Models.GradientStepRaisesLowPrediction | src/account_hijacking/models.py:32-36 | If the prediction is below the label, one local update strictly raises the prediction on that sample. |
| Models.GradientStepLowersHighPrediction | src/account_hijacking/models.py:32-36 | If the prediction is above the label, one local update strictly lowers the prediction on that sample. |
| Models.GradientStepFixedPoint | src/account_hijacking/models.py:32-36 | A sample whose label equals the current prediction leaves the weights and bias unchanged. |
| Models.ScaleSubtractZero | src/account_hijacking/models.py:35 | A step of scale 0 leaves the weights unchanged. |
| Models.DotZero | src/account_hijacking/models.py:25-29 | Zero weights give a zero dot product. |
| Models.DotZeroRight | src/account_hijacking/models.py:29 | A zero feature vector gives a zero dot product. |
| Models.PredictZeroState | src/account_hijacking/models.py:25-30 | A freshly constructed model predicts exactly 1/2 on every input. |
| Models.PredictZeroFeatures | src/account_hijacking/models.py:29-30 | On the all-zero feature vector the prediction is sigmoid(bias). |
| Models.Column | src/account_hijacking/models.py:41-43 | One entry per client: column i of the stacked weights. |
| Models.Biases | src/account_hijacking/models.py:42 | One bias per client, in client order. |
| Models.Average | src/account_hijacking/models.py:43-44 | The averaged state has the clients' common weight length. |
| Models.SumConstant | src/account_hijacking/models.py:43-44 | Summing n copies of c gives n·c. |
| Models.MeanConstant | src/account_hijacking/models.py:43-44 | The mean of a constant list is that constant. |
| Models.SumBounds | src/account_hijacking/models.py:43-44 | A sum of n terms that each lie in [lo, hi] lies in [n·lo, n·hi]. |
| Models.MeanBounds | src/account_hijacking/models.py:43-44 | The mean of values in [lo, hi] lies in [lo, hi]. |
| Models.AverageOfEqualStates | src/account_hijacking/models.py:41-44 | Averaging clients that all hold the same state gives that state. |
| Models.AverageSingleton | src/account_hijacking/models.py:41-44 | Averaging a single client gives exactly that client's weights and bias. |
| Models.AverageWithinBounds | src/account_hijacking/models.py:41-44 | Every averaged weight, and the averaged bias, lies within bounds that hold for all clients. |
| Models.SumRemove | src/account_hijacking/models.py:43-44 | A sum is element j plus the sum of the rest. |
| Models.MultisetRemove | src/account_hijacking/models.py:41-44 | Removing matching elements from two permutations of each other leaves permutations of each other. |
| Models.SumPermutation | src/account_hijacking/models.py:43-44 | Permuting the terms does not change a sum. |
| Models.ColumnPermutation | src/account_hijacking/models.py:41-43 | Permuting the clients permutes each weight column. |
| Models.BiasesPermutation | src/account_hijacking/models.py:42 | Permuting the clients permutes their biases. |
| Models.AverageOrderIndependent | src/account_hijacking/models.py:41-44 | The average does not depend on the order of the clients. |
| Risk.Min | src/account_hijacking/risk.py:52 | `min(a, b)` is at most both arguments and is one of them. |
| Risk.IpPrefixCutsAtSecondDot | src/account_hijacking/risk.py:43 | The prefix is the address cut just before its second '.'. It is a prefix of the address with at most one '.'. When it is shorter than the address, it holds exactly one '.' and a '.' follows it. |
| Risk.IpPrefixOfDottedAddress | src/account_hijacking/risk.py:43 | When the address has a '.', the prefix has exactly one '.' and ends at the end of the address or just before a '.'. |
| Risk.TwoSegmentsArePrefix | src/account_hijacking/risk.py:43 | "a.b" read off the front of an address is a prefix of it and ends at the end of the address or before a '.'. |
| Risk.OneSeparatorJoin | src/account_hijacking/risk.py:43 | Two '.'-free segments joined by '.' form "a.b", which holds exactly one '.'. |
| Risk.IpPrefixWithoutDot | src/account_hijacking/risk.py:43 | An address without '.' is its own prefix. |
| Risk.IpPrefixOfJoin | src/account_hijacking/risk.py:43 | For '.'-free segments joined by '.', the prefix is the join of the first (at most) two segments. |
| Risk.IpPrefixOfDottedQuad | src/account_hijacking/risk.py:43 | The prefix of "a.b.c.d" is "a.b". |
| Risk.IpPrefixExample | src/account_hijacking/risk.py:43 | The prefix of "192.168.1.20" is "192.168". |
| Risk.IpMismatch | src/account_hijacking/risk.py:44 | 0.0 exactly when the prefix equals the typical prefix, otherwise 1.0. |
| Risk.LocationDeviationRange | src/account_hijacking/risk.py:52 | For a non-negative distance d, the feature lies in [0, 1]. It is 1 exactly when d ≥ 500 km, and d/500 below that. |
| Risk.LocationDeviationMonotone | src/account_hijacking/risk.py:52 | A farther login never has a smaller location feature. |
| Risk.LoginHour | src/account_hijacking/risk.py:57 | hour + minute/60 lies in [0, 24). |
| Risk.TimeDeviationRange | src/account_hijacking/risk.py:58 | The feature lies in [0, 1]. It is 0 exactly at the typical hour and 1 exactly from 12 hours off. |
| Risk.TimeDeviationSymmetric | src/account_hijacking/risk.py:58 | The time feature is symmetric in the two hours. |
| Risk.TimeDeviationDoesNotWrap | src/account_hijacking/risk.py:57-58 | 23:00 against a typical hour of 1.0 gives 1.0: there is no wrap-around at midnight. |
| Risk.Unknown | src/account_hijacking/risk.py:54-55 | 0.0 exactly when the device or browser is in the known list, otherwise 1.0. |
| Risk.FeatureVector | src/account_hijacking/risk.py:42-66 | Five values, each in [0, 1]. |
| Risk.FeatureNamesDistinct | src/account_hijacking/risk.py:60-66 | The five feature names are distinct, so they form a dictionary. |
| Risk.ExtractFeatures | src/account_hijacking/risk.py:42-66 | The keys are exactly the five feature names in the model's column order, the values are the feature vector in that order, and every value lies in [0, 1]. |
| Risk.FeatureLookup | src/account_hijacking/risk.py:60-66 | Each feature name looks up its own feature's value. |
| Risk.ScoreRisk | src/account_hijacking/risk.py:69-77 | The features are returned unchanged. The score is the model's prediction on their values in insertion order, so it lies in (0, 1). |
| Risk.BaselineAttemptHasZeroFeatures | src/account_hijacking/risk.py:42-66 | An attempt that matches the profile in IP prefix, location, device, browser and hour has all five features equal to 0. |
| Risk.AnomalousAttemptHasUnitFeatures | src/account_hijacking/risk.py:42-66 | An attempt that differs in every respect, at least 500 km and 12 hours away, has all five features equal to 1. |
| Risk.ZeroModelScoresHalf | src/account_hijacking/risk.py:74-76 | A model still at its initial state scores every attempt at 1/2. |
| Adaptive.SliceLength | src/account_hijacking/adaptive.py:21 | The length of Python's `xs[:n]` is min(n, len) for n ≥ 0 and max(0, len + n) for negative n. |
| Adaptive.BuildChallenge | src/account_hijacking/adaptive.py:20-22 | The questions are the stored question keys cut to `xs[:max_questions]`, in stored order. |
| Adaptive.BuildChallengeAsksStoredQuestions | src/account_hijacking/adaptive.py:20-22 | With a non-negative cap there are min(cap, #questions) questions. Each is the key of the matching stored question, and none appears twice. |
| Adaptive.NormalizeIdempotent | src/account_hijacking/adaptive.py:34 | Normalising (strip, then lower) twice is the same as normalising once. |
| Adaptive.DuneMatches | src/account_hijacking/adaptive.py:34 | The submission " Dune " normalises to "dune" and matches the stored answer "Dune". |
| Adaptive.VerifyChallenge | src/account_hijacking/adaptive.py:25-37 | The counting loop returns `ChallengeResult`. That is (false, 0.0) without answers. Otherwise the score is correct/total (0.0 when total is 0) and success means score ≥ 0.7. |
| Adaptive.CorrectAtMostAnswered | src/account_hijacking/adaptive.py:31-35 | correct ≤ total ≤ number of stored questions. |
| Adaptive.ScoreInUnitInterval | src/account_hijacking/adaptive.py:36 | The challenge score lies in [0, 1]. |
| Adaptive.SuccessIffSevenTenths | src/account_hijacking/adaptive.py:36-37 | The challenge is passed exactly when total > 0 and 10·correct ≥ 7·total. |
| Adaptive.NothingAnsweredWithoutAnswers | src/account_hijacking/adaptive.py:31-33 | With no submitted answers, total and correct are 0. |
| Adaptive.CountsDependOnStoredQuestionsOnly | src/account_hijacking/adaptive.py:31-35 | Two answer sets that agree on every stored question give the same total and the same correct count. |
| Adaptive.GetAppendOther | src/account_hijacking/adaptive.py:32-34 | Appending an answer under one key does not change the lookup of any other key. |
| Adaptive.ExtraAnswerIgnored | src/account_hijacking/adaptive.py:31-33 | Adding an answer to a question the profile does not have leaves the result unchanged. |
| Adaptive.AllAnsweredRight | src/account_hijacking/adaptive.py:31-35 | If every stored question is answered with its stored answer, then correct = total = #questions. |
| Adaptive.PerfectAnswersPass | src/account_hijacking/adaptive.py:31-37 | Answering every stored question (at least one) with its own answer passes with score 1. |
| Adaptive.DuneChallengePasses | src/account_hijacking/adaptive.py:25-37 | A stored "Dune" answered with " Dune " passes with score 1. |
| App.NewGlobalModel | src/account_hijacking/app.py:19 | The service starts with a fresh five-feature model at the default learning rate, with zero weights and a zero bias, and it satisfies `GlobalModel` (valid, with feature count 5). |
| App.Respond | src/account_hijacking/app.py:88-119 | Decision table. Risk below 0.65 gives allow. Otherwise there is a challenge when no answers (or empty answers) come; else allow when the challenge succeeds and block when it fails. Only the challenge branch carries the question list joined by ", ". The adaptive score is present exactly when answers were checked. Every branch keeps the risk score and features. |
| App.Login | src/account_hijacking/app.py:70-119 | An unknown user gives the error UnknownUser, never a decision. A known user gets the features and model score of `score_risk`, then the decision of `Respond`. |
| App.BlockOnlyAfterFailedChallenge | src/account_hijacking/app.py:105-119 | A block comes only after answers were submitted for a risky attempt and scored below 0.7. |
| App.FreshModelAllows | src/account_hijacking/app.py:86-93 | While the global model is at its initial state, every known user is allowed with no adaptive score. |
| App.BaselineAttemptAllowed | src/account_hijacking/app.py:86-93 | A baseline attempt scores sigmoid(bias), and is allowed without a challenge when that is below 0.65. |
| App.RightAnswersAllowRiskyLogin | src/account_hijacking/app.py:105-112 | A risky attempt with all stored questions answered right is allowed with adaptive score 1. |
| App.UnrelatedAnswersBlockRiskyLogin | src/account_hijacking/app.py:105-119 | A risky attempt whose answers name none of the stored questions is blocked with adaptive score 0. |
| App.FederatedUpdate | src/account_hijacking/app.py:128-145 | An unknown user (404) or a feature count other than 5 (400) leaves the global model unchanged. Otherwise the new global state is one gradient step, at the default rate 0.1, from the old one on the submitted values in stored order, the reply is `{"status": "updated"}`, and the global model stays valid with feature count 5. |

## Left out

- Haversine distance: the trigonometry and square root are not modelled. The distance is a parameter that is never negative. The baseline lemmas assume it is zero from a point to itself.
- Logistic function: `exp` is not modelled. The sigmoid is a parameter with values in (0, 1) and value 1/2 at 0. The learning lemmas assume it is strictly increasing.
- Floating point: rounding, overflow, NaN and infinities are not represented. In particular, `score >= 0.7` on doubles can differ from the exact comparison, but only when correct/total lies within one rounding error of 0.7.
- Clock: the default `login_time` of "now, in UTC" is not modelled. The request carries the hour and minute of its login time.
- Web layer: FastAPI routing, pydantic validation and the HTTP error objects are not modelled. The two errors are the `Error` values `UnknownUser` (404) and `InvalidFeatureCount` (400).
- Concurrency: concurrent requests racing on the shared global model are not modelled. Each update runs alone.
- Fixtures: the concrete `USER_PROFILES` entries and the process-wide `GLOBAL_MODEL` are parameters, not constants.
- Text: `strip` and `lower` are defined on ASCII only. Other characters are left as they are.
- Models.FederatedRiskModel.FederatedAverage: it requires every client's weights to have the same length. `np.stack` raises an error otherwise, and that error path is not modelled.
- Models.FederatedRiskModel.constructor: its feature count is a `nat`. `np.zeros` raises an error on a negative count, and the type excludes that error path.
- Models.FederatedRiskModel.LocalUpdate: it requires the feature vector to have the model's length. `np.dot` raises an error otherwise, and that error path is not modelled.
- Risk.ScoreRisk: it requires a five-weight model. The service's global model satisfies `App.GlobalModel` (valid, with feature count 5), which gives five weights, and `App.FederatedUpdate` preserves it.
- App.FederatedUpdate: it requires a valid global model with feature count 5, which `App.NewGlobalModel` establishes and the update preserves. The feature names of the request are ignored, as in the code. The model states that the local clone learns at the default rate 0.1 whatever the global model's own rate is, as in the code.
- Adaptive.BuildChallengeAsksStoredQuestions: it states that every question returned is a stored question key. It does not state that no expected answer appears, because an answer may coincide with a question's text.
- `build_challenge` being deterministic is not a separate lemma: every Dafny function is deterministic.
