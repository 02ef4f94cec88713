/**
 * The two HTTP endpoints of the service (src/account_hijacking/app.py),
 * without the web framework: `/login` as a function from the global model,
 * the profile table and a request to a response or an error, and
 * `/federated/update` as a method that updates the global model in place.
 * The module-level globals GLOBAL_MODEL and USER_PROFILES are parameters.
 */
module App {
  import opened Text
  import opened Dicts
  import opened Models
  import opened Risk
  import opened Adaptive

  /** Length of every feature vector the service accepts. */
  const FeatureCount: nat := 5
  /** Risk score from which a login is challenged. */
  const RiskThreshold: real := 0.65

  /** The service's global model: valid, with one weight per feature of `FeatureCount`. */
  predicate GlobalModel(model: FederatedRiskModel)
    reads model
  {
    model.Valid() && model.featureCount == FeatureCount
  }

  /** `GLOBAL_MODEL` as the service starts: a new five-feature model at the default learning rate. */
  method NewGlobalModel() returns (model: FederatedRiskModel)
    ensures fresh(model)
    ensures GlobalModel(model)
    ensures model.learningRate == DefaultLearningRate
    ensures model.State() == ZeroState(FeatureCount)
  {
    model := new FederatedRiskModel(FeatureCount);
  }

  /** The HTTP errors the endpoints raise: 404 and 400. */
  datatype Error = UnknownUser | InvalidFeatureCount

  datatype Result<T> = Ok(value: T) | Err(error: Error)

  datatype Decision = Allow | Challenge | Block

  /**
   * A login request; `hour` and `minute` are the reading of `login_time`,
   * which defaults to the current UTC time.
   */
  datatype LoginRequest = LoginRequest(
    userId: string,
    ipAddress: string,
    latitude: real,
    longitude: real,
    deviceId: string,
    browser: string,
    hour: Hour,
    minute: Minute,
    answers: Option<Dict<string>>)

  datatype LoginResponse = LoginResponse(
    decision: Decision,
    riskScore: real,
    features: Dict<real>,
    challenge: Option<Dict<string>>,
    adaptiveScore: Option<real>)

  /** The body `{"status": "updated"}` of an accepted update. */
  const UpdatedStatus: Dict<string> := [("status", "updated")]

  datatype FederatedUpdateRequest = FederatedUpdateRequest(userId: string, features: Dict<real>, sampleLabel: real)

  /** `not request.answers`: no answers, or an empty dictionary. */
  predicate Submitted(answers: Option<Dict<string>>) {
    answers.Some? && |answers.value| > 0
  }

  /** The challenge sent back: the questions of `build_challenge`, joined by ", ". */
  function ChallengeBody(profile: UserProfile): Dict<string> {
    [("questions", Join(BuildChallenge(profile).questions, ", "))]
  }

  /**
   * The decision of `login` once the attempt is scored: allow below the
   * threshold; otherwise challenge when no answers came, else allow or block
   * on the outcome of the challenge.
   */
  function Respond(risk: RiskResult, profile: UserProfile, answers: Option<Dict<string>>): (r: LoginResponse)
    ensures r.riskScore == risk.riskScore && r.features == risk.features
    ensures r.decision == Allow <==>
      risk.riskScore < RiskThreshold || (Submitted(answers) && ChallengeResult(profile, answers.value).success)
    ensures r.decision == Challenge <==> risk.riskScore >= RiskThreshold && !Submitted(answers)
    ensures r.decision == Block <==>
      risk.riskScore >= RiskThreshold && Submitted(answers) && !ChallengeResult(profile, answers.value).success
    ensures r.challenge.Some? <==> r.decision == Challenge
    ensures r.challenge.Some? ==> r.challenge.value == ChallengeBody(profile)
    ensures r.adaptiveScore.Some? <==> risk.riskScore >= RiskThreshold && Submitted(answers)
    ensures r.adaptiveScore.Some? ==> r.adaptiveScore.value == ChallengeResult(profile, answers.value).score
  {
    if risk.riskScore < RiskThreshold then
      LoginResponse(Allow, risk.riskScore, risk.features, None, None)
    else if !Submitted(answers) then
      LoginResponse(Challenge, risk.riskScore, risk.features, Some(ChallengeBody(profile)), None)
    else
      var adaptive := ChallengeResult(profile, answers.value);
      if adaptive.success then
        LoginResponse(Allow, risk.riskScore, risk.features, None, Some(adaptive.score))
      else
        LoginResponse(Block, risk.riskScore, risk.features, None, Some(adaptive.score))
  }

  /** The attempt a request describes. */
  function AttemptOf(request: LoginRequest): LoginAttempt {
    LoginAttempt(request.userId, request.ipAddress, request.latitude, request.longitude,
                 request.deviceId, request.browser, request.hour, request.minute)
  }

  /**
   * `/login`: a user missing from the profile table is an error, never a
   * decision; a known user's attempt is scored by the global model on the
   * features of that user's profile.
   */
  function Login(model: FederatedRiskModel, sigmoid: Sigmoid, distance: Distance,
                 profiles: Dict<UserProfile>, request: LoginRequest): (r: Result<LoginResponse>)
    reads model
    requires GlobalModel(model)
    ensures r.Err? <==> request.userId !in Keys(profiles)
    ensures r.Err? ==> r.error == UnknownUser
    ensures r.Ok? ==>
      var profile := Get(profiles, request.userId).value;
      && r.value.features == ExtractFeatures(distance, AttemptOf(request), profile)
      && r.value.riskScore == Predict(sigmoid, model.State(), FeatureVector(distance, AttemptOf(request), profile))
      && r.value == Respond(ScoreRisk(model, sigmoid, distance, AttemptOf(request), profile), profile, request.answers)
  {
    match Get(profiles, request.userId)
    case None => Err(UnknownUser)
    case Some(profile) =>
      Ok(Respond(ScoreRisk(model, sigmoid, distance, AttemptOf(request), profile), profile, request.answers))
  }

  /** A block is only ever the outcome of a submitted and failed challenge on a risky attempt. */
  lemma BlockOnlyAfterFailedChallenge(model: FederatedRiskModel, sigmoid: Sigmoid, distance: Distance,
                                      profiles: Dict<UserProfile>, request: LoginRequest)
    requires GlobalModel(model)
    requires Login(model, sigmoid, distance, profiles, request).Ok?
    requires Login(model, sigmoid, distance, profiles, request).value.decision == Block
    ensures var r := Login(model, sigmoid, distance, profiles, request).value;
      && r.riskScore >= RiskThreshold
      && Submitted(request.answers)
      && r.adaptiveScore.Some?
      && r.adaptiveScore.value < PassThreshold
  {
  }

  /** While the global model is at its initial state, every known user is allowed straight away. */
  lemma FreshModelAllows(model: FederatedRiskModel, sigmoid: Sigmoid, distance: Distance,
                         profiles: Dict<UserProfile>, request: LoginRequest)
    requires GlobalModel(model) && model.State() == ZeroState(FeatureCount)
    requires request.userId in Keys(profiles)
    ensures Login(model, sigmoid, distance, profiles, request).Ok?
    ensures Login(model, sigmoid, distance, profiles, request).value.decision == Allow
    ensures Login(model, sigmoid, distance, profiles, request).value.adaptiveScore == None
  {
    var profile := Get(profiles, request.userId).value;
    ZeroModelScoresHalf(model, sigmoid, distance, AttemptOf(request), profile);
  }

  /**
   * An attempt that matches the user's baseline in every respect is scored
   * sigmoid(bias), and so is allowed without a challenge whenever that is
   * below the threshold, whatever answers come with it.
   */
  lemma BaselineAttemptAllowed(model: FederatedRiskModel, sigmoid: Sigmoid, distance: Distance,
                               attempt: LoginAttempt, profile: UserProfile, answers: Option<Dict<string>>)
    requires |model.weights| == FeatureCount && ZeroAtSamePoint(distance)
    requires attempt.latitude == profile.homeLat && attempt.longitude == profile.homeLon
    requires IpPrefix(attempt.ipAddress) == profile.typicalIpPrefix
    requires attempt.deviceId in profile.knownDevices && attempt.browser in profile.knownBrowsers
    requires LoginHour(attempt.hour, attempt.minute) == profile.typicalLoginHour
    ensures ScoreRisk(model, sigmoid, distance, attempt, profile).riskScore == sigmoid(model.bias)
    ensures sigmoid(model.bias) < RiskThreshold ==>
      Respond(ScoreRisk(model, sigmoid, distance, attempt, profile), profile, answers).decision == Allow
    ensures sigmoid(model.bias) < RiskThreshold ==>
      Respond(ScoreRisk(model, sigmoid, distance, attempt, profile), profile, answers).challenge == None
  {
    BaselineAttemptHasZeroFeatures(distance, attempt, profile);
    PredictZeroFeatures(sigmoid, model.State(), FeatureVector(distance, attempt, profile));
  }

  /** A risky attempt with every stored question answered right is allowed, with adaptive score 1. */
  lemma RightAnswersAllowRiskyLogin(risk: RiskResult, profile: UserProfile, answers: Dict<string>)
    requires risk.riskScore >= RiskThreshold
    requires |profile.securityQuestions| > 0
    requires forall i :: 0 <= i < |profile.securityQuestions| ==>
      Get(answers, profile.securityQuestions[i].0) == Some(profile.securityQuestions[i].1)
    ensures Respond(risk, profile, Some(answers)).decision == Allow
    ensures Respond(risk, profile, Some(answers)).adaptiveScore == Some(1.0)
  {
    PerfectAnswersPass(profile, answers);
  }

  /** A risky attempt whose answers name none of the stored questions is blocked with adaptive score 0. */
  lemma UnrelatedAnswersBlockRiskyLogin(risk: RiskResult, profile: UserProfile, answers: Dict<string>)
    requires risk.riskScore >= RiskThreshold
    requires |answers| > 0
    requires forall k :: 0 <= k < |answers| ==> answers[k].0 !in Keys(profile.securityQuestions)
    ensures Respond(risk, profile, Some(answers)).decision == Block
    ensures Respond(risk, profile, Some(answers)).adaptiveScore == Some(0.0)
  {
    var qs := profile.securityQuestions;
    forall i | 0 <= i < |qs| ensures Get(answers, qs[i].0) == Get([], qs[i].0) {
      assert qs[i].0 == Keys(qs)[i];
    }
    CountsDependOnStoredQuestionsOnly(qs, answers, []);
    NothingAnsweredWithoutAnswers(qs, []);
  }

  /**
   * `/federated/update`: an unknown user (404) or a feature dictionary not of
   * length 5 (400) leaves the global model as it was; otherwise the global
   * model becomes the average of one fresh local model that copied the global
   * weights and bias and took one gradient step, at the default learning rate,
   * on the submitted feature values in their stored order.
   */
  method FederatedUpdate(global: FederatedRiskModel, sigmoid: Sigmoid, profiles: Dict<UserProfile>,
                         request: FederatedUpdateRequest) returns (r: Result<Dict<string>>)
    requires GlobalModel(global)
    modifies global`weights, global`bias
    ensures request.userId !in Keys(profiles) ==> r == Err(UnknownUser)
    ensures request.userId in Keys(profiles) && |request.features| != FeatureCount ==> r == Err(InvalidFeatureCount)
    ensures r.Ok? <==> request.userId in Keys(profiles) && |request.features| == FeatureCount
    ensures r.Ok? ==> r.value == UpdatedStatus
    ensures r.Err? ==> global.State() == old(global.State())
    ensures r.Ok? ==> (global.State() ==
      GradientStep(sigmoid, old(global.State()), DefaultLearningRate, Values(request.features), request.sampleLabel))
    ensures GlobalModel(global)
    ensures global.featureCount == old(global.featureCount) && global.learningRate == old(global.learningRate)
  {
    if request.userId !in Keys(profiles) {
      return Err(UnknownUser);
    }
    var featureVector := Values(request.features);
    if |featureVector| != FeatureCount {
      return Err(InvalidFeatureCount);
    }
    var local := new FederatedRiskModel(FeatureCount);
    local.weights := global.weights;
    local.bias := global.bias;
    local.LocalUpdate(sigmoid, featureVector, request.sampleLabel);
    ghost var updated := local.State();
    global.FederatedAverage([local]);
    assert States([local]) == [updated];
    AverageSingleton(updated);
    return Ok(UpdatedStatus);
  }
}
