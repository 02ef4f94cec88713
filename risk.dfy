/**
 * Feature extraction and risk scoring of a login attempt
 * (src/account_hijacking/risk.py). The haversine distance is a parameter
 * of type `Distance`, known only to be non-negative; the clock reading of the
 * attempt is its hour and minute.
 */
module Risk {
  import opened Text
  import opened Dicts
  import opened Models

  type Hour = h: int | 0 <= h < 24
  type Minute = m: int | 0 <= m < 60

  /** One login attempt as the scorer sees it. */
  datatype LoginAttempt = LoginAttempt(
    userId: string,
    ipAddress: string,
    latitude: real,
    longitude: real,
    deviceId: string,
    browser: string,
    hour: Hour,
    minute: Minute)

  /** The score and the named features it was computed from. */
  datatype RiskResult = RiskResult(riskScore: real, features: Dict<real>)

  /** The great-circle distance in km between (lat1, lon1) and (lat2, lon2): never negative. */
  type Distance = f: (real, real, real, real) -> real | forall a, b, c, d :: f(a, b, c, d) >= 0.0
    witness (a: real, b: real, c: real, d: real) => 0.0

  /** A distance that is zero from a point to itself, as the haversine formula is. */
  ghost predicate ZeroAtSamePoint(f: (real, real, real, real) -> real) {
    forall lat, lon :: f(lat, lon, lat, lon) == 0.0
  }

  /** The feature names, in the order in which the model consumes them. */
  const FeatureNames: seq<string> :=
    ["ip_mismatch", "location_deviation", "device_unknown", "browser_unknown", "time_deviation"]

  /** Distance in km at which the location feature saturates. */
  const LocationScaleKm: real := 500.0
  /** Hours of difference at which the time feature saturates. */
  const TimeScaleHours: real := 12.0

  /** Python's `min(a, b)`: the first argument unless the second is smaller. */
  function Min(a: real, b: real): (m: real)
    ensures m <= a && m <= b && (m == a || m == b)
  {
    if b < a then b else a
  }

  function Abs(x: real): (r: real)
    ensures r >= 0.0 && (r == x || r == -x)
  {
    if x < 0.0 then -x else x
  }

  // ---------------------------------------------------------------------------
  // IP prefix

  /** `".".join(ip.split(".")[:2])`. */
  function IpPrefix(ip: string): string {
    var parts := Split(ip, '.');
    Join(parts[..if |parts| < 2 then |parts| else 2], ".")
  }

  /**
   * The prefix is `ip` cut just before its second '.': it is a prefix of `ip`
   * with at most one '.', and when it is shorter than `ip` it holds exactly
   * one '.' and the next character of `ip` is a '.'.
   */
  lemma IpPrefixCutsAtSecondDot(ip: string)
    ensures var r := IpPrefix(ip);
      && |r| <= |ip| && r == ip[..|r|]
      && multiset(r)['.'] <= 1
      && (|r| < |ip| ==> multiset(r)['.'] == 1 && ip[|r|] == '.')
  {
    var parts := Split(ip, '.');
    SplitHead(ip, '.');
    if |parts| == 1 {
      assert parts[..1] == [parts[0]];
      assert multiset(parts[0])['.'] == 0;
    } else {
      IpPrefixOfDottedAddress(ip);
    }
  }

  /** The case of an address with at least one '.': the first two pieces joined by '.'. */
  lemma IpPrefixOfDottedAddress(ip: string)
    requires |Split(ip, '.')| >= 2
    ensures var r := IpPrefix(ip);
      && |r| <= |ip| && r == ip[..|r|]
      && multiset(r)['.'] == 1
      && (|r| < |ip| ==> ip[|r|] == '.')
  {
    var parts := Split(ip, '.');
    SplitHead(ip, '.');
    var p0 := parts[0];
    var rest := ip[|p0| + 1..];
    SplitHead(rest, '.');
    var q0 := parts[1];
    assert Split(rest, '.')[0] == q0;
    assert parts[..2] == [p0, q0];
    OneSeparatorJoin(p0, q0);
    TwoSegmentsArePrefix(ip, p0, q0);
  }

  /** `a.b` read off the front of `ip`, where `b` ends at the end of `ip` or at a '.'. */
  lemma TwoSegmentsArePrefix(ip: string, a: string, b: string)
    requires |a| < |ip| && ip[..|a|] == a && ip[|a|] == '.'
    requires |b| <= |ip| - |a| - 1 && ip[|a| + 1..][..|b|] == b
    requires |b| == |ip| - |a| - 1 || ip[|a| + 1..][|b|] == '.'
    ensures var r := a + "." + b;
      && |r| <= |ip| && r == ip[..|r|]
      && (|r| < |ip| ==> ip[|r|] == '.')
  {
    var r := a + "." + b;
    var rest := ip[|a| + 1..];
    assert ip[..|r|] == ip[..|a|] + [ip[|a|]] + rest[..|b|];
    if |r| < |ip| {
      assert ip[|r|] == rest[|b|];
    }
  }

  /** Two '.'-free segments joined by '.' hold exactly one '.'. */
  lemma OneSeparatorJoin(a: string, b: string)
    requires '.' !in a && '.' !in b
    ensures Join([a, b], ".") == a + "." + b
    ensures multiset(a + "." + b)['.'] == 1
  {
    assert [a, b][1..] == [b];
    assert multiset(a + "." + b) == multiset(a) + multiset{'.'} + multiset(b);
    assert multiset(a)['.'] == 0 && multiset(b)['.'] == 0;
  }

  /** An address without '.' is its own prefix. */
  lemma IpPrefixWithoutDot(ip: string)
    requires '.' !in ip
    ensures IpPrefix(ip) == ip
  {
    SplitSeparatorFree(ip, '.');
  }

  /** Joining '.'-free segments and taking the prefix keeps the first two of them. */
  lemma IpPrefixOfJoin(segments: seq<string>)
    requires |segments| >= 1
    requires forall k :: 0 <= k < |segments| ==> '.' !in segments[k]
    ensures IpPrefix(Join(segments, ".")) == Join(segments[..if |segments| < 2 then |segments| else 2], ".")
  {
    SplitJoin(segments, '.');
  }

  /** The prefix of a dotted quad "a.b.c.d" is "a.b". */
  lemma IpPrefixOfDottedQuad(a: string, b: string, c: string, d: string)
    requires '.' !in a && '.' !in b && '.' !in c && '.' !in d
    ensures IpPrefix(a + "." + b + "." + c + "." + d) == a + "." + b
  {
    var segments := [a, b, c, d];
    assert segments[1..] == [b, c, d] && segments[1..][1..] == [c, d] && segments[1..][1..][1..] == [d];
    assert Join([c, d], ".") == c + "." + d;
    assert Join([b, c, d], ".") == b + "." + (c + "." + d);
    assert Join(segments, ".") == a + "." + (b + "." + (c + "." + d));
    assert a + "." + (b + "." + (c + "." + d)) == a + "." + b + "." + c + "." + d;
    IpPrefixOfJoin(segments);
    assert segments[..2] == [a, b] && [a, b][1..] == [b];
  }

  lemma IpPrefixExample()
    ensures IpPrefix("192.168.1.20") == "192.168"
  {
    IpPrefixOfDottedQuad("192", "168", "1", "20");
    assert "192" + "." + "168" + "." + "1" + "." + "20" == "192.168.1.20";
    assert "192" + "." + "168" == "192.168";
  }

  // ---------------------------------------------------------------------------
  // The five features

  /** 0.0 when the address's two-segment prefix is the user's typical prefix, otherwise 1.0. */
  function IpMismatch(ip: string, typicalPrefix: string): (r: real)
    ensures r == 0.0 <==> IpPrefix(ip) == typicalPrefix
    ensures r == 1.0 <==> IpPrefix(ip) != typicalPrefix
  {
    if IpPrefix(ip) == typicalPrefix then 0.0 else 1.0
  }

  /** `min(distance_km / 500, 1)`. */
  function LocationDeviation(distanceKm: real): real {
    Min(distanceKm / LocationScaleKm, 1.0)
  }

  /** For a distance d >= 0: d/500 below 500 km, 1.0 from 500 km on, always within [0, 1]. */
  lemma LocationDeviationRange(distanceKm: real)
    requires distanceKm >= 0.0
    ensures 0.0 <= LocationDeviation(distanceKm) <= 1.0
    ensures LocationDeviation(distanceKm) == 1.0 <==> distanceKm >= LocationScaleKm
    ensures distanceKm < LocationScaleKm ==> LocationDeviation(distanceKm) == distanceKm / LocationScaleKm
  {
  }

  /** A farther login never looks less deviant. */
  lemma LocationDeviationMonotone(d1: real, d2: real)
    requires d1 <= d2
    ensures LocationDeviation(d1) <= LocationDeviation(d2)
  {
  }

  /** `hour + minute / 60`: the clock reading in fractional hours. */
  function LoginHour(hour: Hour, minute: Minute): (h: real)
    ensures 0.0 <= h < 24.0
  {
    hour as real + minute as real / 60.0
  }

  /** `min(|login_hour - typical| / 12, 1)`: no wrap-around at midnight. */
  function TimeDeviation(loginHour: real, typicalHour: real): real {
    Min(Abs(loginHour - typicalHour) / TimeScaleHours, 1.0)
  }

  /** Within [0, 1]; 0 exactly at the typical hour; 1 exactly from 12 hours off. */
  lemma TimeDeviationRange(loginHour: real, typicalHour: real)
    ensures 0.0 <= TimeDeviation(loginHour, typicalHour) <= 1.0
    ensures TimeDeviation(loginHour, typicalHour) == 0.0 <==> loginHour == typicalHour
    ensures TimeDeviation(loginHour, typicalHour) == 1.0 <==> Abs(loginHour - typicalHour) >= TimeScaleHours
  {
  }

  /** The time feature is symmetric in the two hours. */
  lemma TimeDeviationSymmetric(x: real, y: real)
    ensures TimeDeviation(x, y) == TimeDeviation(y, x)
  {
  }

  /** 23:00 against a typical hour of 1.0 is 22 hours off, not 2: the feature saturates. */
  lemma TimeDeviationDoesNotWrap()
    ensures TimeDeviation(LoginHour(23, 0), 1.0) == 1.0
  {
  }

  /** 0.0 when the value is in the known list, otherwise 1.0 (devices and browsers alike). */
  function Unknown(value: string, known: seq<string>): (r: real)
    ensures r == 0.0 <==> value in known
    ensures r == 1.0 <==> value !in known
  {
    if value in known then 0.0 else 1.0
  }

  // ---------------------------------------------------------------------------
  // extract_features / score_risk

  /** The distance from the user's home to where the attempt comes from. */
  function DistanceFromHome(distance: Distance, attempt: LoginAttempt, profile: UserProfile): real {
    distance(profile.homeLat, profile.homeLon, attempt.latitude, attempt.longitude)
  }

  /** The five feature values, in the order of `FeatureNames`. */
  function FeatureVector(distance: Distance, attempt: LoginAttempt, profile: UserProfile): (v: seq<real>)
    ensures |v| == |FeatureNames|
    ensures forall k :: 0 <= k < |v| ==> 0.0 <= v[k] <= 1.0
  {
    var d := DistanceFromHome(distance, attempt, profile);
    LocationDeviationRange(d);
    TimeDeviationRange(LoginHour(attempt.hour, attempt.minute), profile.typicalLoginHour);
    [ IpMismatch(attempt.ipAddress, profile.typicalIpPrefix),
      LocationDeviation(d),
      Unknown(attempt.deviceId, profile.knownDevices),
      Unknown(attempt.browser, profile.knownBrowsers),
      TimeDeviation(LoginHour(attempt.hour, attempt.minute), profile.typicalLoginHour) ]
  }

  lemma FeatureNamesDistinct()
    ensures UniqueKeys(seq(|FeatureNames|, i requires 0 <= i < |FeatureNames| => (FeatureNames[i], 0.0)))
  {
  }

  /**
   * `extract_features`: a dictionary whose keys are the five feature names in
   * the model's order and whose values are the matching features, all in [0, 1].
   */
  function ExtractFeatures(distance: Distance, attempt: LoginAttempt, profile: UserProfile): (fs: Dict<real>)
    ensures Keys(fs) == FeatureNames
    ensures Values(fs) == FeatureVector(distance, attempt, profile)
    ensures forall k :: 0 <= k < |fs| ==> 0.0 <= fs[k].1 <= 1.0
  {
    var v := FeatureVector(distance, attempt, profile);
    FeatureNamesDistinct();
    seq(|FeatureNames|, i requires 0 <= i < |FeatureNames| => (FeatureNames[i], v[i]))
  }

  /** Each named feature can be looked up and holds its own slot's value. */
  lemma FeatureLookup(distance: Distance, attempt: LoginAttempt, profile: UserProfile)
    ensures var fs := ExtractFeatures(distance, attempt, profile);
      && Get(fs, "ip_mismatch") == Some(IpMismatch(attempt.ipAddress, profile.typicalIpPrefix))
      && Get(fs, "location_deviation") == Some(LocationDeviation(DistanceFromHome(distance, attempt, profile)))
      && Get(fs, "device_unknown") == Some(Unknown(attempt.deviceId, profile.knownDevices))
      && Get(fs, "browser_unknown") == Some(Unknown(attempt.browser, profile.knownBrowsers))
      && Get(fs, "time_deviation") == Some(TimeDeviation(LoginHour(attempt.hour, attempt.minute), profile.typicalLoginHour))
  {
    var fs := ExtractFeatures(distance, attempt, profile);
    GetFindsEntry(fs, 0);
    GetFindsEntry(fs, 1);
    GetFindsEntry(fs, 2);
    GetFindsEntry(fs, 3);
    GetFindsEntry(fs, 4);
  }

  /** `score_risk`: the features unchanged, and the model's probability on their values in order. */
  function ScoreRisk(model: FederatedRiskModel, sigmoid: Sigmoid, distance: Distance,
                     attempt: LoginAttempt, profile: UserProfile): (r: RiskResult)
    reads model
    requires |model.weights| == |FeatureNames|
    ensures r.features == ExtractFeatures(distance, attempt, profile)
    ensures |Values(r.features)| == |model.weights|
    ensures r.riskScore == Predict(sigmoid, model.State(), Values(r.features))
    ensures 0.0 < r.riskScore < 1.0
  {
    var features := ExtractFeatures(distance, attempt, profile);
    RiskResult(model.PredictProba(sigmoid, Values(features)), features)
  }

  /** An attempt that matches the profile in every respect has all five features at 0. */
  lemma BaselineAttemptHasZeroFeatures(distance: Distance, attempt: LoginAttempt, profile: UserProfile)
    requires ZeroAtSamePoint(distance)
    requires attempt.latitude == profile.homeLat && attempt.longitude == profile.homeLon
    requires IpPrefix(attempt.ipAddress) == profile.typicalIpPrefix
    requires attempt.deviceId in profile.knownDevices && attempt.browser in profile.knownBrowsers
    requires LoginHour(attempt.hour, attempt.minute) == profile.typicalLoginHour
    ensures Values(ExtractFeatures(distance, attempt, profile)) == [0.0, 0.0, 0.0, 0.0, 0.0]
  {
    assert DistanceFromHome(distance, attempt, profile) == 0.0;
    TimeDeviationRange(LoginHour(attempt.hour, attempt.minute), profile.typicalLoginHour);
  }

  /** An attempt that differs in every respect, 500 km or more and 12 hours or more away, scores 1 on all five. */
  lemma AnomalousAttemptHasUnitFeatures(distance: Distance, attempt: LoginAttempt, profile: UserProfile)
    requires DistanceFromHome(distance, attempt, profile) >= LocationScaleKm
    requires IpPrefix(attempt.ipAddress) != profile.typicalIpPrefix
    requires attempt.deviceId !in profile.knownDevices && attempt.browser !in profile.knownBrowsers
    requires Abs(LoginHour(attempt.hour, attempt.minute) - profile.typicalLoginHour) >= TimeScaleHours
    ensures Values(ExtractFeatures(distance, attempt, profile)) == [1.0, 1.0, 1.0, 1.0, 1.0]
  {
    LocationDeviationRange(DistanceFromHome(distance, attempt, profile));
    TimeDeviationRange(LoginHour(attempt.hour, attempt.minute), profile.typicalLoginHour);
  }

  /** A model still at its initial state scores every attempt at exactly 1/2. */
  lemma ZeroModelScoresHalf(model: FederatedRiskModel, sigmoid: Sigmoid, distance: Distance,
                            attempt: LoginAttempt, profile: UserProfile)
    requires model.State() == ZeroState(|FeatureNames|)
    ensures ScoreRisk(model, sigmoid, distance, attempt, profile).riskScore == 0.5
  {
    PredictZeroState(sigmoid, Values(ExtractFeatures(distance, attempt, profile)));
  }
}
