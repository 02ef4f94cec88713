/**
 * The user profile record and the federated logistic-regression risk model
 * (src/account_hijacking/models.py). Numbers are modelled as `real`: IEEE
 * rounding, NaN and infinities are not represented. The logistic function
 * `1 / (1 + exp(-x))` is a parameter of type `Sigmoid`, which keeps only the
 * facts about it the pipeline relies on.
 */
module Models {
  import opened Dicts
  import opened Fractions

  /** A user's baseline behaviour, read-only while a login is scored. */
  datatype UserProfile = UserProfile(
    userId: string,
    typicalIpPrefix: string,
    homeLat: real,
    homeLon: real,
    knownDevices: seq<string>,
    knownBrowsers: seq<string>,
    typicalLoginHour: real,
    securityQuestions: Dict<string>)

  /**
   * What is known of the logistic function everywhere here: its values lie
   * strictly between 0 and 1, and it is 1/2 at 0.
   */
  type Sigmoid = f: real -> real | (forall x :: 0.0 < f(x) < 1.0) && f(0.0) == 0.5
    witness (x: real) => 0.5

  /** The logistic function is strictly increasing; the lemmas that need it ask for it. */
  ghost predicate StrictlyIncreasing(f: real -> real) {
    forall x, y :: x < y ==> f(x) < f(y)
  }

  /** The default learning rate of a new model. */
  const DefaultLearningRate: real := 0.1

  /** The value of a model: its weights and its bias. */
  datatype ModelState = ModelState(weights: seq<real>, bias: real)

  // ---------------------------------------------------------------------------
  // Arithmetic on vectors

  function Sum(xs: seq<real>): real
    decreases |xs|
  {
    if |xs| == 0 then 0.0 else xs[0] + Sum(xs[1..])
  }

  /** `np.mean` of a non-empty vector. */
  function Mean(xs: seq<real>): real
    requires |xs| > 0
  {
    Sum(xs) / (|xs| as real)
  }

  /** The elementwise products of two vectors of the same length. */
  function Products(u: seq<real>, v: seq<real>): (p: seq<real>)
    requires |u| == |v|
    ensures |p| == |u|
    decreases |u|
  {
    if |u| == 0 then [] else [u[0] * v[0]] + Products(u[1..], v[1..])
  }

  /** `np.dot` of two vectors of the same length. */
  function Dot(u: seq<real>, v: seq<real>): real
    requires |u| == |v|
  {
    Sum(Products(u, v))
  }

  lemma DotCons(u: seq<real>, v: seq<real>)
    requires |u| == |v| && |u| > 0
    ensures Dot(u, v) == u[0] * v[0] + Dot(u[1..], v[1..])
  {
    assert Products(u, v)[1..] == Products(u[1..], v[1..]);
  }

  lemma {:induction false} SumConstant(xs: seq<real>, c: real)
    requires forall k :: 0 <= k < |xs| ==> xs[k] == c
    ensures Sum(xs) == (|xs| as real) * c
    decreases |xs|
  {
    if |xs| > 0 {
      SumConstant(xs[1..], c);
    }
  }

  /** The mean of entries that are all equal to `c` is `c`. */
  lemma MeanConstant(xs: seq<real>, c: real)
    requires |xs| > 0
    requires forall k :: 0 <= k < |xs| ==> xs[k] == c
    ensures Mean(xs) == c
  {
    SumConstant(xs, c);
  }

  lemma {:induction false} SumBounds(xs: seq<real>, lo: real, hi: real)
    requires forall k :: 0 <= k < |xs| ==> lo <= xs[k] <= hi
    ensures (|xs| as real) * lo <= Sum(xs) <= (|xs| as real) * hi
    decreases |xs|
  {
    if |xs| > 0 {
      SumBounds(xs[1..], lo, hi);
    }
  }

  /** The mean lies between any lower and upper bound of the entries. */
  lemma MeanBounds(xs: seq<real>, lo: real, hi: real)
    requires |xs| > 0
    requires forall k :: 0 <= k < |xs| ==> lo <= xs[k] <= hi
    ensures lo <= Mean(xs) <= hi
  {
    SumBounds(xs, lo, hi);
    var n := |xs| as real;
    assert Sum(xs) / n * n == Sum(xs);
  }

  /** Removing the entry at `j` takes exactly that entry off the sum. */
  lemma {:induction false} SumRemove(xs: seq<real>, j: nat)
    requires j < |xs|
    ensures Sum(xs) == xs[j] + Sum(xs[..j] + xs[j + 1..])
    decreases |xs|
  {
    var r := xs[..j] + xs[j + 1..];
    if j > 0 {
      SumRemove(xs[1..], j - 1);
      assert r[0] == xs[0];
      assert r[1..] == xs[1..][..j - 1] + xs[1..][j..];
      assert Sum(r) == r[0] + Sum(r[1..]);
    } else {
      assert r == xs[1..];
    }
  }

  /** Taking matching first/j-th entries off two equal multisets leaves equal multisets. */
  lemma MultisetRemove<T>(xs: seq<T>, ys: seq<T>, j: nat)
    requires multiset(xs) == multiset(ys) && 0 < |xs| && j < |ys| && ys[j] == xs[0]
    ensures multiset(xs[1..]) == multiset(ys[..j] + ys[j + 1..])
  {
    assert ys == ys[..j] + [ys[j]] + ys[j + 1..];
    assert xs == [xs[0]] + xs[1..];
    assert multiset(ys) == multiset(ys[..j]) + multiset([ys[j]]) + multiset(ys[j + 1..]);
    assert multiset(xs) == multiset([xs[0]]) + multiset(xs[1..]);
    assert multiset(ys[..j] + ys[j + 1..]) == multiset(ys[..j]) + multiset(ys[j + 1..]);
    assert multiset(ys[..j] + ys[j + 1..]) == multiset(ys) - multiset{ys[j]};
    assert multiset(xs[1..]) == multiset(xs) - multiset{xs[0]};
  }

  /** The sum does not depend on the order of the entries. */
  lemma {:induction false} SumPermutation(xs: seq<real>, ys: seq<real>)
    requires multiset(xs) == multiset(ys)
    ensures Sum(xs) == Sum(ys)
    decreases |xs|
  {
    if |xs| > 0 {
      assert xs[0] in multiset(ys);
      var j :| 0 <= j < |ys| && ys[j] == xs[0];
      var rest := ys[..j] + ys[j + 1..];
      MultisetRemove(xs, ys, j);
      SumPermutation(xs[1..], rest);
      SumRemove(ys, j);
    } else {
      assert |ys| == |multiset(ys)| == 0;
    }
  }

  /** `u - c * v`, elementwise. */
  function ScaleSubtract(u: seq<real>, c: real, v: seq<real>): (w: seq<real>)
    requires |u| == |v|
    ensures |w| == |u|
    decreases |u|
  {
    if |u| == 0 then [] else [u[0] - c * v[0]] + ScaleSubtract(u[1..], c, v[1..])
  }

  lemma {:induction false} ScaleSubtractAt(u: seq<real>, c: real, v: seq<real>, i: nat)
    requires |u| == |v| && i < |u|
    ensures ScaleSubtract(u, c, v)[i] == u[i] - c * v[i]
    decreases |u|
  {
    if i > 0 {
      ScaleSubtractAt(u[1..], c, v[1..], i - 1);
    }
  }

  /** Dot product is linear in its first argument: (u - c·v)·v = u·v - c·(v·v). */
  lemma DotScaleSubtract(u: seq<real>, c: real, v: seq<real>)
    requires |u| == |v|
    ensures Dot(ScaleSubtract(u, c, v), v) == Dot(u, v) - c * Dot(v, v)
  {
    ProductsScaleSubtract(u, c, v);
    SumScaleSubtract(Products(u, v), c, Products(v, v));
  }

  /** (u - c·v) ⊙ v = u ⊙ v - c·(v ⊙ v), elementwise. */
  lemma {:induction false} ProductsScaleSubtract(u: seq<real>, c: real, v: seq<real>)
    requires |u| == |v|
    ensures Products(ScaleSubtract(u, c, v), v) == ScaleSubtract(Products(u, v), c, Products(v, v))
    decreases |u|
  {
    if |u| > 0 {
      ProductsScaleSubtract(u[1..], c, v[1..]);
      var w := ScaleSubtract(u, c, v);
      assert w[1..] == ScaleSubtract(u[1..], c, v[1..]);
      assert Products(u, v)[1..] == Products(u[1..], v[1..]);
      assert Products(v, v)[1..] == Products(v[1..], v[1..]);
      assert w[0] == u[0] - c * v[0];
      ProductArith(w[0], u[0], c, v[0]);
      assert Products(w, v)[0] == ScaleSubtract(Products(u, v), c, Products(v, v))[0];
    }
  }

  lemma ProductArith(w: real, x: real, c: real, y: real)
    requires w == x - c * y
    ensures w * y == x * y - c * (y * y)
  {
  }

  /** The sum of a - c·b is sum(a) - c·sum(b). */
  lemma {:induction false} SumScaleSubtract(a: seq<real>, c: real, b: seq<real>)
    requires |a| == |b|
    ensures Sum(ScaleSubtract(a, c, b)) == Sum(a) - c * Sum(b)
    decreases |a|
  {
    if |a| > 0 {
      SumScaleSubtract(a[1..], c, b[1..]);
      Distribute(c, b[0], Sum(b[1..]));
    }
  }

  lemma Distribute(c: real, x: real, y: real)
    ensures c * (x + y) == c * x + c * y
  {
  }

  lemma {:induction false} DotSelfNonNegative(v: seq<real>)
    ensures Dot(v, v) >= 0.0
    decreases |v|
  {
    if |v| > 0 {
      DotSelfNonNegative(v[1..]);
      DotCons(v, v);
    }
  }

  // ---------------------------------------------------------------------------
  // The model as a function of its state

  /** The logit `np.dot(weights, features) + bias`. */
  function Logit(s: ModelState, features: seq<real>): real
    requires |features| == |s.weights|
  {
    Dot(s.weights, features) + s.bias
  }

  /** `predict_proba` on a model state: a probability strictly between 0 and 1. */
  function Predict(sigmoid: Sigmoid, s: ModelState, features: seq<real>): (p: real)
    requires |features| == |s.weights|
    ensures 0.0 < p < 1.0
  {
    sigmoid(Logit(s, features))
  }

  /** Move a state by step scale `c` along `features`: weights -= c·features; bias -= c. */
  function ApplyStep(s: ModelState, c: real, features: seq<real>): (t: ModelState)
    requires |features| == |s.weights|
    ensures |t.weights| == |s.weights|
  {
    ModelState(ScaleSubtract(s.weights, c, features), s.bias - c)
  }

  /**
   * One step of gradient descent on the log-loss (`local_update`):
   * err = prediction - label; weights -= lr·err·features; bias -= lr·err.
   */
  function GradientStep(sigmoid: Sigmoid, s: ModelState, learningRate: real, features: seq<real>, sampleLabel: real): (t: ModelState)
    requires |features| == |s.weights|
    ensures |t.weights| == |s.weights|
  {
    ApplyStep(s, StepScale(sigmoid, s, learningRate, features, sampleLabel), features)
  }

  /** The error of the prediction on a labelled sample: prediction - label. */
  function PredictionError(sigmoid: Sigmoid, s: ModelState, features: seq<real>, sampleLabel: real): real
    requires |features| == |s.weights|
  {
    Predict(sigmoid, s, features) - sampleLabel
  }

  /** The scale of a gradient step: learning rate times error. */
  function StepScale(sigmoid: Sigmoid, s: ModelState, learningRate: real, features: seq<real>, sampleLabel: real): real
    requires |features| == |s.weights|
  {
    learningRate * PredictionError(sigmoid, s, features, sampleLabel)
  }

  /** With a positive learning rate the step scale has the sign of the error. */
  lemma StepScaleSign(sigmoid: Sigmoid, s: ModelState, learningRate: real, features: seq<real>, sampleLabel: real)
    requires |features| == |s.weights| && learningRate > 0.0
    ensures Predict(sigmoid, s, features) < sampleLabel ==> StepScale(sigmoid, s, learningRate, features, sampleLabel) < 0.0
    ensures Predict(sigmoid, s, features) > sampleLabel ==> StepScale(sigmoid, s, learningRate, features, sampleLabel) > 0.0
  {
    ProductSign(learningRate, PredictionError(sigmoid, s, features, sampleLabel));
  }

  /** A step of scale `c` moves the logit on its own sample by -c·(features·features + 1). */
  lemma ApplyStepLogit(s: ModelState, c: real, features: seq<real>)
    requires |features| == |s.weights|
    ensures Logit(ApplyStep(s, c, features), features) == Logit(s, features) - c * (Dot(features, features) + 1.0)
  {
    DotScaleSubtract(s.weights, c, features);
    Distribute(c, Dot(features, features), 1.0);
  }

  /** A negative step scale raises the logit on the sample, a positive one lowers it. */
  lemma ApplyStepDirection(s: ModelState, c: real, features: seq<real>)
    requires |features| == |s.weights|
    ensures c < 0.0 ==> Logit(s, features) < Logit(ApplyStep(s, c, features), features)
    ensures c > 0.0 ==> Logit(ApplyStep(s, c, features), features) < Logit(s, features)
  {
    ApplyStepLogit(s, c, features);
    DotSelfNonNegative(features);
    ProductSign(Dot(features, features) + 1.0, c);
    assert c * (Dot(features, features) + 1.0) == (Dot(features, features) + 1.0) * c;
  }

  /** A step of scale zero changes nothing. */
  lemma {:induction false} ScaleSubtractZero(u: seq<real>, v: seq<real>)
    requires |u| == |v|
    ensures ScaleSubtract(u, 0.0, v) == u
    decreases |u|
  {
    if |u| > 0 {
      ScaleSubtractZero(u[1..], v[1..]);
      assert u == [u[0]] + u[1..];
    }
  }

  /** With a strictly increasing sigmoid, a prediction below the label strictly rises. */
  lemma GradientStepRaisesLowPrediction(sigmoid: Sigmoid, s: ModelState, learningRate: real, features: seq<real>, sampleLabel: real)
    requires |features| == |s.weights| && learningRate > 0.0 && StrictlyIncreasing(sigmoid)
    requires Predict(sigmoid, s, features) < sampleLabel
    ensures Predict(sigmoid, s, features) < Predict(sigmoid, GradientStep(sigmoid, s, learningRate, features, sampleLabel), features)
  {
    var before, after := StepLogits(sigmoid, s, learningRate, features, sampleLabel);
    assert sigmoid(before) < sigmoid(after);
  }

  /** With a strictly increasing sigmoid, a prediction above the label strictly falls. */
  lemma GradientStepLowersHighPrediction(sigmoid: Sigmoid, s: ModelState, learningRate: real, features: seq<real>, sampleLabel: real)
    requires |features| == |s.weights| && learningRate > 0.0 && StrictlyIncreasing(sigmoid)
    requires Predict(sigmoid, s, features) > sampleLabel
    ensures Predict(sigmoid, GradientStep(sigmoid, s, learningRate, features, sampleLabel), features) < Predict(sigmoid, s, features)
  {
    var before, after := StepLogits(sigmoid, s, learningRate, features, sampleLabel);
    assert sigmoid(after) < sigmoid(before);
  }

  /** The logits on the sample before and after a gradient step, and how they are ordered. */
  lemma StepLogits(sigmoid: Sigmoid, s: ModelState, learningRate: real, features: seq<real>, sampleLabel: real)
    returns (before: real, after: real)
    requires |features| == |s.weights| && learningRate > 0.0
    ensures Predict(sigmoid, s, features) == sigmoid(before)
    ensures Predict(sigmoid, GradientStep(sigmoid, s, learningRate, features, sampleLabel), features) == sigmoid(after)
    ensures Predict(sigmoid, s, features) < sampleLabel ==> before < after
    ensures Predict(sigmoid, s, features) > sampleLabel ==> after < before
  {
    var t := GradientStep(sigmoid, s, learningRate, features, sampleLabel);
    before, after := Logit(s, features), Logit(t, features);
    StepScaleSign(sigmoid, s, learningRate, features, sampleLabel);
    ApplyStepDirection(s, StepScale(sigmoid, s, learningRate, features, sampleLabel), features);
  }

  /** After a step of scale c, weight i is w[i] - c·features[i] and the bias is b - c. */
  lemma ApplyStepAt(s: ModelState, c: real, features: seq<real>, i: nat)
    requires |features| == |s.weights| && i < |s.weights|
    ensures ApplyStep(s, c, features).weights[i] == s.weights[i] - c * features[i]
    ensures ApplyStep(s, c, features).bias == s.bias - c
  {
    ScaleSubtractAt(s.weights, c, features, i);
  }

  /** A sample the model already predicts exactly leaves the model as it is. */
  lemma GradientStepFixedPoint(sigmoid: Sigmoid, s: ModelState, learningRate: real, features: seq<real>)
    requires |features| == |s.weights|
    ensures GradientStep(sigmoid, s, learningRate, features, Predict(sigmoid, s, features)) == s
  {
    assert StepScale(sigmoid, s, learningRate, features, Predict(sigmoid, s, features)) == 0.0;
    ScaleSubtractZero(s.weights, features);
  }

  /** The all-zero state of a new model with `n` features. */
  function ZeroState(n: nat): (s: ModelState)
    ensures |s.weights| == n && s.bias == 0.0
    ensures forall i :: 0 <= i < n ==> s.weights[i] == 0.0
  {
    ModelState(seq(n, i => 0.0), 0.0)
  }

  lemma {:induction false} DotZero(u: seq<real>, v: seq<real>)
    requires |u| == |v|
    requires forall i :: 0 <= i < |u| ==> u[i] == 0.0
    ensures Dot(u, v) == 0.0
    decreases |u|
  {
    if |u| > 0 {
      DotCons(u, v);
      DotZero(u[1..], v[1..]);
    }
  }

  lemma {:induction false} DotZeroRight(u: seq<real>, v: seq<real>)
    requires |u| == |v|
    requires forall i :: 0 <= i < |v| ==> v[i] == 0.0
    ensures Dot(u, v) == 0.0
    decreases |u|
  {
    if |u| > 0 {
      DotCons(u, v);
      DotZeroRight(u[1..], v[1..]);
    }
  }

  /** On the all-zero feature vector only the bias counts: the prediction is sigmoid(bias). */
  lemma PredictZeroFeatures(sigmoid: Sigmoid, s: ModelState, features: seq<real>)
    requires |features| == |s.weights|
    requires forall i :: 0 <= i < |features| ==> features[i] == 0.0
    ensures Predict(sigmoid, s, features) == sigmoid(s.bias)
  {
    DotZeroRight(s.weights, features);
  }

  /** A new model predicts exactly 1/2 whatever the features. */
  lemma PredictZeroState(sigmoid: Sigmoid, features: seq<real>)
    ensures Predict(sigmoid, ZeroState(|features|), features) == 0.5
  {
    DotZero(ZeroState(|features|).weights, features);
  }

  // ---------------------------------------------------------------------------
  // Federated averaging as a function of the client states

  /** Every state has `n` weights. */
  predicate AllOfLength(states: seq<ModelState>, n: nat) {
    forall k :: 0 <= k < |states| ==> |states[k].weights| == n
  }

  /** The i-th weight of every client, in client order. */
  function Column(states: seq<ModelState>, i: nat): (col: seq<real>)
    requires forall k :: 0 <= k < |states| ==> i < |states[k].weights|
    ensures |col| == |states|
  {
    seq(|states|, k requires 0 <= k < |states| => states[k].weights[i])
  }

  /** The bias of every client, in client order. */
  function Biases(states: seq<ModelState>): (bs: seq<real>)
    ensures |bs| == |states|
  {
    seq(|states|, k requires 0 <= k < |states| => states[k].bias)
  }

  /**
   * `federated_average` on values: the elementwise mean of the client weights
   * (`np.mean(np.stack(...), axis=0)`) and the mean of the client biases.
   */
  function Average(states: seq<ModelState>, n: nat): (avg: ModelState)
    requires |states| > 0 && AllOfLength(states, n)
    ensures |avg.weights| == n
  {
    ModelState(seq(n, i requires 0 <= i < n => Mean(Column(states, i))), Mean(Biases(states)))
  }

  /** Averaging clients that all hold the same state gives that state. */
  lemma AverageOfEqualStates(states: seq<ModelState>, s: ModelState)
    requires |states| > 0
    requires forall k :: 0 <= k < |states| ==> states[k] == s
    ensures Average(states, |s.weights|) == s
  {
    var n := |s.weights|;
    var avg := Average(states, n);
    forall i | 0 <= i < n ensures avg.weights[i] == s.weights[i] {
      MeanConstant(Column(states, i), s.weights[i]);
    }
    MeanConstant(Biases(states), s.bias);
  }

  /** Averaging a single client copies that client exactly. */
  lemma AverageSingleton(s: ModelState)
    ensures Average([s], |s.weights|) == s
  {
    AverageOfEqualStates([s], s);
  }

  /** Every averaged weight and the averaged bias lie between the clients' extremes. */
  lemma AverageWithinBounds(states: seq<ModelState>, n: nat, lo: real, hi: real)
    requires |states| > 0 && AllOfLength(states, n)
    requires forall k, i :: 0 <= k < |states| && 0 <= i < n ==> lo <= states[k].weights[i] <= hi
    requires forall k :: 0 <= k < |states| ==> lo <= states[k].bias <= hi
    ensures forall i :: 0 <= i < n ==> lo <= Average(states, n).weights[i] <= hi
    ensures lo <= Average(states, n).bias <= hi
  {
    forall i | 0 <= i < n ensures lo <= Average(states, n).weights[i] <= hi {
      MeanBounds(Column(states, i), lo, hi);
    }
    MeanBounds(Biases(states), lo, hi);
  }

  lemma {:induction false} ColumnPermutation(a: seq<ModelState>, b: seq<ModelState>, n: nat, i: nat)
    requires multiset(a) == multiset(b) && AllOfLength(a, n) && AllOfLength(b, n) && i < n
    ensures multiset(Column(a, i)) == multiset(Column(b, i))
    decreases |a|
  {
    if |a| > 0 {
      assert a[0] in multiset(b);
      var j :| 0 <= j < |b| && b[j] == a[0];
      var rest := b[..j] + b[j + 1..];
      MultisetRemove(a, b, j);
      ColumnPermutation(a[1..], rest, n, i);
      assert Column(a, i) == [a[0].weights[i]] + Column(a[1..], i);
      assert Column(b, i) == Column(b, i)[..j] + [b[j].weights[i]] + Column(b, i)[j + 1..];
      assert Column(rest, i) == Column(b, i)[..j] + Column(b, i)[j + 1..];
    } else {
      assert |b| == |multiset(b)| == 0;
    }
  }

  /** The average does not depend on the order in which the clients are listed. */
  lemma AverageOrderIndependent(a: seq<ModelState>, b: seq<ModelState>, n: nat)
    requires |a| > 0 && multiset(a) == multiset(b) && AllOfLength(a, n)
    ensures |b| == |a| && AllOfLength(b, n)
    ensures Average(a, n) == Average(b, n)
  {
    assert |b| == |multiset(b)| == |multiset(a)| == |a|;
    forall k | 0 <= k < |b| ensures |b[k].weights| == n {
      assert b[k] in multiset(a);
    }
    forall i | 0 <= i < n ensures Average(a, n).weights[i] == Average(b, n).weights[i] {
      ColumnPermutation(a, b, n, i);
      SumPermutation(Column(a, i), Column(b, i));
    }
    BiasesPermutation(a, b);
    SumPermutation(Biases(a), Biases(b));
  }

  lemma {:induction false} BiasesPermutation(a: seq<ModelState>, b: seq<ModelState>)
    requires multiset(a) == multiset(b)
    ensures multiset(Biases(a)) == multiset(Biases(b))
    decreases |a|
  {
    if |a| > 0 {
      assert a[0] in multiset(b);
      var j :| 0 <= j < |b| && b[j] == a[0];
      var rest := b[..j] + b[j + 1..];
      MultisetRemove(a, b, j);
      BiasesPermutation(a[1..], rest);
      assert Biases(a) == [a[0].bias] + Biases(a[1..]);
      assert Biases(b) == Biases(b)[..j] + [b[j].bias] + Biases(b)[j + 1..];
      assert Biases(rest) == Biases(b)[..j] + Biases(b)[j + 1..];
    } else {
      assert |b| == |multiset(b)| == 0;
    }
  }

  // ---------------------------------------------------------------------------
  // The model object

  /** The snapshot of each client's state, in order. */
  function States(clients: seq<FederatedRiskModel>): (states: seq<ModelState>)
    reads clients
    ensures |states| == |clients|
    ensures forall k :: 0 <= k < |clients| ==> states[k] == clients[k].State()
  {
    seq(|clients|, k reads clients requires 0 <= k < |clients| => clients[k].State())
  }

  /** `FederatedRiskModel`: a linear model whose weights and bias are updated in place. */
  class FederatedRiskModel {
    var featureCount: nat
    var learningRate: real
    var weights: seq<real>
    var bias: real

    function State(): ModelState
      reads this
    {
      ModelState(weights, bias)
    }

    /** The weight vector has one weight per feature. */
    predicate Valid()
      reads this
    {
      |weights| == featureCount
    }

    /** A new model has `featureCount` zero weights and a zero bias. */
    constructor (featureCount: nat, learningRate: real := DefaultLearningRate)
      ensures this.featureCount == featureCount && this.learningRate == learningRate
      ensures |weights| == featureCount && (forall i :: 0 <= i < featureCount ==> weights[i] == 0.0)
      ensures bias == 0.0
      ensures Valid()
    {
      this.featureCount := featureCount;
      this.learningRate := learningRate;
      this.weights := seq(featureCount, i => 0.0);
      this.bias := 0.0;
    }

    /** `predict_proba`: sigmoid(weights·features + bias), strictly between 0 and 1. */
    function PredictProba(sigmoid: Sigmoid, features: seq<real>): (p: real)
      reads this
      requires |features| == |weights|
      ensures 0.0 < p < 1.0
      ensures p == Predict(sigmoid, State(), features)
    {
      Predict(sigmoid, State(), features)
    }

    /**
     * `local_update`: one gradient step on a single labelled sample; the
     * weight vector keeps its length and nothing but weights and bias changes.
     */
    method LocalUpdate(sigmoid: Sigmoid, features: seq<real>, sampleLabel: real)
      requires |features| == |weights|
      modifies this`weights, this`bias
      ensures |weights| == old(|weights|)
      ensures featureCount == old(featureCount) && learningRate == old(learningRate)
      ensures old(Valid()) ==> Valid()
      ensures State() == GradientStep(sigmoid, old(State()), learningRate, features, sampleLabel)
    {
      // step = learning_rate * (predict_proba(features) - label)
      var step := StepScale(sigmoid, State(), learningRate, features, sampleLabel);
      weights := ScaleSubtract(weights, step, features);
      bias := bias - step;
    }

    /**
     * `federated_average`: replace the weights and bias with the mean of the
     * clients' weights and biases; an empty list leaves the model unchanged.
     * The clients' weight vectors must have one common length (`np.stack`);
     * the model stays valid only when that length is its feature count.
     */
    method FederatedAverage(clients: seq<FederatedRiskModel>)
      requires forall k :: 0 <= k < |clients| ==> |clients[k].weights| == |clients[0].weights|
      modifies this`weights, this`bias
      ensures featureCount == old(featureCount) && learningRate == old(learningRate)
      ensures |clients| == 0 ==> State() == old(State())
      ensures |clients| > 0 ==> |weights| == old(|clients[0].weights|)
      ensures |clients| > 0 ==> State() == Average(old(States(clients)), old(|clients[0].weights|))
      ensures |clients| == 0 && old(Valid()) ==> Valid()
      ensures |clients| > 0 && old(|clients[0].weights|) == featureCount ==> Valid()
    {
      if |clients| == 0 {
        return;
      }
      var avg := Average(States(clients), |clients[0].weights|);
      weights := avg.weights;
      bias := avg.bias;
    }
  }
}
