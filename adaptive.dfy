/**
 * The adaptive step-up challenge (src/account_hijacking/adaptive.py): a few
 * of the user's security questions are asked, and the submitted answers are
 * compared with the stored ones after trimming and lower-casing.
 */
module Adaptive {
  import opened Text
  import opened Dicts
  import opened Models
  import opened Fractions

  /** The questions put to the user. */
  datatype AdaptiveChallenge = AdaptiveChallenge(questions: seq<string>)

  /** Whether the challenge was passed, and the fraction of answered questions that were right. */
  datatype AdaptiveResult = AdaptiveResult(success: bool, score: real)

  /** Fraction of answered questions that must be right to pass. */
  const PassThreshold: real := 0.7

  /** Questions asked when the caller gives no cap. */
  const DefaultMaxQuestions: int := 2

  /** The length of Python's `xs[:n]` on a list of length `len`; a negative `n` counts from the end. */
  function SliceLength(len: nat, n: int): (m: nat)
    ensures m <= len
    ensures n >= 0 ==> m == if n < len then n else len
    ensures n < 0 ==> m == if len + n > 0 then len + n else 0
  {
    if n >= 0 then (if n < len then n else len)
    else if len + n > 0 then len + n else 0
  }

  /** `build_challenge`: the first `maxQuestions` question keys, in stored order. */
  function BuildChallenge(profile: UserProfile, maxQuestions: int := DefaultMaxQuestions): (c: AdaptiveChallenge)
    ensures var keys := Keys(profile.securityQuestions);
      && |c.questions| == SliceLength(|keys|, maxQuestions)
      && c.questions == keys[..|c.questions|]
  {
    var keys := Keys(profile.securityQuestions);
    AdaptiveChallenge(keys[..SliceLength(|keys|, maxQuestions)])
  }

  /** With a non-negative cap, min(cap, #questions) questions; every one a stored question, none twice. */
  lemma BuildChallengeAsksStoredQuestions(profile: UserProfile, maxQuestions: int)
    ensures var qs := BuildChallenge(profile, maxQuestions).questions;
      && (maxQuestions >= 0 ==> |qs| == if maxQuestions < |profile.securityQuestions| then maxQuestions else |profile.securityQuestions|)
      && (forall i :: 0 <= i < |qs| ==> qs[i] == profile.securityQuestions[i].0)
      && (forall i, j :: 0 <= i < j < |qs| ==> qs[i] != qs[j])
  {
  }

  // ---------------------------------------------------------------------------
  // Answer comparison

  /** `s.strip().lower()`. */
  function Normalize(s: string): string {
    Lower(Strip(s))
  }

  /** A submitted answer is right when it equals the stored one after normalising both. */
  predicate Matches(given: string, expected: string) {
    Normalize(given) == Normalize(expected)
  }

  /** Normalising is idempotent, so a normalised answer matches its own source. */
  lemma NormalizeIdempotent(s: string)
    ensures Normalize(Normalize(s)) == Normalize(s)
  {
    var t := Strip(s);
    var i, j := StripSlice(s);
    var u := Lower(t);
    if |t| > 0 {
      assert !IsSpace(t[0]) && !IsSpace(t[|t| - 1]);
      assert !IsSpace(u[0]) && !IsSpace(u[|u| - 1]);
    }
    assert TrimStart(u) == u;
    assert TrimEnd(u) == u;
  }

  lemma DuneMatches()
    ensures Matches(" Dune ", "Dune")
    ensures Normalize(" Dune ") == "dune"
  {
    assert TrimStart(" Dune ") == "Dune ";
    assert TrimEnd("Dune ") == "Dune";
    assert TrimStart("Dune") == "Dune";
    assert TrimEnd("Dune") == "Dune";
  }

  // ---------------------------------------------------------------------------
  // Counting, as specification functions over the stored questions

  /** The stored questions among the first entries that have a submitted answer ("total"). */
  function CountAnswered(qs: seq<(string, string)>, answers: Dict<string>): nat
    decreases |qs|
  {
    if |qs| == 0 then 0
    else CountAnswered(qs[..|qs| - 1], answers) + (if qs[|qs| - 1].0 in Keys(answers) then 1 else 0)
  }

  /** Whether entry (question, expected) was answered, and answered right. */
  predicate AnsweredRight(entry: (string, string), answers: Dict<string>) {
    var given := Get(answers, entry.0);
    given.Some? && Matches(given.value, entry.1)
  }

  /** The stored questions among the first entries answered right ("correct"). */
  function CountCorrect(qs: seq<(string, string)>, answers: Dict<string>): nat
    decreases |qs|
  {
    if |qs| == 0 then 0
    else CountCorrect(qs[..|qs| - 1], answers) + (if AnsweredRight(qs[|qs| - 1], answers) then 1 else 0)
  }

  /** `correct / total`, and 0.0 when nothing was answered. */
  function Score(correct: nat, total: nat): real {
    if total > 0 then correct as real / total as real else 0.0
  }

  /** What `verify_challenge` returns. */
  function ChallengeResult(profile: UserProfile, answers: Dict<string>): AdaptiveResult {
    if |answers| == 0 then AdaptiveResult(false, 0.0)
    else
      var score := Score(CountCorrect(profile.securityQuestions, answers),
                         CountAnswered(profile.securityQuestions, answers));
      AdaptiveResult(score >= PassThreshold, score)
  }

  /** `verify_challenge`: one pass over the stored questions, counting the answered and the right ones. */
  method VerifyChallenge(profile: UserProfile, answers: Dict<string>) returns (r: AdaptiveResult)
    ensures r == ChallengeResult(profile, answers)
  {
    if |answers| == 0 {
      return AdaptiveResult(false, 0.0);
    }
    var qs := profile.securityQuestions;
    var total := 0;
    var correct := 0;
    for i := 0 to |qs|
      invariant total == CountAnswered(qs[..i], answers)
      invariant correct == CountCorrect(qs[..i], answers)
    {
      assert qs[..i + 1][..i] == qs[..i];
      var (question, expected) := qs[i];
      var given := Get(answers, question);
      if given.Some? {
        total := total + 1;
        if Normalize(given.value) == Normalize(expected) {
          correct := correct + 1;
        }
      }
    }
    assert qs[..|qs|] == qs;
    var score := if total > 0 then correct as real / total as real else 0.0;
    r := AdaptiveResult(score >= PassThreshold, score);
  }

  // ---------------------------------------------------------------------------
  // Properties

  /** Right answers are answered ones, and only stored questions are counted: correct <= total <= #questions. */
  lemma {:induction false} CorrectAtMostAnswered(qs: seq<(string, string)>, answers: Dict<string>)
    ensures CountCorrect(qs, answers) <= CountAnswered(qs, answers) <= |qs|
    decreases |qs|
  {
    if |qs| > 0 {
      CorrectAtMostAnswered(qs[..|qs| - 1], answers);
    }
  }

  /** The score is a fraction: within [0, 1]. */
  lemma ScoreInUnitInterval(profile: UserProfile, answers: Dict<string>)
    ensures 0.0 <= ChallengeResult(profile, answers).score <= 1.0
  {
    var qs := profile.securityQuestions;
    CorrectAtMostAnswered(qs, answers);
    if CountAnswered(qs, answers) > 0 {
      QuotientBounds(CountCorrect(qs, answers), CountAnswered(qs, answers));
    }
  }

  /** A challenge is passed exactly when some stored question was answered and correct/total >= 0.7. */
  lemma SuccessIffSevenTenths(profile: UserProfile, answers: Dict<string>)
    ensures var total := CountAnswered(profile.securityQuestions, answers);
      var correct := CountCorrect(profile.securityQuestions, answers);
      ChallengeResult(profile, answers).success <==> total > 0 && 10 * correct >= 7 * total
  {
    var qs := profile.securityQuestions;
    var total := CountAnswered(qs, answers);
    var correct := CountCorrect(qs, answers);
    if |answers| == 0 {
      NothingAnsweredWithoutAnswers(qs, answers);
    } else if total > 0 {
      QuotientThreshold(correct, total);
    }
  }

  /** Without submitted answers no stored question counts as answered. */
  lemma {:induction false} NothingAnsweredWithoutAnswers(qs: seq<(string, string)>, answers: Dict<string>)
    requires |answers| == 0
    ensures CountAnswered(qs, answers) == 0 && CountCorrect(qs, answers) == 0
    decreases |qs|
  {
    if |qs| > 0 {
      NothingAnsweredWithoutAnswers(qs[..|qs| - 1], answers);
      assert Get(answers, qs[|qs| - 1].0).None?;
    }
  }

  /** Only the answers to stored questions matter: answers that agree on them count the same. */
  lemma {:induction false} CountsDependOnStoredQuestionsOnly(qs: seq<(string, string)>, a: Dict<string>, b: Dict<string>)
    requires forall i :: 0 <= i < |qs| ==> Get(a, qs[i].0) == Get(b, qs[i].0)
    ensures CountAnswered(qs, a) == CountAnswered(qs, b)
    ensures CountCorrect(qs, a) == CountCorrect(qs, b)
    decreases |qs|
  {
    if |qs| > 0 {
      CountsDependOnStoredQuestionsOnly(qs[..|qs| - 1], a, b);
      var q := qs[|qs| - 1].0;
      assert Get(a, q) == Get(b, q);
    }
  }

  /** An answer to a question the profile does not have changes nothing. */
  lemma ExtraAnswerIgnored(profile: UserProfile, answers: Dict<string>, question: string, answer: string)
    requires question !in Keys(answers)
    requires question !in Keys(profile.securityQuestions)
    ensures UniqueKeys(answers + [(question, answer)])
    ensures ChallengeResult(profile, answers + [(question, answer)]) == ChallengeResult(profile, answers)
  {
    var more := answers + [(question, answer)];
    assert UniqueKeys(more);
    var qs := profile.securityQuestions;
    forall i | 0 <= i < |qs| ensures Get(answers, qs[i].0) == Get(more, qs[i].0) {
      assert qs[i].0 == Keys(qs)[i];
      GetAppendOther(answers, question, answer, qs[i].0);
    }
    CountsDependOnStoredQuestionsOnly(qs, answers, more);
    if |answers| == 0 {
      NothingAnsweredWithoutAnswers(qs, answers);
    }
  }

  /** Appending an entry for one key does not change the lookup of another. */
  lemma {:induction false} GetAppendOther(d: seq<(string, string)>, k: string, v: string, other: string)
    requires other != k
    ensures Get(d + [(k, v)], other) == Get(d, other)
    decreases |d|
  {
    if |d| > 0 {
      assert (d + [(k, v)])[1..] == d[1..] + [(k, v)];
      GetAppendOther(d[1..], k, v, other);
    } else {
      assert Get([(k, v)], other) == Get([(k, v)][1..], other);
    }
  }

  /** Answering every stored question with its own stored answer passes with score 1. */
  lemma PerfectAnswersPass(profile: UserProfile, answers: Dict<string>)
    requires |profile.securityQuestions| > 0
    requires forall i :: 0 <= i < |profile.securityQuestions| ==>
      Get(answers, profile.securityQuestions[i].0) == Some(profile.securityQuestions[i].1)
    ensures ChallengeResult(profile, answers) == AdaptiveResult(true, 1.0)
  {
    var qs := profile.securityQuestions;
    AllAnsweredRight(qs, answers);
    assert qs[0].0 in Keys(answers);
    WholeQuotient(|qs|);
  }

  lemma {:induction false} AllAnsweredRight(qs: seq<(string, string)>, answers: Dict<string>)
    requires forall i :: 0 <= i < |qs| ==> Get(answers, qs[i].0) == Some(qs[i].1)
    ensures CountCorrect(qs, answers) == CountAnswered(qs, answers) == |qs|
    decreases |qs|
  {
    if |qs| > 0 {
      AllAnsweredRight(qs[..|qs| - 1], answers);
      assert Get(answers, qs[|qs| - 1].0).Some?;
    }
  }

  /** A stored answer "Dune" is matched by the submission " Dune ": the challenge passes with score 1. */
  lemma DuneChallengePasses()
    ensures ChallengeResult(
      UserProfile("u", "10.0", 0.0, 0.0, [], [], 9.0, [("favorite_book", "Dune")]),
      [("favorite_book", " Dune ")]) == AdaptiveResult(true, 1.0)
  {
    DuneMatches();
    var answers: Dict<string> := [("favorite_book", " Dune ")];
    GetFindsEntry(answers, 0);
    var qs: seq<(string, string)> := [("favorite_book", "Dune")];
    assert qs[..0] == [];
  }
}
