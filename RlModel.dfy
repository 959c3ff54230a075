/** The reinforcement-learning layer of the Python API (api/rl_model.py).

    A Q-table maps a state key ("score_<s>", optionally refined by the raw
    `studytime` and `failures` features) and an adjustment action in
    {-2, -1, 0, 1, 2} to a learned value; missing entries read as 0.0. User
    feedback ("true", "higher", "lower") is turned into the action that should
    have been taken and a reward, and the table is updated by the Q-learning
    rule Q <- Q + alpha * (r + gamma * max Q(s', .) - Q). The enclosing model
    turns an opaque grade prediction into a 1-10 score, adjusts it by the
    greedy action, and keeps feedback statistics.

    Python floats are modelled as exact `real`s. */
module RlModel {
  import opened Wrappers
  import Strings
  import Json

  // ---------------------------------------------------------------------
  // Feedback (`RLFeedback`)
  // ---------------------------------------------------------------------

  /** The three feedback strings the model accepts. */
  predicate IsValidFeedback(feedback: string) {
    feedback == "true" || feedback == "higher" || feedback == "lower"
  }

  datatype RLFeedback = RLFeedback(
    features: map<string, Json.Value>, predictedScore: int, feedback: string)

  /** `get_reward`: 1.0 for a confirmed prediction, -0.5 for any other string. */
  function GetReward(fb: RLFeedback): (r: real)
    ensures r == 1.0 <==> fb.feedback == "true"
    ensures r == 1.0 || r == -0.5
  {
    if fb.feedback == "true" then 1.0 else -0.5
  }

  /** `get_target_adjustment`: the direction the score should have moved. */
  function GetTargetAdjustment(fb: RLFeedback): (a: int)
    ensures -1 <= a <= 1
    ensures a == 1 <==> fb.feedback == "higher"
    ensures a == -1 <==> fb.feedback == "lower"
  {
    if fb.feedback == "true" then 0
    else if fb.feedback == "higher" then 1
    else if fb.feedback == "lower" then -1
    else 0
  }

  // ---------------------------------------------------------------------
  // States and actions
  // ---------------------------------------------------------------------

  /** The adjustments the layer may apply to a score. */
  const Actions: seq<int> := [-2, -1, 0, 1, 2]

  /** NumPy's `np.clip(x, lo, hi)` on integers, which the Python side uses
      for both the next-state score and the adjusted prediction. */
  function Clip(x: int, lo: int, hi: int): (r: int)
    requires lo <= hi
    ensures lo <= r <= hi
    ensures lo <= x <= hi ==> r == x
  {
    if x < lo then lo else if x > hi then hi else x
  }

  /** `get_state_key`: "score_<s>", then "_st<studytime>" and "_f<failures>"
      for those features that are present in a non-empty feature dict. */
  function StateKey(score: int, features: map<string, Json.Value>): string {
    "score_" + Strings.IntToString(score) + FeatureSuffix(features)
  }

  function FeatureSuffix(features: map<string, Json.Value>): string {
    if |features| == 0 then ""
    else
      (if "studytime" in features then "_st" + Json.Render(features["studytime"]) else "")
      + (if "failures" in features then "_f" + Json.Render(features["failures"]) else "")
  }

  /** Without features the key is exactly "score_<s>". */
  lemma StateKeyWithoutFeatures(score: int)
    ensures StateKey(score, map[]) == "score_" + Strings.IntToString(score)
  {
  }

  /** The text between "score_" and the first following underscore. */
  function KeyScoreText(key: string): string {
    if |key| < 6 then "" else UpToUnderscore(key[6..])
  }

  function UpToUnderscore(s: string): (t: string)
    ensures |t| <= |s|
  {
    if s == [] || s[0] == '_' then [] else [s[0]] + UpToUnderscore(s[1..])
  }

  /** Text without underscores is read back in full up to a suffix that is
      empty or starts with an underscore. */
  lemma {:induction false} UpToUnderscoreOfConcat(t: string, rest: string)
    requires forall i :: 0 <= i < |t| ==> t[i] != '_'
    requires rest == [] || rest[0] == '_'
    ensures UpToUnderscore(t + rest) == t
  {
    if t != [] {
      assert (t + rest)[1..] == t[1..] + rest;
      UpToUnderscoreOfConcat(t[1..], rest);
    }
  }

  /** The score can be read back from its key, whatever the features. */
  lemma KeyScoreTextOfStateKey(score: int, features: map<string, Json.Value>)
    ensures KeyScoreText(StateKey(score, features)) == Strings.IntToString(score)
  {
    var t, rest := Strings.IntToString(score), FeatureSuffix(features);
    assert StateKey(score, features)[6..] == t + rest;
    forall i | 0 <= i < |t|
      ensures t[i] != '_'
    {
      NumberHasNoUnderscore(score, i);
    }
    SuffixShape(features);
    UpToUnderscoreOfConcat(t, rest);
  }

  /** Hence keys built from different scores never coincide. */
  lemma StateKeyDeterminesScore(a: int, fa: map<string, Json.Value>, b: int, fb: map<string, Json.Value>)
    requires StateKey(a, fa) == StateKey(b, fb)
    ensures a == b
  {
    KeyScoreTextOfStateKey(a, fa);
    KeyScoreTextOfStateKey(b, fb);
    Strings.IntToStringInjective(a, b);
  }

  /** A non-empty suffix starts with an underscore. */
  lemma SuffixShape(features: map<string, Json.Value>)
    ensures FeatureSuffix(features) != [] ==> FeatureSuffix(features)[0] == '_'
  {
  }

  /** A rendered integer holds a sign or digits, never an underscore. */
  lemma NumberHasNoUnderscore(n: int, i: nat)
    requires i < |Strings.IntToString(n)|
    ensures Strings.IntToString(n)[i] != '_'
  {
    if n >= 0 {
      assert Strings.IsDigit(Strings.NatToString(n)[i]);
    } else if i > 0 {
      assert Strings.IntToString(n)[i] == Strings.NatToString(-n)[i - 1];
      assert Strings.IsDigit(Strings.NatToString(-n)[i - 1]);
    }
  }

  // ---------------------------------------------------------------------
  // The Q-table as a value
  // ---------------------------------------------------------------------

  type QTable = map<string, map<int, real>>

  /** `q_table[state][action]`, reading a missing entry as 0.0. */
  function Lookup(table: QTable, state: string, action: int): real {
    if state in table && action in table[state] then table[state][action] else 0.0
  }

  /** The row of a state, empty when the state is unknown. */
  function Row(table: QTable, state: string): map<int, real> {
    if state in table then table[state] else map[]
  }

  /** Python's `max` of two Q-values. */
  function RealMax(a: real, b: real): real {
    if a >= b then a else b
  }

  /** `max(q_table[state][a] for a in actions)`. */
  function MaxQ(table: QTable, state: string): (m: real)
    ensures forall a :: a in Actions ==> Lookup(table, state, a) <= m
    ensures exists a :: a in Actions && Lookup(table, state, a) == m
  {
    assert Actions == [-2, -1, 0, 1, 2];
    RealMax(RealMax(RealMax(RealMax(Lookup(table, state, -2), Lookup(table, state, -1)),
                            Lookup(table, state, 0)), Lookup(table, state, 1)), Lookup(table, state, 2))
  }

  /** The value an update moves towards: r + gamma * max Q(s', .). */
  function QTarget(reward: real, gamma: real, nextMax: real): real {
    reward + gamma * nextMax
  }

  /** The Q-learning rule: Q + alpha * (target - Q). */
  function QLearningValue(q: real, target: real, alpha: real): real {
    q + alpha * (target - q)
  }

  /** The table after one Q-learning update of (state, action). */
  function QLearned(table: QTable, state: string, action: int, reward: real, nextState: string,
                    alpha: real, gamma: real): QTable {
    var newQ := QLearningValue(Lookup(table, state, action), QTarget(reward, gamma, MaxQ(table, nextState)), alpha);
    table[state := Row(table, state)[action := newQ]]
  }

  /** One update changes exactly the updated entry: every other lookup,
      missing entries included, reads as before. */
  lemma QLearnedChangesOneEntry(table: QTable, state: string, action: int, reward: real,
                                nextState: string, alpha: real, gamma: real, s: string, a: int)
    ensures Lookup(QLearned(table, state, action, reward, nextState, alpha, gamma), s, a) ==
              if s == state && a == action
              then QLearningValue(Lookup(table, state, action), QTarget(reward, gamma, MaxQ(table, nextState)), alpha)
              else Lookup(table, s, a)
  {
  }

  /** With a learning rate in [0, 1] the new value lies between the old value
      and the target r + gamma * max Q(s', .), and a value already at its
      target stays put. */
  lemma QLearningMovesTowardTarget(q: real, target: real, alpha: real)
    requires 0.0 <= alpha <= 1.0
    ensures q <= target ==> q <= QLearningValue(q, target, alpha) <= target
    ensures target <= q ==> target <= QLearningValue(q, target, alpha) <= q
    ensures q == target ==> QLearningValue(q, target, alpha) == q
  {
    var d := target - q;
    ScaledBetween(alpha, d);
    assert QLearningValue(q, target, alpha) == q + alpha * d;
  }

  lemma ScaledBetween(alpha: real, d: real)
    requires 0.0 <= alpha <= 1.0
    ensures d >= 0.0 ==> 0.0 <= alpha * d <= d
    ensures d <= 0.0 ==> d <= alpha * d <= 0.0
  {
  }

  /** The action that should have been taken and the reward, for the valid
      feedback strings. */
  function FeedbackStep(feedback: string): (step: (int, real))
    requires IsValidFeedback(feedback)
  {
    if feedback == "true" then (0, 1.0)
    else if feedback == "higher" then (1, 0.5)
    else (-1, 0.5)
  }

  /** The action agrees with `get_target_adjustment`; the reward agrees with
      `get_reward` only for "true" (a correction earns +0.5 here but -0.5
      there). */
  lemma FeedbackStepAgreesWithRLFeedback(fb: RLFeedback)
    requires IsValidFeedback(fb.feedback)
    ensures FeedbackStep(fb.feedback).0 == GetTargetAdjustment(fb)
    ensures FeedbackStep(fb.feedback).1 == GetReward(fb) <==> fb.feedback == "true"
    ensures FeedbackStep(fb.feedback).1 > 0.0
  {
  }

  /** The table after `apply_feedback`: unchanged for an unknown feedback
      string, otherwise one update of the state's optimal action, towards the
      state of the clipped, corrected score. */
  function FeedbackTable(table: QTable, score: int, feedback: string,
                         features: map<string, Json.Value>, alpha: real, gamma: real): QTable {
    if !IsValidFeedback(feedback) then table
    else
      var (action, reward) := FeedbackStep(feedback);
      QLearned(table, StateKey(score, features), action, reward,
               StateKey(Clip(score + action, 1, 10), features), alpha, gamma)
  }

  /** The rewards `apply_feedback` records. */
  function FeedbackRewards(feedback: string): seq<real> {
    if IsValidFeedback(feedback) then [FeedbackStep(feedback).1] else []
  }

  /** Feedback only ever touches the entry of its own state and optimal
      action; "true" rewards action 0, "higher" action 1, "lower" action -1. */
  lemma FeedbackTouchesOptimalAction(table: QTable, score: int, feedback: string,
                                     features: map<string, Json.Value>, alpha: real, gamma: real,
                                     s: string, a: int)
    requires Lookup(FeedbackTable(table, score, feedback, features, alpha, gamma), s, a) != Lookup(table, s, a)
    ensures IsValidFeedback(feedback) && s == StateKey(score, features)
    ensures feedback == "true" ==> a == 0
    ensures feedback == "higher" ==> a == 1
    ensures feedback == "lower" ==> a == -1
  {
    if IsValidFeedback(feedback) {
      var (action, reward) := FeedbackStep(feedback);
      QLearnedChangesOneEntry(table, StateKey(score, features), action, reward,
                              StateKey(Clip(score + action, 1, 10), features), alpha, gamma, s, a);
    }
  }

  /** Every stored Q-value is non-negative. */
  predicate NonNegativeTable(table: QTable) {
    forall s, a :: s in table && a in table[s] ==> table[s][a] >= 0.0
  }

  lemma LookupNonNegative(table: QTable, s: string, a: int)
    requires NonNegativeTable(table)
    ensures Lookup(table, s, a) >= 0.0 && MaxQ(table, s) >= 0.0
  {
    assert -2 in Actions;
  }

  /** An update with a non-negative reward keeps a table non-negative. */
  lemma QLearnedKeepsNonNegative(table: QTable, state: string, action: int, reward: real, nextState: string,
                                 alpha: real, gamma: real)
    requires NonNegativeTable(table) && reward >= 0.0 && 0.0 <= alpha <= 1.0 && gamma >= 0.0
    ensures NonNegativeTable(QLearned(table, state, action, reward, nextState, alpha, gamma))
  {
    var q, m := Lookup(table, state, action), MaxQ(table, nextState);
    LookupNonNegative(table, state, action);
    LookupNonNegative(table, nextState, action);
    NonNegativeProduct(gamma, m);
    QLearningMovesTowardTarget(q, QTarget(reward, gamma, m), alpha);
    var v := QLearningValue(q, QTarget(reward, gamma, m), alpha);
    assert v >= 0.0;
    var row := Row(table, state);
    var t := table[state := row[action := v]];
    assert t == QLearned(table, state, action, reward, nextState, alpha, gamma);
    forall s, a | s in t && a in t[s]
      ensures t[s][a] >= 0.0
    {
      if s == state && a != action {
        assert t[s][a] == row[a] == table[s][a];
      }
    }
  }

  /** Feedback rewards are positive, so a table of non-negative values
      stays non-negative. */
  lemma FeedbackKeepsNonNegative(table: QTable, score: int, feedback: string,
                                 features: map<string, Json.Value>, alpha: real, gamma: real)
    requires NonNegativeTable(table) && 0.0 <= alpha <= 1.0 && gamma >= 0.0
    ensures NonNegativeTable(FeedbackTable(table, score, feedback, features, alpha, gamma))
  {
    if IsValidFeedback(feedback) {
      var step := FeedbackStep(feedback);
      QLearnedKeepsNonNegative(table, StateKey(score, features), step.0, step.1,
                               StateKey(Clip(score + step.0, 1, 10), features), alpha, gamma);
    }
  }

  lemma NonNegativeProduct(x: real, y: real)
    requires x >= 0.0 && y >= 0.0
    ensures x * y >= 0.0
  {
  }

  lemma PositiveProduct(x: real, y: real)
    requires x > 0.0 && y > 0.0
    ensures x * y > 0.0
  {
  }

  /** A positive reward on a state without a row makes the rewarded action
      the only action of maximal value there. */
  lemma QLearnedFreshState(table: QTable, state: string, action: int, reward: real, nextState: string,
                           alpha: real, gamma: real)
    requires NonNegativeTable(table) && state !in table
    requires reward > 0.0 && 0.0 < alpha <= 1.0 && gamma >= 0.0
    ensures var t := QLearned(table, state, action, reward, nextState, alpha, gamma);
            forall a :: a != action ==> Lookup(t, state, a) < Lookup(t, state, action)
  {
    var m := MaxQ(table, nextState);
    LookupNonNegative(table, nextState, action);
    NonNegativeProduct(gamma, m);
    PositiveProduct(alpha, QTarget(reward, gamma, m));
    assert QLearningValue(0.0, QTarget(reward, gamma, m), alpha) > 0.0;
  }

  /** Feedback on a state the table has never seen makes its optimal action
      the only action of maximal value there: afterwards "true" is confirmed
      by 0, "higher" by +1, "lower" by -1. */
  lemma FeedbackTeachesOptimalAction(table: QTable, score: int, feedback: string,
                                     features: map<string, Json.Value>, alpha: real, gamma: real)
    requires IsValidFeedback(feedback) && NonNegativeTable(table)
    requires StateKey(score, features) !in table
    requires 0.0 < alpha <= 1.0 && gamma >= 0.0
    ensures var s, t := StateKey(score, features), FeedbackTable(table, score, feedback, features, alpha, gamma);
            forall a :: a != FeedbackStep(feedback).0 ==> Lookup(t, s, a) < Lookup(t, s, FeedbackStep(feedback).0)
  {
    var s := StateKey(score, features);
    if feedback == "true" {
      QLearnedFreshState(table, s, 0, 1.0, StateKey(Clip(score, 1, 10), features), alpha, gamma);
    } else if feedback == "higher" {
      QLearnedFreshState(table, s, 1, 0.5, StateKey(Clip(score + 1, 1, 10), features), alpha, gamma);
    } else {
      QLearnedFreshState(table, s, -1, 0.5, StateKey(Clip(score + -1, 1, 10), features), alpha, gamma);
    }
  }

  // ---------------------------------------------------------------------
  // `RLAdjustmentLayer`
  // ---------------------------------------------------------------------

  class RLAdjustmentLayer {
    const learningRate: real
    const discountFactor: real
    const epsilon: real
    var qTable: QTable
    var episodeRewards: seq<real>

    constructor (learningRate: real, discountFactor: real, epsilon: real)
      ensures this.learningRate == learningRate && this.discountFactor == discountFactor
      ensures this.epsilon == epsilon
      ensures qTable == map[] && episodeRewards == []
    {
      this.learningRate := learningRate;
      this.discountFactor := discountFactor;
      this.epsilon := epsilon;
      qTable := map[];
      episodeRewards := [];
    }

    function Q(state: string, action: int): real
      reads this
    {
      Lookup(qTable, state, action)
    }

    /** `score` is `base` moved by an action of maximal Q-value in the state
        of `base`, and clipped to 1..10. */
    predicate IsGreedyAdjustment(score: int, base: int, features: map<string, Json.Value>)
      reads this
    {
      exists a :: a in Actions && score == Clip(base + a, 1, 10) &&
        forall b :: b in Actions ==> Q(StateKey(base, features), b) <= Q(StateKey(base, features), a)
    }

    /** Greedy `select_action` (training = False): some action of maximal
        Q-value in the state; the random tie-break is a free choice. */
    method SelectAction(state: string) returns (action: int)
      ensures action in Actions
      ensures forall a :: a in Actions ==> Q(state, a) <= Q(state, action)
    {
      var maxQ := MaxQ(qTable, state);
      var bestActions := BestActions(qTable, state, Actions, maxQ);
      var choice :| 0 <= choice < |bestActions|;
      action := bestActions[choice];
    }

    /** `get_adjustment`: the greedy action of the score's state. */
    method GetAdjustment(predictedScore: int, features: map<string, Json.Value>) returns (action: int)
      ensures action in Actions
      ensures forall a :: a in Actions ==>
                Q(StateKey(predictedScore, features), a) <= Q(StateKey(predictedScore, features), action)
    {
      var state := StateKey(predictedScore, features);
      action := SelectAction(state);
    }

    /** `update_q_value`: one Q-learning step on (state, action), reading the
        next state's values before the write, and the reward recorded. */
    method UpdateQValue(state: string, action: int, reward: real, nextState: string)
      modifies this
      ensures qTable == QLearned(old(qTable), state, action, reward, nextState, learningRate, discountFactor)
      ensures episodeRewards == old(episodeRewards) + [reward]
    {
      var currentQ := Lookup(qTable, state, action);
      var nextMaxQ := MaxQ(qTable, nextState);
      var newQ := currentQ + learningRate * (reward + discountFactor * nextMaxQ - currentQ);
      assert newQ == QLearningValue(currentQ, QTarget(reward, discountFactor, nextMaxQ), learningRate);
      var row := Row(qTable, state);
      qTable := qTable[state := row[action := newQ]];
      episodeRewards := episodeRewards + [reward];
    }

    /** `apply_feedback`: an unknown feedback string changes nothing;
        otherwise one update of the optimal action with its reward. */
    method ApplyFeedback(predictedScore: int, feedback: string, features: map<string, Json.Value>)
      modifies this
      ensures qTable == FeedbackTable(old(qTable), predictedScore, feedback, features, learningRate, discountFactor)
      ensures episodeRewards == old(episodeRewards) + FeedbackRewards(feedback)
    {
      var state := StateKey(predictedScore, features);
      var optimalAction: int;
      var reward: real;
      if feedback == "true" {
        optimalAction, reward := 0, 1.0;
      } else if feedback == "higher" {
        optimalAction, reward := 1, 0.5;
      } else if feedback == "lower" {
        optimalAction, reward := -1, 0.5;
      } else {
        return;
      }
      var nextScore := Clip(predictedScore + optimalAction, 1, 10);
      var nextState := StateKey(nextScore, features);
      UpdateQValue(state, optimalAction, reward, nextState);
    }
  }

  /** Hence, right after such feedback, a greedy prediction for the same
      base score and features moves the score by the optimal action. */
  lemma GreedyAfterFeedback(layer: RLAdjustmentLayer, table: QTable, score: int, feedback: string,
                            features: map<string, Json.Value>, adjusted: int)
    requires IsValidFeedback(feedback) && NonNegativeTable(table)
    requires StateKey(score, features) !in table
    requires 0.0 < layer.learningRate <= 1.0 && layer.discountFactor >= 0.0
    requires layer.qTable == FeedbackTable(table, score, feedback, features, layer.learningRate, layer.discountFactor)
    requires layer.IsGreedyAdjustment(adjusted, score, features)
    ensures adjusted == Clip(score + FeedbackStep(feedback).0, 1, 10)
  {
    FeedbackTeachesOptimalAction(table, score, feedback, features, layer.learningRate, layer.discountFactor);
    var a :| a in Actions && adjusted == Clip(score + a, 1, 10) &&
      forall b :: b in Actions ==> layer.Q(StateKey(score, features), b) <= layer.Q(StateKey(score, features), a);
    var opt := FeedbackStep(feedback).0;
    assert opt in Actions;
    assert layer.Q(StateKey(score, features), opt) <= layer.Q(StateKey(score, features), a);
  }

  /** `[a for a in acts if q_table[state][a] == maxQ]`. */
  function BestActions(table: QTable, state: string, acts: seq<int>, maxQ: real): (best: seq<int>)
    requires forall a :: a in acts ==> Lookup(table, state, a) <= maxQ
    requires exists a :: a in acts && Lookup(table, state, a) == maxQ
    ensures best != []
    ensures forall a :: a in best ==> a in acts && Lookup(table, state, a) == maxQ
  {
    if Lookup(table, state, acts[0]) == maxQ then
      [acts[0]] + (if exists a :: a in acts[1..] && Lookup(table, state, a) == maxQ
                   then BestActions(table, state, acts[1..], maxQ) else [])
    else
      BestActions(table, state, acts[1..], maxQ)
  }

  // ---------------------------------------------------------------------
  // `AmICookedRLModel`
  // ---------------------------------------------------------------------

  const NotTrainedMessage := "Model not trained. Call load_and_train_initial_model() first."

  function InvalidFeedbackMessage(feedback: string): string {
    "Invalid feedback: " + feedback + ". Must be 'true', 'higher', or 'lower'"
  }

  /** Python's `int(x)`: truncation toward zero. */
  function Truncate(x: real): (n: int)
    ensures x >= 0.0 ==> n as real <= x < n as real + 1.0
    ensures x < 0.0 ==> n as real - 1.0 < x <= n as real
  {
    if x >= 0.0 then x.Floor else -((-x).Floor)
  }

  /** `max(1, min(10, 11 - int(grade / 2.2)))`: grades 0-20 onto the inverted
      1-10 scale. */
  function BaseScore(grade: real): (s: int)
    ensures 1 <= s <= 10
  {
    var raw := 11 - Truncate(grade / 2.2);
    if raw > 10 then 10 else if raw < 1 then 1 else raw
  }

  /** A better grade never gives a worse (higher) base score; the best grade
      20 gives 2 and a grade below 2.2 gives 10. */
  lemma BaseScoreMonotone(g: real, h: real)
    requires g <= h
    ensures BaseScore(h) <= BaseScore(g)
    ensures BaseScore(20.0) == 2
    ensures 0.0 <= g < 2.2 ==> BaseScore(g) == 10
  {
    TruncateMonotone(g / 2.2, h / 2.2);
  }

  lemma TruncateMonotone(x: real, y: real)
    requires x <= y
    ensures Truncate(x) <= Truncate(y)
  {
  }

  /** Number of "true" verdicts in a feedback history. */
  function CountCorrect(history: seq<RLFeedback>): nat {
    if history == [] then 0
    else CountCorrect(history[..|history| - 1]) + (if history[|history| - 1].feedback == "true" then 1 else 0)
  }

  lemma {:induction false} CountCorrectBounded(history: seq<RLFeedback>)
    ensures CountCorrect(history) <= |history|
  {
    if history != [] {
      CountCorrectBounded(history[..|history| - 1]);
    }
  }

  /** `get_score_label`: the label of a score 1..10, "Unknown" otherwise. */
  function GetScoreLabel(score: int): (text: string)
    ensures text == "Unknown" <==> !(1 <= score <= 10)
  {
    match score
    case 1 => "Chilling - You're crushing it!"
    case 2 => "Excellent - Doing great!"
    case 3 => "Very Good - On a strong path"
    case 4 => "Good - Keeping up well"
    case 5 => "Pretty Good - On track"
    case 6 => "Okay - Room for improvement"
    case 7 => "Concerning - Need to step up"
    case 8 => "Struggling - Seek help soon"
    case 9 => "Very Cooked - Urgent action needed"
    case 10 => "Completely Cooked - Critical situation"
    case _ => "Unknown"
  }

  /** `np.mean` of the recorded rewards, 0.0 when there are none. */
  function Sum(xs: seq<real>): real {
    if xs == [] then 0.0 else Sum(xs[..|xs| - 1]) + xs[|xs| - 1]
  }

  function Mean(xs: seq<real>): real {
    if xs == [] then 0.0 else Sum(xs) / (|xs| as real)
  }

  /** When every reward lies in [lo, hi], so does their mean (apply_feedback
      only records 0.5 and 1.0). */
  lemma MeanBounds(xs: seq<real>, lo: real, hi: real)
    requires xs != [] && forall i :: 0 <= i < |xs| ==> lo <= xs[i] <= hi
    ensures lo <= Mean(xs) <= hi
  {
    SumBounds(xs, lo, hi);
    var n := |xs| as real;
    assert lo * n <= Sum(xs) <= hi * n;
    DivideBounds(Sum(xs), n, lo, hi);
  }

  lemma {:induction false} SumBounds(xs: seq<real>, lo: real, hi: real)
    requires forall i :: 0 <= i < |xs| ==> lo <= xs[i] <= hi
    ensures lo * (|xs| as real) <= Sum(xs) <= hi * (|xs| as real)
  {
    if xs != [] {
      SumBounds(xs[..|xs| - 1], lo, hi);
    }
  }

  lemma DivideBounds(s: real, n: real, lo: real, hi: real)
    requires n > 0.0 && lo * n <= s <= hi * n
    ensures lo <= s / n <= hi
  {
  }

  datatype Stats = Stats(
    isTrained: bool, totalFeedback: int, correctPredictions: int, totalCorrections: int,
    accuracy: real, avgRlReward: real, rlEpisodes: int)

  class AmICookedRLModel {
    const rlLayer: RLAdjustmentLayer
    var isTrained: bool
    var feedbackHistory: seq<RLFeedback>
    var totalCorrections: int
    var correctPredictions: int

    /** The bookkeeping invariant: one correction per recorded feedback, and
        one correct prediction per "true" among them. */
    predicate Valid()
      reads this
    {
      && totalCorrections == |feedbackHistory|
      && correctPredictions == CountCorrect(feedbackHistory)
    }

    constructor ()
      ensures Valid() && !isTrained && feedbackHistory == []
      ensures totalCorrections == 0 && correctPredictions == 0
      ensures fresh(rlLayer) && rlLayer.qTable == map[] && rlLayer.episodeRewards == []
      ensures rlLayer.learningRate == 0.1 && rlLayer.discountFactor == 0.9 && rlLayer.epsilon == 0.05
    {
      rlLayer := new RLAdjustmentLayer(0.1, 0.9, 0.05);
      isTrained := false;
      feedbackHistory := [];
      totalCorrections := 0;
      correctPredictions := 0;
    }

    /** `predict_score` on an opaque base-model grade prediction: an error
        when untrained, otherwise a score in 1..10 - the base score, moved by
        a greedy action of its state when the RL layer is used. */
    method PredictScore(features: map<string, Json.Value>, gradePrediction: real, useRlAdjustment: bool)
      returns (r: Result<int, string>)
      ensures !isTrained ==> r == Failure(NotTrainedMessage)
      ensures isTrained ==> r.Success? && 1 <= r.value <= 10
      ensures isTrained && !useRlAdjustment ==> r.value == BaseScore(gradePrediction)
      ensures isTrained && useRlAdjustment ==>
                rlLayer.IsGreedyAdjustment(r.value, BaseScore(gradePrediction), features)
    {
      if !isTrained {
        return Failure(NotTrainedMessage);
      }
      var baseScore := BaseScore(gradePrediction);
      if useRlAdjustment {
        var adjustment := rlLayer.GetAdjustment(baseScore, features);
        var adjustedScore := Clip(baseScore + adjustment, 1, 10);
        r := Success(adjustedScore);
      } else {
        r := Success(baseScore);
      }
    }

    /** `apply_feedback`: invalid feedback is rejected before any change;
        otherwise the feedback is recorded, the RL layer learns from it in the
        base score's state, and the counters grow. */
    method ApplyFeedback(features: map<string, Json.Value>, predictedScore: int, feedback: string,
                         gradePrediction: real)
      returns (r: Result<(), string>)
      requires isTrained && Valid()
      modifies this, rlLayer
      ensures Valid()
      ensures !IsValidFeedback(feedback) ==>
                r == Failure(InvalidFeedbackMessage(feedback)) && unchanged(this) && unchanged(rlLayer)
      ensures IsValidFeedback(feedback) ==>
                && r.Success?
                && feedbackHistory == old(feedbackHistory) + [RLFeedback(features, predictedScore, feedback)]
                && totalCorrections == old(totalCorrections) + 1
                && correctPredictions == old(correctPredictions) + (if feedback == "true" then 1 else 0)
                && isTrained
                && rlLayer.qTable == FeedbackTable(old(rlLayer.qTable), BaseScore(gradePrediction), feedback,
                                                   features, rlLayer.learningRate, rlLayer.discountFactor)
                && rlLayer.episodeRewards == old(rlLayer.episodeRewards) + FeedbackRewards(feedback)
    {
      if !IsValidFeedback(feedback) {
        return Failure(InvalidFeedbackMessage(feedback));
      }
      var rlFeedback := RLFeedback(features, predictedScore, feedback);
      feedbackHistory := feedbackHistory + [rlFeedback];
      assert feedbackHistory[..|feedbackHistory| - 1] == old(feedbackHistory);
      var baseScore := BaseScore(gradePrediction);
      rlLayer.ApplyFeedback(baseScore, feedback, features);
      totalCorrections := totalCorrections + 1;
      if feedback == "true" {
        correctPredictions := correctPredictions + 1;
      }
      r := Success(());
    }

    /** `get_stats`, without the base model's R2 score and the Q-table size. */
    function GetStats(): (s: Stats)
      reads this, rlLayer
      ensures Valid() ==> 0.0 <= s.accuracy <= 1.0
      ensures totalCorrections == 0 ==> s.accuracy == 0.0
      ensures totalCorrections > 0 ==> s.accuracy * (totalCorrections as real) == correctPredictions as real
      ensures s.totalFeedback == |feedbackHistory| && s.rlEpisodes == |rlLayer.episodeRewards|
    {
      var accuracy := if totalCorrections > 0 then (correctPredictions as real) / (totalCorrections as real) else 0.0;
      if Valid() && totalCorrections > 0 then
        CountCorrectBounded(feedbackHistory);
        DivideBounds(correctPredictions as real, totalCorrections as real, 0.0, 1.0);
        Stats(isTrained, |feedbackHistory|, correctPredictions, totalCorrections, accuracy,
              Mean(rlLayer.episodeRewards), |rlLayer.episodeRewards|)
      else
        Stats(isTrained, |feedbackHistory|, correctPredictions, totalCorrections, accuracy,
              Mean(rlLayer.episodeRewards), |rlLayer.episodeRewards|)
    }
  }
}
