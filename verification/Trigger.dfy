/** The trigger policy of a native check and its saturating streak counters. */
module Trigger {

  datatype Outcome = Healthy | Unhealthy | Unknown

  datatype Policy = Policy(failureThreshold: int, recoveryThreshold: int)

  datatype Streaks = Streaks(unhealthy: int, healthy: int)

  datatype Decision = Decision(streaks: Streaks, triggered: bool, recovered: bool)

  predicate ValidPolicy(policy: Policy)
  {
    1 <= policy.failureThreshold <= 10 && 1 <= policy.recoveryThreshold <= 10
  }

  function Min(a: int, b: int): int { if a <= b then a else b }

  /** Confronts one observation with the streaks left by the ones before it. */
  function Evaluate(policy: Policy, streaks: Streaks, outcome: Outcome): Decision
  {
    match outcome
    case Unhealthy =>
      var u := Min(streaks.unhealthy + 1, policy.failureThreshold);
      Decision(Streaks(u, 0), u >= policy.failureThreshold, false)
    case Healthy =>
      var h := Min(streaks.healthy + 1, policy.recoveryThreshold);
      Decision(Streaks(0, h), false, h >= policy.recoveryThreshold)
    case Unknown => Decision(streaks, false, false)
  }

  // ----- Whole histories -----

  /** The streaks persisted after a history of observations. */
  function After(policy: Policy, history: seq<Outcome>): Streaks
  {
    if history == [] then Streaks(0, 0)
    else Evaluate(policy, After(policy, history[..|history| - 1]), history[|history| - 1]).streaks
  }

  /** The observations that conclude something. */
  function Conclusive(history: seq<Outcome>): seq<Outcome>
  {
    if history == [] then []
    else
      var rest := Conclusive(history[..|history| - 1]);
      if history[|history| - 1] == Unknown then rest else rest + [history[|history| - 1]]
  }

  /** The last `n` observations are all `x`. */
  predicate EndsWith(history: seq<Outcome>, n: int, x: Outcome)
  {
    n <= |history| && forall k :: 0 <= k < |history| && |history| - n <= k ==> history[k] == x
  }

  /** How many times `x` was observed in a row at the end of a history. */
  function Run(history: seq<Outcome>, x: Outcome): nat
  {
    if history == [] || history[|history| - 1] != x then 0 else 1 + Run(history[..|history| - 1], x)
  }

  lemma {:induction false} RunMeaning(history: seq<Outcome>, n: nat, x: Outcome)
    ensures EndsWith(history, n, x) <==> n <= Run(history, x)
  {
    if history != [] && history[|history| - 1] == x && n > 0 {
      var init := history[..|history| - 1];
      RunMeaning(init, n - 1, x);
      if EndsWith(init, n - 1, x) {
        forall k | 0 <= k < |history| && |history| - n <= k
          ensures history[k] == x
        {
          assert k < |init| ==> init[k] == history[k];
        }
      }
      if EndsWith(history, n, x) {
        assert forall k :: 0 <= k < |init| ==> init[k] == history[k];
      }
    } else if n > 0 && history != [] {
      var last := history[|history| - 1];
      assert EndsWith(history, n, x) ==> last == x;
    }
  }

  lemma ConclusiveSnoc(history: seq<Outcome>, o: Outcome)
    ensures Conclusive(history + [o]) == if o == Unknown then Conclusive(history) else Conclusive(history) + [o]
  {
    assert (history + [o])[..|history|] == history;
  }

  lemma RunSnoc(history: seq<Outcome>, o: Outcome, x: Outcome)
    ensures Run(history + [o], x) == if o == x then 1 + Run(history, x) else 0
  {
    assert (history + [o])[..|history|] == history;
  }

  /** The saturating streaks are the unbounded ones cut at their threshold. */
  lemma {:induction false} StreaksRefineHistory(policy: Policy, history: seq<Outcome>)
    requires ValidPolicy(policy)
    ensures After(policy, history).unhealthy == Min(Run(Conclusive(history), Unhealthy), policy.failureThreshold)
    ensures After(policy, history).healthy == Min(Run(Conclusive(history), Healthy), policy.recoveryThreshold)
  {
    if history != [] {
      var init, last := history[..|history| - 1], history[|history| - 1];
      StreaksRefineHistory(policy, init);
      RunSnoc(Conclusive(init), last, Unhealthy);
      RunSnoc(Conclusive(init), last, Healthy);
    }
  }

  /** The observation `o` after `history` triggers: it is unhealthy, like the last conclusive ones up to the threshold. */
  predicate Triggers(policy: Policy, history: seq<Outcome>, o: Outcome)
  {
    o == Unhealthy && EndsWith(Conclusive(history + [o]), policy.failureThreshold, Unhealthy)
  }

  predicate Recovers(policy: Policy, history: seq<Outcome>, o: Outcome)
  {
    o == Healthy && EndsWith(Conclusive(history + [o]), policy.recoveryThreshold, Healthy)
  }

  /** Decisions taken from the streaks are the ones the whole history calls for. */
  lemma DecisionFromHistory(policy: Policy, history: seq<Outcome>, o: Outcome)
    requires ValidPolicy(policy)
    ensures Evaluate(policy, After(policy, history), o).triggered <==> Triggers(policy, history, o)
    ensures Evaluate(policy, After(policy, history), o).recovered <==> Recovers(policy, history, o)
    ensures Evaluate(policy, After(policy, history), o).streaks == After(policy, history + [o])
  {
    assert (history + [o])[..|history|] == history;
    StreaksRefineHistory(policy, history);
    ConclusiveSnoc(history, o);
    RunSnoc(Conclusive(history), o, Unhealthy);
    RunSnoc(Conclusive(history), o, Healthy);
    RunMeaning(Conclusive(history + [o]), policy.failureThreshold, Unhealthy);
    RunMeaning(Conclusive(history + [o]), policy.recoveryThreshold, Healthy);
  }

  /** Inconclusive observations can be erased: the streaks, hence every later decision, are the same without them. */
  lemma {:induction false} UnknownErasable(policy: Policy, history: seq<Outcome>)
    ensures After(policy, Conclusive(history)) == After(policy, history)
  {
    if history != [] {
      var init, last := history[..|history| - 1], history[|history| - 1];
      UnknownErasable(policy, init);
      if last != Unknown {
        assert (Conclusive(init) + [last])[..|Conclusive(init)|] == Conclusive(init);
      }
    }
  }

  // ----- The alarm a history leaves raised -----

  predicate TriggersAt(policy: Policy, history: seq<Outcome>, k: nat)
  {
    k < |history| && Triggers(policy, history[..k], history[k])
  }

  predicate RecoversAt(policy: Policy, history: seq<Outcome>, k: nat)
  {
    k < |history| && Recovers(policy, history[..k], history[k])
  }

  /** The latest trigger follows the latest recovery. */
  predicate Raised(policy: Policy, history: seq<Outcome>)
  {
    exists k :: 0 <= k < |history| && TriggersAt(policy, history, k) &&
      forall l :: k < l < |history| ==> !RecoversAt(policy, history, l)
  }

  lemma PrefixAt(policy: Policy, history: seq<Outcome>, o: Outcome, k: nat)
    requires k < |history|
    ensures TriggersAt(policy, history + [o], k) == TriggersAt(policy, history, k)
    ensures RecoversAt(policy, history + [o], k) == RecoversAt(policy, history, k)
  {
    assert (history + [o])[..k] == history[..k];
  }

  /** A trigger raises the alarm, a recovery lowers it, anything else leaves it. */
  lemma RaisedSnoc(policy: Policy, history: seq<Outcome>, o: Outcome)
    ensures Raised(policy, history + [o]) <==>
      Triggers(policy, history, o) || (Raised(policy, history) && !Recovers(policy, history, o))
  {
    var longer, n := history + [o], |history|;
    assert longer[..n] == history && longer[n] == o;
    assert TriggersAt(policy, longer, n) == Triggers(policy, history, o);
    assert RecoversAt(policy, longer, n) == Recovers(policy, history, o);
    forall k | 0 <= k < n
      ensures TriggersAt(policy, longer, k) == TriggersAt(policy, history, k)
      ensures RecoversAt(policy, longer, k) == RecoversAt(policy, history, k)
    {
      PrefixAt(policy, history, o, k);
    }
    if k :| 0 <= k < n && TriggersAt(policy, history, k) && forall l :: k < l < n ==> !RecoversAt(policy, history, l) {
      if !Recovers(policy, history, o) {
        assert TriggersAt(policy, longer, k);
      }
    }
  }
}
