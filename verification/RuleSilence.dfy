/**
 * When a rule can fail without explanation. For trees whose checks are pairwise distinct and that have no
 * constant node, the shapes that always explain their failures are exactly the explaining ones.
 */
module RuleSilence {
  import opened Rules

  /** No All or Any without children, which would be constantly true or false. */
  predicate NoConstant<A>(r: Rule<A>) {
    match r
    case Check(_) => true
    case Not(inner) => NoConstant(inner)
    case All(rules) => rules != [] && forall i | 0 <= i < |rules| :: NoConstant(rules[i])
    case Any(rules) => rules != [] && forall i | 0 <= i < |rules| :: NoConstant(rules[i])
  }

  ghost predicate Distinct<A>(s: seq<A>) {
    forall i, j :: 0 <= i < j < |s| ==> s[i] != s[j]
  }

  // ── Locality ────────────────────────────────────────────────

  function Parts<A>(rules: seq<Rule<A>>): seq<seq<A>> {
    seq(|rules|, i requires 0 <= i < |rules| => CollectChecks(rules[i]))
  }

  lemma ChecksOfChild<A>(rules: seq<Rule<A>>, i: nat, a: A)
    requires i < |rules| && a in CollectChecks(rules[i])
    ensures a in Flatten(Parts(rules))
  {
    InFlatten(Parts(rules), a);
    assert a in Parts(rules)[i];
  }

  /** Only the values of a tree's own checks matter to it. */
  lemma {:induction false} Local<A(!new)>(r: Rule<A>, p: A -> bool, q: A -> bool)
    requires forall a | a in CollectChecks(r) :: p(a) == q(a)
    ensures EvaluateDetailed(r, p) == EvaluateDetailed(r, q)
  {
    match r {
      case Check(a) =>
        assert a in CollectChecks(r);
      case Not(inner) => Local(inner, p, q);
      case _ =>
        assert CollectChecks(r) == Flatten(Parts(r.rules));
        var ps := seq(|r.rules|, i requires 0 <= i < |r.rules| => EvaluateDetailed(r.rules[i], p));
        var qs := seq(|r.rules|, i requires 0 <= i < |r.rules| => EvaluateDetailed(r.rules[i], q));
        forall i | 0 <= i < |r.rules| ensures ps[i] == qs[i] {
          forall a | a in CollectChecks(r.rules[i]) ensures p(a) == q(a) {
            ChecksOfChild(r.rules, i, a);
          }
          Local(r.rules[i], p, q);
        }
        assert ps == qs;
    }
  }

  // ── Distinct checks of different children ───────────────────

  lemma {:induction false} DistinctParts<A>(parts: seq<seq<A>>, i: nat)
    requires Distinct(Flatten(parts)) && i < |parts|
    ensures Distinct(parts[i])
    ensures forall j, a | 0 <= j < |parts| && j != i && a in parts[i] :: a !in parts[j]
  {
    var n := |parts| - 1;
    var front := Flatten(parts[..n]);
    var all := Flatten(parts);
    assert all == front + parts[n];
    assert Distinct(front) by {
      assert forall k :: 0 <= k < |front| ==> all[k] == front[k];
    }
    assert forall k :: 0 <= k < |parts[n]| ==> all[|front| + k] == parts[n][k];
    if i < n {
      DistinctParts(parts[..n], i);
      forall a | a in parts[i] ensures a !in parts[n] {
        PartInFront(parts, i, a);
        LastIsApart(parts, a);
      }
    } else {
      forall j, a | 0 <= j < n && a in parts[n] ensures a !in parts[j] {
        if a in parts[j] {
          PartInFront(parts, j, a);
          LastIsApart(parts, a);
          assert false;
        }
      }
    }
  }

  lemma PartInFront<A>(parts: seq<seq<A>>, i: nat, a: A)
    requires i < |parts| - 1 && a in parts[i]
    ensures a in Flatten(parts[..|parts| - 1])
  {
    InFlatten(parts[..|parts| - 1], a);
    assert a in parts[..|parts| - 1][i];
  }

  lemma LastIsApart<A>(parts: seq<seq<A>>, a: A)
    requires parts != [] && Distinct(Flatten(parts)) && a in Flatten(parts[..|parts| - 1])
    ensures a !in parts[|parts| - 1]
  {
    HalvesAreApart(Flatten(parts[..|parts| - 1]), parts[|parts| - 1], a);
  }

  lemma HalvesAreApart<A>(front: seq<A>, last: seq<A>, a: A)
    requires Distinct(front + last) && a in front
    ensures a !in last
  {
    var k :| 0 <= k < |front| && front[k] == a;
    forall m | 0 <= m < |last| ensures last[m] != a {
      assert (front + last)[k] == a && (front + last)[|front| + m] == last[m];
    }
  }

  // ── Goals for one tree, and for several at once ─────────────

  datatype Goal = ToPass | ToFail | SilentFail | SilentPass

  /** With exactly the checks of `t` true, the tree meets the goal. */
  ghost predicate Meets<A>(r: Rule<A>, t: set<A>, goal: Goal) {
    var p := a => a in t;
    match goal
    case ToPass => Evaluate(r, p)
    case ToFail => !Evaluate(r, p)
    case SilentFail => !Evaluate(r, p) && Failures(r, p) == []
    case SilentPass => Evaluate(r, p) && Passes(r, p) == []
  }

  ghost predicate Possible<A(!new)>(r: Rule<A>, goal: Goal) {
    exists t: set<A> :: Meets(r, t, goal)
  }

  lemma MeetsIsLocal<A(!new)>(r: Rule<A>, t: set<A>, t': set<A>, goal: Goal)
    requires Meets(r, t, goal) && forall a | a in CollectChecks(r) :: a in t <==> a in t'
    ensures Meets(r, t', goal)
  {
    Local(r, a => a in t, a => a in t');
    DetailedAgrees(r, a => a in t);
    DetailedAgrees(r, a => a in t');
  }

  ghost predicate AllMeet<A>(rules: seq<Rule<A>>, t: set<A>, goals: seq<Goal>)
    requires |goals| == |rules|
  {
    forall i :: 0 <= i < |rules| ==> Meets(rules[i], t, goals[i])
  }

  /** Trees without shared checks meet their goals together if each can alone. */
  lemma {:induction false} Together<A(!new)>(rules: seq<Rule<A>>, goals: seq<Goal>) returns (t: set<A>)
    requires |goals| == |rules| && Distinct(Flatten(Parts(rules)))
    requires forall i :: 0 <= i < |rules| ==> Possible(rules[i], goals[i])
    ensures AllMeet(rules, t, goals)
  {
    if rules == [] {
      t := {};
    } else {
      var n := |rules| - 1;
      assert Parts(rules)[..n] == Parts(rules[..n]);
      FrontDistinct(Parts(rules));
      var front := Together(rules[..n], goals[..n]);
      var last :| Meets(rules[n], last, goals[n]);
      var own := set a | a in CollectChecks(rules[n]);
      t := (front - own) + (last * own);
      MeetsIsLocal(rules[n], last, t, goals[n]);
      forall i | 0 <= i < n ensures Meets(rules[i], t, goals[i]) {
        forall a | a in CollectChecks(rules[i]) ensures a in front <==> a in t {
          DistinctParts(Parts(rules), i);
          assert a in Parts(rules)[i] && a !in Parts(rules)[n];
        }
        assert Meets(rules[..n][i], front, goals[..n][i]);
        MeetsIsLocal(rules[i], front, t, goals[i]);
      }
    }
  }

  lemma FrontDistinct<A>(parts: seq<seq<A>>)
    requires parts != [] && Distinct(Flatten(parts))
    ensures Distinct(Flatten(parts[..|parts| - 1]))
  {
    var front := Flatten(parts[..|parts| - 1]);
    assert forall k :: 0 <= k < |front| ==> Flatten(parts)[k] == front[k];
  }

  lemma {:induction false} FlattenEmpty<A>(parts: seq<seq<A>>)
    requires forall i :: 0 <= i < |parts| ==> parts[i] == []
    ensures Flatten(parts) == []
  {
    if parts != [] {
      FlattenEmpty(parts[..|parts| - 1]);
    }
  }

  /** Nothing reported below, nothing reported above. */
  lemma SilentNode<A>(r: Rule<A>, p: A -> bool)
    requires r.All? || r.Any?
    ensures !Evaluate(r, p) && (forall i :: 0 <= i < |r.rules| ==> Failures(r.rules[i], p) == []) ==>
              Failures(r, p) == []
    ensures Evaluate(r, p) && (forall i :: 0 <= i < |r.rules| ==> Passes(r.rules[i], p) == []) ==> Passes(r, p) == []
  {
    FailuresOfNode(r, p);
    PassesOfNode(r, p);
    if forall i :: 0 <= i < |r.rules| ==> Failures(r.rules[i], p) == [] {
      FlattenEmpty(seq(|r.rules|, i requires 0 <= i < |r.rules| => Failures(r.rules[i], p)));
    }
    if forall i :: 0 <= i < |r.rules| ==> Passes(r.rules[i], p) == [] {
      FlattenEmpty(seq(|r.rules|, i requires 0 <= i < |r.rules| => Passes(r.rules[i], p)));
    }
  }

  /** A child that passes reports no failure, one that fails lists no pass. */
  lemma GoalOfChild<A>(r: Rule<A>, t: set<A>, goal: Goal)
    requires Meets(r, t, goal)
    ensures goal in {ToPass, SilentFail, SilentPass} ==> Failures(r, a => a in t) == []
    ensures goal in {ToFail, SilentFail, SilentPass} ==> Passes(r, a => a in t) == []
  {
    FailuresOfNode(r, a => a in t);
    PassesOfNode(r, a => a in t);
  }

  // ── Every goal is possible unless the shape forbids it ──────

  ghost predicate Flexible<A(!new)>(r: Rule<A>) {
    && Possible(r, ToPass) && Possible(r, ToFail)
    && (!ExplainsFailure(r) ==> Possible(r, SilentFail))
    && (!ExplainsPass(r) ==> Possible(r, SilentPass))
  }

  function Uniform(n: nat, goal: Goal): (goals: seq<Goal>)
    ensures |goals| == n && forall i :: 0 <= i < n ==> goals[i] == goal
  {
    seq(n, _ => goal)
  }

  lemma FlexibleAll<A(!new)>(rules: seq<Rule<A>>)
    requires rules != [] && Distinct(Flatten(Parts(rules))) && forall i :: 0 <= i < |rules| ==> Flexible(rules[i])
    ensures Flexible(All(rules))
  {
    var r := All(rules);
    var t := Together(rules, Uniform(|rules|, ToPass));
    assert Meets(r, t, ToPass);
    t := Together(rules, Uniform(|rules|, ToFail));
    assert Meets(rules[0], t, ToFail) && Meets(r, t, ToFail);
    if !ExplainsFailure(r) {
      var i :| 0 <= i < |rules| && !ExplainsFailure(rules[i]);
      OneSilent(r, i, SilentFail);
    }
    if !ExplainsPass(r) {
      AllSilent(r, SilentPass);
    }
  }

  lemma FlexibleAny<A(!new)>(rules: seq<Rule<A>>)
    requires rules != [] && Distinct(Flatten(Parts(rules))) && forall i :: 0 <= i < |rules| ==> Flexible(rules[i])
    ensures Flexible(Any(rules))
  {
    var r := Any(rules);
    var t := Together(rules, Uniform(|rules|, ToPass));
    assert Meets(rules[0], t, ToPass) && Meets(r, t, ToPass);
    t := Together(rules, Uniform(|rules|, ToFail));
    assert Meets(r, t, ToFail);
    if !ExplainsFailure(r) {
      AllSilent(r, SilentFail);
    }
    if !ExplainsPass(r) {
      var i :| 0 <= i < |rules| && !ExplainsPass(rules[i]);
      OneSilent(r, i, SilentPass);
    }
  }

  /** One silent child decides, the others side with the node against reporting. */
  lemma OneSilent<A(!new)>(r: Rule<A>, i: nat, goal: Goal)
    requires (r.All? && goal == SilentFail) || (r.Any? && goal == SilentPass)
    requires i < |r.rules| && Distinct(Flatten(Parts(r.rules))) && Possible(r.rules[i], goal)
    requires forall k :: 0 <= k < |r.rules| ==> Flexible(r.rules[k])
    ensures Possible(r, goal)
  {
    var goals := Uniform(|r.rules|, if r.All? then ToPass else ToFail)[i := goal];
    forall k | 0 <= k < |r.rules| ensures Possible(r.rules[k], goals[k]) {
      assert Flexible(r.rules[k]);
    }
    var t := Together(r.rules, goals);
    var p := a => a in t;
    forall k | 0 <= k < |r.rules|
      ensures (r.All? ==> Failures(r.rules[k], p) == []) && (r.Any? ==> Passes(r.rules[k], p) == [])
    {
      assert Meets(r.rules[k], t, goals[k]);
      GoalOfChild(r.rules[k], t, goals[k]);
    }
    assert Meets(r.rules[i], t, goal);
    SilentNode(r, p);
    assert Meets(r, t, goal);
  }

  lemma AllSilent<A(!new)>(r: Rule<A>, goal: Goal)
    requires (r.All? && goal == SilentPass && !ExplainsPass(r)) || (r.Any? && goal == SilentFail && !ExplainsFailure(r))
    requires r.rules != [] && Distinct(Flatten(Parts(r.rules)))
    requires forall k :: 0 <= k < |r.rules| ==> Flexible(r.rules[k])
    ensures Possible(r, goal)
  {
    var goals := Uniform(|r.rules|, goal);
    forall k | 0 <= k < |r.rules| ensures Possible(r.rules[k], goals[k]) {
      assert Flexible(r.rules[k]);
    }
    var t := Together(r.rules, goals);
    var p := a => a in t;
    forall k | 0 <= k < |r.rules| ensures Failures(r.rules[k], p) == [] && Passes(r.rules[k], p) == [] {
      assert Meets(r.rules[k], t, goals[k]);
      GoalOfChild(r.rules[k], t, goals[k]);
    }
    assert Meets(r.rules[0], t, goal);
    SilentNode(r, p);
    assert Meets(r, t, goal);
  }

  lemma FlexibleNot<A(!new)>(inner: Rule<A>)
    requires Flexible(inner)
    ensures Flexible(Not(inner))
  {
    var r := Not(inner);
    var t :| Meets(inner, t, ToFail);
    PassesOfNode(r, a => a in t);
    assert Meets(r, t, ToPass) && Meets(r, t, SilentPass);
    t :| Meets(inner, t, ToPass);
    assert Meets(r, t, ToFail);
    if !ExplainsFailure(r) {
      t :| Meets(inner, t, SilentPass);
      FailuresOfNode(r, a => a in t);
      assert Meets(r, t, SilentFail);
    }
  }

  lemma {:induction false} EveryTreeIsFlexible<A(!new)>(r: Rule<A>)
    requires NoConstant(r) && Distinct(CollectChecks(r))
    ensures Flexible(r)
  {
    match r {
      case Check(a) =>
        assert Meets(r, {a}, ToPass) && Meets(r, {}, ToFail);
      case Not(inner) =>
        EveryTreeIsFlexible(inner);
        FlexibleNot(inner);
      case All(rules) =>
        assert CollectChecks(r) == Flatten(Parts(rules));
        forall i | 0 <= i < |rules| ensures Flexible(rules[i]) {
          DistinctParts(Parts(rules), i);
          EveryTreeIsFlexible(rules[i]);
        }
        FlexibleAll(rules);
      case Any(rules) =>
        assert CollectChecks(r) == Flatten(Parts(rules));
        forall i | 0 <= i < |rules| ensures Flexible(rules[i]) {
          DistinctParts(Parts(rules), i);
          EveryTreeIsFlexible(rules[i]);
        }
        FlexibleAny(rules);
    }
  }

  /**
   * For trees of distinct checks without constant nodes: the shape explains its failures if and only if
   * no assignment of the checks makes the rule fail without a reported check.
   */
  lemma ExplainsFailureExactly<A(!new)>(r: Rule<A>)
    requires NoConstant(r) && Distinct(CollectChecks(r))
    ensures ExplainsFailure(r) <==> forall p: A -> bool :: !Evaluate(r, p) ==> Failures(r, p) != []
  {
    if ExplainsFailure(r) {
      forall p: A -> bool | !Evaluate(r, p) ensures Failures(r, p) != [] {
        FailureReported(r, p);
      }
    } else {
      EveryTreeIsFlexible(r);
      var t :| Meets(r, t, SilentFail);
      var p := a => a in t;
      assert !Evaluate(r, p) && Failures(r, p) == [];
    }
  }
}
