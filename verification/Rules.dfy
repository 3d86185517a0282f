/** Rules as data: a tree of checks with a plain interpreter and one that explains why a rule failed. */
module Rules {

  datatype Rule<A> =
    | Check(check: A)
    | All(rules: seq<Rule<A>>)
    | Any(rules: seq<Rule<A>>)
    | Not(rule: Rule<A>)

  datatype RuleResult<A> =
    | Pass(check: A)
    | Fail(check: A)
    | AllOf(results: seq<RuleResult<A>>, passed: bool)
    | AnyOf(results: seq<RuleResult<A>>, passed: bool)
    | Negated(inner: RuleResult<A>, passed: bool)

  function And<A>(r: Rule<A>, other: Rule<A>): Rule<A> {
    match r
    case All(rules) => All(rules + [other])
    case _ => All([r, other])
  }

  function Or<A>(r: Rule<A>, other: Rule<A>): Rule<A> {
    match r
    case Any(rules) => Any(rules + [other])
    case _ => Any([r, other])
  }

  // ── Interpreters ────────────────────────────────────────────

  predicate Evaluate<A>(r: Rule<A>, p: A -> bool) {
    match r
    case Check(a) => p(a)
    case All(rules) => forall i | 0 <= i < |rules| :: Evaluate(rules[i], p)
    case Any(rules) => exists i | 0 <= i < |rules| :: Evaluate(rules[i], p)
    case Not(inner) => !Evaluate(inner, p)
  }

  predicate Passed<A>(result: RuleResult<A>) {
    match result
    case Pass(_) => true
    case Fail(_) => false
    case AllOf(_, passed) => passed
    case AnyOf(_, passed) => passed
    case Negated(_, passed) => passed
  }

  function EvaluateDetailed<A>(r: Rule<A>, p: A -> bool): RuleResult<A> {
    match r
    case Check(a) => if p(a) then Pass(a) else Fail(a)
    case All(rules) =>
      var results := seq(|rules|, i requires 0 <= i < |rules| => EvaluateDetailed(rules[i], p));
      AllOf(results, forall i | 0 <= i < |results| :: Passed(results[i]))
    case Any(rules) =>
      var results := seq(|rules|, i requires 0 <= i < |rules| => EvaluateDetailed(rules[i], p));
      AnyOf(results, exists i | 0 <= i < |results| :: Passed(results[i]))
    case Not(inner) =>
      var result := EvaluateDetailed(inner, p);
      Negated(result, !Passed(result))
  }

  function Flatten<A>(parts: seq<seq<A>>): seq<A> {
    if parts == [] then [] else Flatten(parts[..|parts| - 1]) + parts[|parts| - 1]
  }

  function CollectChecks<A>(r: Rule<A>): seq<A> {
    match r
    case Check(a) => [a]
    case All(rules) => Flatten(seq(|rules|, i requires 0 <= i < |rules| => CollectChecks(rules[i])))
    case Any(rules) => Flatten(seq(|rules|, i requires 0 <= i < |rules| => CollectChecks(rules[i])))
    case Not(inner) => CollectChecks(inner)
  }

  function CollectPasses<A>(result: RuleResult<A>): seq<A> {
    match result
    case Pass(a) => [a]
    case Fail(_) => []
    case AllOf(results, passed) =>
      if passed then Flatten(seq(|results|, i requires 0 <= i < |results| => CollectPasses(results[i]))) else []
    case AnyOf(results, passed) =>
      if passed then Flatten(seq(|results|, i requires 0 <= i < |results| => CollectPasses(results[i]))) else []
    case Negated(_, _) => []
  }

  function CollectFailures<A>(result: RuleResult<A>): seq<A> {
    match result
    case Pass(_) => []
    case Fail(a) => [a]
    case AllOf(results, passed) =>
      if passed then [] else Flatten(seq(|results|, i requires 0 <= i < |results| => CollectFailures(results[i])))
    case AnyOf(results, passed) =>
      if passed then [] else Flatten(seq(|results|, i requires 0 <= i < |results| => CollectFailures(results[i])))
    case Negated(inner, passed) => if passed then [] else CollectPasses(inner)
  }

  /** The checks reported when `r` is evaluated against `p`. */
  function Failures<A>(r: Rule<A>, p: A -> bool): seq<A> {
    CollectFailures(EvaluateDetailed(r, p))
  }

  function Passes<A>(r: Rule<A>, p: A -> bool): seq<A> {
    CollectPasses(EvaluateDetailed(r, p))
  }

  // ── The two interpreters agree ──────────────────────────────

  lemma {:induction false} DetailedAgrees<A>(r: Rule<A>, p: A -> bool)
    ensures Passed(EvaluateDetailed(r, p)) <==> Evaluate(r, p)
  {
    match r {
      case Check(_) =>
      case All(rules) =>
        var results := EvaluateDetailed(r, p).results;
        forall i | 0 <= i < |rules| ensures Passed(results[i]) <==> Evaluate(rules[i], p) {
          DetailedAgrees(rules[i], p);
        }
      case Any(rules) =>
        var results := EvaluateDetailed(r, p).results;
        forall i | 0 <= i < |rules| ensures Passed(results[i]) <==> Evaluate(rules[i], p) {
          DetailedAgrees(rules[i], p);
        }
      case Not(inner) => DetailedAgrees(inner, p);
    }
  }

  /** What a tree reports, node by node, in terms of the trees below it. */
  lemma FailuresOfNode<A>(r: Rule<A>, p: A -> bool)
    ensures Evaluate(r, p) ==> Failures(r, p) == []
    ensures (r.All? || r.Any?) && !Evaluate(r, p) ==>
              Failures(r, p) == Flatten(seq(|r.rules|, i requires 0 <= i < |r.rules| => Failures(r.rules[i], p)))
    ensures r.Not? && !Evaluate(r, p) ==> Failures(r, p) == Passes(r.rule, p)
  {
    DetailedAgrees(r, p);
    if (r.All? || r.Any?) && !Evaluate(r, p) {
      var results := EvaluateDetailed(r, p).results;
      assert seq(|results|, i requires 0 <= i < |results| => CollectFailures(results[i]))
          == seq(|r.rules|, i requires 0 <= i < |r.rules| => Failures(r.rules[i], p));
    }
  }

  lemma PassesOfNode<A>(r: Rule<A>, p: A -> bool)
    ensures !Evaluate(r, p) ==> Passes(r, p) == []
    ensures (r.All? || r.Any?) && Evaluate(r, p) ==>
              Passes(r, p) == Flatten(seq(|r.rules|, i requires 0 <= i < |r.rules| => Passes(r.rules[i], p)))
    ensures r.Not? ==> Passes(r, p) == []
  {
    DetailedAgrees(r, p);
    if (r.All? || r.Any?) && Evaluate(r, p) {
      var results := EvaluateDetailed(r, p).results;
      assert seq(|results|, i requires 0 <= i < |results| => CollectPasses(results[i]))
          == seq(|r.rules|, i requires 0 <= i < |r.rules| => Passes(r.rules[i], p));
    }
  }

  // ── Reported checks are a subsequence of the tree's checks ──

  ghost predicate Embeds<A>(at: seq<nat>, xs: seq<A>, ys: seq<A>) {
    && |at| == |xs|
    && (forall i :: 0 <= i < |at| ==> at[i] < |ys| && ys[at[i]] == xs[i])
    && (forall i, j :: 0 <= i < j < |at| ==> at[i] < at[j])
  }

  ghost predicate Subsequence<A(!new)>(xs: seq<A>, ys: seq<A>) {
    exists at: seq<nat> :: Embeds(at, xs, ys)
  }

  lemma SubsequenceOfSelf<A(!new)>(xs: seq<A>)
    ensures Subsequence(xs, xs) && Subsequence([], xs)
  {
    assert Embeds(seq(|xs|, i => i), xs, xs);
    assert Embeds([], [], xs);
  }

  lemma SubsequenceJoins<A(!new)>(a: seq<A>, b: seq<A>, c: seq<A>, d: seq<A>)
    requires Subsequence(a, b) && Subsequence(c, d)
    ensures Subsequence(a + c, b + d)
  {
    var f :| Embeds(f, a, b);
    var g :| Embeds(g, c, d);
    var at := f + seq(|g|, i requires 0 <= i < |g| => g[i] + |b|);
    assert Embeds(at, a + c, b + d);
  }

  lemma {:induction false} SubsequenceFlattens<A(!new)>(xs: seq<seq<A>>, ys: seq<seq<A>>)
    requires |xs| == |ys| && forall i :: 0 <= i < |xs| ==> Subsequence(xs[i], ys[i])
    ensures Subsequence(Flatten(xs), Flatten(ys))
  {
    if xs == [] {
      SubsequenceOfSelf(Flatten(ys));
    } else {
      var n := |xs| - 1;
      SubsequenceFlattens(xs[..n], ys[..n]);
      SubsequenceJoins(Flatten(xs[..n]), Flatten(ys[..n]), xs[n], ys[n]);
    }
  }

  /** Every report lists leaf checks of the tree, in depth-first order, each occurrence at most once. */
  lemma {:induction false} ReportsAreChecks<A(!new)>(r: Rule<A>, p: A -> bool)
    ensures Subsequence(Failures(r, p), CollectChecks(r)) && Subsequence(Passes(r, p), CollectChecks(r))
  {
    FailuresOfNode(r, p);
    PassesOfNode(r, p);
    SubsequenceOfSelf(CollectChecks(r));
    match r {
      case Check(_) =>
      case Not(inner) => ReportsAreChecks(inner, p);
      case _ =>
        var checks := seq(|r.rules|, i requires 0 <= i < |r.rules| => CollectChecks(r.rules[i]));
        var failures := seq(|r.rules|, i requires 0 <= i < |r.rules| => Failures(r.rules[i], p));
        var passes := seq(|r.rules|, i requires 0 <= i < |r.rules| => Passes(r.rules[i], p));
        forall i | 0 <= i < |r.rules| ensures Subsequence(failures[i], checks[i]) && Subsequence(passes[i], checks[i]) {
          ReportsAreChecks(r.rules[i], p);
        }
        SubsequenceFlattens(failures, checks);
        SubsequenceFlattens(passes, checks);
    }
  }

  // ── Soundness and sufficiency of the explanation ────────────

  lemma {:induction false} InFlatten<A>(parts: seq<seq<A>>, a: A)
    ensures a in Flatten(parts) <==> exists i :: 0 <= i < |parts| && a in parts[i]
  {
    if parts != [] {
      InFlatten(parts[..|parts| - 1], a);
    }
  }

  predicate NotFree<A>(r: Rule<A>) {
    match r
    case Check(_) => true
    case Not(_) => false
    case All(rules) => forall i | 0 <= i < |rules| :: NotFree(rules[i])
    case Any(rules) => forall i | 0 <= i < |rules| :: NotFree(rules[i])
  }

  predicate NoEmptyAny<A>(r: Rule<A>) {
    match r
    case Check(_) => true
    case Not(inner) => NoEmptyAny(inner)
    case All(rules) => forall i | 0 <= i < |rules| :: NoEmptyAny(rules[i])
    case Any(rules) => rules != [] && forall i | 0 <= i < |rules| :: NoEmptyAny(rules[i])
  }

  /** A check is reported by a failing node exactly when a subtree reports it. */
  lemma ReportedBelow<A>(r: Rule<A>, p: A -> bool, a: A)
    requires (r.All? || r.Any?) && !Evaluate(r, p)
    ensures a in Failures(r, p) <==> exists i :: 0 <= i < |r.rules| && a in Failures(r.rules[i], p)
  {
    FailuresOfNode(r, p);
    var parts := seq(|r.rules|, i requires 0 <= i < |r.rules| => Failures(r.rules[i], p));
    InFlatten(parts, a);
    assert forall i :: 0 <= i < |r.rules| ==> parts[i] == Failures(r.rules[i], p);
  }

  lemma PassedBelow<A>(r: Rule<A>, p: A -> bool, a: A)
    requires (r.All? || r.Any?) && Evaluate(r, p)
    ensures a in Passes(r, p) <==> exists i :: 0 <= i < |r.rules| && a in Passes(r.rules[i], p)
  {
    PassesOfNode(r, p);
    var parts := seq(|r.rules|, i requires 0 <= i < |r.rules| => Passes(r.rules[i], p));
    InFlatten(parts, a);
    assert forall i :: 0 <= i < |r.rules| ==> parts[i] == Passes(r.rules[i], p);
  }

  /** Without negation every reported check really is false. */
  lemma {:induction false} ReportedChecksFail<A>(r: Rule<A>, p: A -> bool, a: A)
    requires NotFree(r) && a in Failures(r, p)
    ensures !p(a)
  {
    FailuresOfNode(r, p);
    if r.All? || r.Any? {
      ReportedBelow(r, p, a);
      var i :| 0 <= i < |r.rules| && a in Failures(r.rules[i], p);
      ReportedChecksFail(r.rules[i], p, a);
    }
  }

  lemma {:induction false} ListedPassesHold<A>(r: Rule<A>, p: A -> bool, a: A)
    requires a in Passes(r, p)
    ensures p(a)
  {
    PassesOfNode(r, p);
    if r.All? || r.Any? {
      PassedBelow(r, p, a);
      var i :| 0 <= i < |r.rules| && a in Passes(r.rules[i], p);
      ListedPassesHold(r.rules[i], p, a);
    }
  }

  /** A negation that fails reports only checks that hold: the ones it objects to. */
  lemma NegationReportsHold<A>(r: Rule<A>, p: A -> bool, a: A)
    requires a in Failures(Not(r), p)
    ensures p(a) && Evaluate(r, p)
  {
    FailuresOfNode(Not(r), p);
    ListedPassesHold(r, p, a);
  }

  /** Trees whose failures can never be silent, and trees whose passes never are. */
  predicate ExplainsFailure<A>(r: Rule<A>) {
    match r
    case Check(_) => true
    case All(rules) => forall i | 0 <= i < |rules| :: ExplainsFailure(rules[i])
    case Any(rules) => exists i | 0 <= i < |rules| :: ExplainsFailure(rules[i])
    case Not(inner) => ExplainsPass(inner)
  }

  predicate ExplainsPass<A>(r: Rule<A>) {
    match r
    case Check(_) => true
    case All(rules) => exists i | 0 <= i < |rules| :: ExplainsPass(rules[i])
    case Any(rules) => forall i | 0 <= i < |rules| :: ExplainsPass(rules[i])
    case Not(_) => false
  }

  lemma {:induction false} PassListed<A>(r: Rule<A>, p: A -> bool)
    requires ExplainsPass(r) && Evaluate(r, p)
    ensures exists a :: a in Passes(r, p)
  {
    PassesOfNode(r, p);
    match r {
      case Check(a) => assert a in Passes(r, p);
      case All(rules) =>
        var i :| 0 <= i < |rules| && ExplainsPass(rules[i]);
        PassListed(rules[i], p);
        var a :| a in Passes(rules[i], p);
        PassedBelow(r, p, a);
      case Any(rules) =>
        var i :| 0 <= i < |rules| && Evaluate(rules[i], p);
        PassListed(rules[i], p);
        var a :| a in Passes(rules[i], p);
        PassedBelow(r, p, a);
    }
  }

  /** A failing tree of this shape, negations included, reports at least one check. */
  lemma {:induction false} FailureReported<A>(r: Rule<A>, p: A -> bool)
    requires ExplainsFailure(r) && !Evaluate(r, p)
    ensures exists a :: a in Failures(r, p)
  {
    FailuresOfNode(r, p);
    match r {
      case Check(a) => assert a in Failures(r, p);
      case All(rules) =>
        var i :| 0 <= i < |rules| && !Evaluate(rules[i], p);
        FailureReported(rules[i], p);
        var a :| a in Failures(rules[i], p);
        ReportedBelow(r, p, a);
      case Any(rules) =>
        var i :| 0 <= i < |rules| && ExplainsFailure(rules[i]);
        FailureReported(rules[i], p);
        var a :| a in Failures(rules[i], p);
        ReportedBelow(r, p, a);
      case Not(inner) => PassListed(inner, p);
    }
  }

  lemma {:induction false} PlainTreesExplain<A>(r: Rule<A>)
    requires NotFree(r) && NoEmptyAny(r)
    ensures ExplainsFailure(r)
  {
    if r.All? || r.Any? {
      forall i | 0 <= i < |r.rules| ensures ExplainsFailure(r.rules[i]) {
        PlainTreesExplain(r.rules[i]);
      }
      assert r.Any? ==> ExplainsFailure(r.rules[0]);
    }
  }

  /** The shapes left out really are silent: an empty Any, and every double negation. */
  lemma SilentFailures<A>(r: Rule<A>, p: A -> bool)
    ensures !Evaluate(Rule.Any([]), p) && Failures(Rule.Any([]), p) == []
    ensures Failures(Not(Not(r)), p) == []
  {
    FailuresOfNode(Rule.Any([]), p);
    FailuresOfNode(Not(Not(r)), p);
    PassesOfNode(Not(r), p);
  }

  lemma {:induction false} Monotone<A(!new)>(r: Rule<A>, p: A -> bool, q: A -> bool)
    requires NotFree(r) && (forall a :: p(a) ==> q(a)) && Evaluate(r, p)
    ensures Evaluate(r, q)
  {
    match r {
      case Check(_) =>
      case All(rules) =>
        forall i | 0 <= i < |rules| ensures Evaluate(rules[i], q) {
          Monotone(rules[i], p, q);
        }
      case Any(rules) =>
        var i :| 0 <= i < |rules| && Evaluate(rules[i], p);
        Monotone(rules[i], p, q);
    }
  }

  lemma {:induction false} RepairSuffices<A(!new)>(r: Rule<A>, p: A -> bool, q: A -> bool)
    requires NotFree(r) && NoEmptyAny(r)
    requires (forall a :: p(a) ==> q(a)) && (forall a | a in Failures(r, p) :: q(a))
    ensures Evaluate(r, q)
  {
    FailuresOfNode(r, p);
    if Evaluate(r, p) {
      Monotone(r, p, q);
    } else if r.Check? {
      assert r.check in Failures(r, p);
    } else {
      forall i | 0 <= i < |r.rules| ensures Evaluate(r.rules[i], q) {
        forall a | a in Failures(r.rules[i], p) ensures q(a) {
          ReportedBelow(r, p, a);
        }
        RepairSuffices(r.rules[i], p, q);
      }
      assert r.Any? ==> Evaluate(r.rules[0], q);
    }
  }

  /**
   * For trees without negation and without an empty Any: a failing rule reports at least one check, all
   * reported checks are false, and making exactly the reported checks true makes the rule pass.
   */
  lemma ExplanationIsSufficient<A(!new)>(r: Rule<A>, p: A -> bool)
    requires NotFree(r) && NoEmptyAny(r)
    ensures !Evaluate(r, p) ==> exists a :: a in Failures(r, p) && !p(a)
    ensures forall a | a in Failures(r, p) :: !p(a)
    ensures Evaluate(r, a => p(a) || a in Failures(r, p))
  {
    forall a | a in Failures(r, p) ensures !p(a) {
      ReportedChecksFail(r, p, a);
    }
    if !Evaluate(r, p) {
      PlainTreesExplain(r);
      FailureReported(r, p);
    }
    RepairSuffices(r, p, a => p(a) || a in Failures(r, p));
  }

  predicate Conjunctive<A>(r: Rule<A>) {
    r.Check? || (r.All? && forall i | 0 <= i < |r.rules| :: Conjunctive(r.rules[i]))
  }

  lemma {:induction false} ConjunctiveIsPlain<A>(r: Rule<A>)
    requires Conjunctive(r)
    ensures NotFree(r) && NoEmptyAny(r)
  {
    if r.All? {
      forall i | 0 <= i < |r.rules| ensures NotFree(r.rules[i]) && NoEmptyAny(r.rules[i]) {
        ConjunctiveIsPlain(r.rules[i]);
      }
    }
  }

  lemma {:induction false} ConjunctiveNeedsAll<A>(r: Rule<A>, p: A -> bool, q: A -> bool, a: A)
    requires Conjunctive(r) && Evaluate(r, q) && a in Failures(r, p)
    ensures q(a)
  {
    FailuresOfNode(r, p);
    if r.All? {
      ReportedBelow(r, p, a);
      var i :| 0 <= i < |r.rules| && a in Failures(r.rules[i], p);
      ConjunctiveNeedsAll(r.rules[i], p, q, a);
    }
  }

  /** For the conjunctions the services use the report is also necessary: nothing superfluous is listed. */
  lemma ConjunctionsReportExactly<A(!new)>(r: Rule<A>, p: A -> bool, q: A -> bool)
    requires Conjunctive(r) && forall a :: p(a) ==> q(a)
    ensures Evaluate(r, q) <==> forall a | a in Failures(r, p) :: q(a)
  {
    ConjunctiveIsPlain(r);
    if Evaluate(r, q) {
      forall a | a in Failures(r, p) ensures q(a) {
        ConjunctiveNeedsAll(r, p, q, a);
      }
    } else if forall a | a in Failures(r, p) :: q(a) {
      RepairSuffices(r, p, q);
    }
  }

  // ── Combinators ─────────────────────────────────────────────

  lemma FlattenSnoc<A>(parts: seq<seq<A>>, last: seq<A>)
    ensures Flatten(parts + [last]) == Flatten(parts) + last
  {
    assert (parts + [last])[..|parts|] == parts;
  }

  lemma FlattenTwo<A>(a: seq<A>, b: seq<A>)
    ensures Flatten([a, b]) == a + b
  {
    FlattenSnoc([a], b);
    FlattenSnoc([], a);
    assert [a] + [b] == [a, b] && [] + [a] == [a];
  }

  lemma AndIsConjunction<A>(r: Rule<A>, other: Rule<A>, p: A -> bool)
    ensures Evaluate(And(r, other), p) <==> Evaluate(r, p) && Evaluate(other, p)
  {
    var both := And(r, other);
    assert both.rules[|both.rules| - 1] == other;
    if r.All? {
      assert forall i | 0 <= i < |r.rules| :: both.rules[i] == r.rules[i];
    } else {
      assert both.rules[0] == r;
    }
  }

  lemma OrIsDisjunction<A>(r: Rule<A>, other: Rule<A>, p: A -> bool)
    ensures Evaluate(Or(r, other), p) <==> Evaluate(r, p) || Evaluate(other, p)
  {
    var either := Or(r, other);
    assert either.rules[|either.rules| - 1] == other;
    if r.Any? {
      assert forall i | 0 <= i < |r.rules| :: either.rules[i] == r.rules[i];
    } else {
      assert either.rules[0] == r;
    }
  }

  /** Flattening into an existing node keeps the depth-first list of checks. */
  lemma CombinedChecks<A>(r: Rule<A>, other: Rule<A>)
    ensures CollectChecks(And(r, other)) == CollectChecks(r) + CollectChecks(other)
    ensures CollectChecks(Or(r, other)) == CollectChecks(r) + CollectChecks(other)
  {
    FlattenTwo(CollectChecks(r), CollectChecks(other));
    ChecksOfTwo(r, other);
    if r.All? || r.Any? {
      var parts := seq(|r.rules|, i requires 0 <= i < |r.rules| => CollectChecks(r.rules[i]));
      FlattenSnoc(parts, CollectChecks(other));
      var more := r.rules + [other];
      assert seq(|more|, i requires 0 <= i < |more| => CollectChecks(more[i])) == parts + [CollectChecks(other)];
    }
  }

  lemma ChecksOfTwo<A>(r: Rule<A>, other: Rule<A>)
    ensures var pair := [r, other];
            seq(|pair|, i requires 0 <= i < |pair| => CollectChecks(pair[i]))
            == [CollectChecks(r), CollectChecks(other)]
  {
  }

  lemma FailuresOfPair<A>(r: Rule<A>, other: Rule<A>, p: A -> bool)
    ensures var pair := [r, other];
            Flatten(seq(|pair|, i requires 0 <= i < |pair| => Failures(pair[i], p)))
            == Failures(r, p) + Failures(other, p)
  {
    var pair := [r, other];
    FlattenTwo(Failures(r, p), Failures(other, p));
    assert seq(|pair|, i requires 0 <= i < |pair| => Failures(pair[i], p)) == [Failures(r, p), Failures(other, p)];
  }

  lemma FailuresOfSnoc<A>(rules: seq<Rule<A>>, other: Rule<A>, p: A -> bool)
    ensures var more := rules + [other];
            Flatten(seq(|more|, i requires 0 <= i < |more| => Failures(more[i], p)))
            == Flatten(seq(|rules|, i requires 0 <= i < |rules| => Failures(rules[i], p))) + Failures(other, p)
  {
    var more := rules + [other];
    var parts := seq(|rules|, i requires 0 <= i < |rules| => Failures(rules[i], p));
    FlattenSnoc(parts, Failures(other, p));
    assert seq(|more|, i requires 0 <= i < |more| => Failures(more[i], p)) == parts + [Failures(other, p)];
  }

  lemma {:induction false} NoFailuresFlatten<A>(rules: seq<Rule<A>>, p: A -> bool)
    requires forall i | 0 <= i < |rules| :: Evaluate(rules[i], p)
    ensures Flatten(seq(|rules|, i requires 0 <= i < |rules| => Failures(rules[i], p))) == []
  {
    if rules != [] {
      var n := |rules| - 1;
      NoFailuresFlatten(rules[..n], p);
      FailuresOfSnoc(rules[..n], rules[n], p);
      FailuresOfNode(rules[n], p);
      assert rules[..n] + [rules[n]] == rules;
    }
  }

  /** The explanation of a conjunction is the two explanations one after the other. */
  lemma AndFailures<A>(r: Rule<A>, other: Rule<A>, p: A -> bool)
    ensures Failures(And(r, other), p) == Failures(r, p) + Failures(other, p)
  {
    AndIsConjunction(r, other, p);
    FailuresOfNode(And(r, other), p);
    FailuresOfNode(r, p);
    FailuresOfNode(other, p);
    if r.All? {
      FailuresOfSnoc(r.rules, other, p);
      if Evaluate(r, p) {
        NoFailuresFlatten(r.rules, p);
      }
    } else {
      FailuresOfPair(r, other, p);
    }
  }

  /** A disjunction explains itself only when both sides fail, and then by both explanations. */
  lemma OrFailures<A>(r: Rule<A>, other: Rule<A>, p: A -> bool)
    ensures Failures(Or(r, other), p)
         == if Evaluate(r, p) || Evaluate(other, p) then [] else Failures(r, p) + Failures(other, p)
  {
    OrIsDisjunction(r, other, p);
    FailuresOfNode(Or(r, other), p);
    FailuresOfNode(r, p);
    if r.Any? {
      FailuresOfSnoc(r.rules, other, p);
    } else {
      FailuresOfPair(r, other, p);
    }
  }
}
