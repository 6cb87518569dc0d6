/** Rule evaluation of the policy layer. Sorting is by priority only, so rules of equal priority may
    come out in any order: the specification names exactly the outcomes that some such order gives
    (PossibleIsEvaluation). */
module Policy {

  datatype Outcome = Allow | Deny | RequireApproval

  datatype Rule = Rule(priority: int, pattern: string, capability: string, outcome: Outcome)

  datatype PolicyResult = PolicyResult(outcome: Outcome, requestId: nat)

  predicate Applies(r: Rule, granted: set<string>, action: string) {
    && (r.pattern == "*" || r.pattern == action)
    && (r.capability == "" || r.capability in granted)
  }

  /** r applies and no applicable rule has a smaller priority number. */
  ghost predicate Decisive(rules: multiset<Rule>, granted: set<string>, action: string, r: Rule) {
    && r in rules && Applies(r, granted, action)
    && forall q :: q in rules && Applies(q, granted, action) ==> r.priority <= q.priority
  }

  /** The outcomes evaluation may return: that of a decisive rule, or Deny when no rule applies. */
  ghost predicate Possible(rules: multiset<Rule>, granted: set<string>, action: string, o: Outcome) {
    || (exists r :: Decisive(rules, granted, action, r) && r.outcome == o)
    || (o == Deny && forall r :: r in rules ==> !Applies(r, granted, action))
  }

  ghost predicate Sorted(rules: seq<Rule>) {
    forall i, j :: 0 <= i < j < |rules| ==> rules[i].priority <= rules[j].priority
  }

  lemma PrependSorted(r: Rule, rules: seq<Rule>)
    requires Sorted(rules) && (rules != [] ==> r.priority <= rules[0].priority)
    ensures Sorted([r] + rules)
  {
    forall i | 0 <= i < |rules| ensures r.priority <= rules[i].priority {
      assert i == 0 || rules[0].priority <= rules[i].priority;
    }
  }

  /** Insertion into a sorted list, before or after what has the same priority. */
  function Insert(rules: seq<Rule>, r: Rule, first: bool): (out: seq<Rule>)
    requires Sorted(rules)
    ensures Sorted(out) && out != []
    ensures out[0] == r || (rules != [] && out[0] == rules[0])
  {
    if rules == [] || r.priority < rules[0].priority || (first && r.priority == rules[0].priority) then
      PrependSorted(r, rules);
      [r] + rules
    else
      var rest := Insert(rules[1..], r, first);
      PrependSorted(rules[0], rest);
      [rules[0]] + rest
  }

  lemma {:induction false} InsertAdds(rules: seq<Rule>, r: Rule, first: bool)
    requires Sorted(rules)
    ensures multiset(Insert(rules, r, first)) == multiset(rules) + multiset{r}
    decreases |rules|
  {
    hide Sorted;
    if !(rules == [] || r.priority < rules[0].priority || (first && r.priority == rules[0].priority)) {
      SortedTail(rules);
      InsertAdds(rules[1..], r, first);
      assert rules == [rules[0]] + rules[1..];
    }
  }

  lemma SortedTail(rules: seq<Rule>)
    requires Sorted(rules) && rules != []
    ensures Sorted(rules[1..])
  {}

  /** The first rule of the list that applies decides; no rule, no permission. */
  function Evaluate(sorted: seq<Rule>, granted: set<string>, action: string): Outcome {
    if sorted == [] then Deny
    else if Applies(sorted[0], granted, action) then sorted[0].outcome
    else Evaluate(sorted[1..], granted, action)
  }

  /** A result the library sort may give. */
  ghost predicate IsSorting(rules: seq<Rule>, sorted: seq<Rule>) {
    Sorted(sorted) && multiset(sorted) == multiset(rules)
  }

  /** In any priority-sorted list, the first rule that applies is decisive. */
  lemma FirstApplicableDecides(sorted: seq<Rule>, granted: set<string>, action: string, i: nat)
    requires Sorted(sorted) && i < |sorted| && Applies(sorted[i], granted, action)
    requires forall j :: 0 <= j < i ==> !Applies(sorted[j], granted, action)
    ensures Decisive(multiset(sorted), granted, action, sorted[i])
  {
    assert sorted[i] in multiset(sorted);
    forall q | q in multiset(sorted) && Applies(q, granted, action) ensures sorted[i].priority <= q.priority {
      assert q in sorted;
      var k :| 0 <= k < |sorted| && sorted[k] == q;
    }
  }

  /** Evaluation stops at the first rule that applies. */
  lemma {:induction false} EvaluateAt(sorted: seq<Rule>, granted: set<string>, action: string) returns (i: nat)
    ensures i <= |sorted| && forall j :: 0 <= j < i ==> !Applies(sorted[j], granted, action)
    ensures i < |sorted| ==>
      Applies(sorted[i], granted, action) && Evaluate(sorted, granted, action) == sorted[i].outcome
    ensures i == |sorted| ==> Evaluate(sorted, granted, action) == Deny
    decreases |sorted|
  {
    hide Applies;
    if sorted == [] || Applies(sorted[0], granted, action) {
      i := 0;
    } else {
      var k := EvaluateAt(sorted[1..], granted, action);
      i := k + 1;
      forall j | 0 <= j < i ensures !Applies(sorted[j], granted, action) {
        assert j > 0 ==> sorted[j] == sorted[1..][j - 1];
      }
    }
  }

  lemma {:induction false} EvaluateGives(sorted: seq<Rule>, granted: set<string>, action: string, i: nat)
    requires i < |sorted| && Applies(sorted[i], granted, action)
    requires forall j :: 0 <= j < i ==> !Applies(sorted[j], granted, action)
    ensures Evaluate(sorted, granted, action) == sorted[i].outcome
    decreases i
  {
    hide Applies;
    if i > 0 {
      assert !Applies(sorted[0], granted, action) && sorted[1..][i - 1] == sorted[i];
      EvaluateGives(sorted[1..], granted, action, i - 1);
    }
  }

  /** Every sorting gives a possible outcome. */
  lemma {:induction false} SortingIsPossible(rules: seq<Rule>, sorted: seq<Rule>, granted: set<string>, action: string)
    requires IsSorting(rules, sorted)
    ensures Possible(multiset(rules), granted, action, Evaluate(sorted, granted, action))
  {
    hide Applies, Evaluate;
    var i := EvaluateAt(sorted, granted, action);
    if i < |sorted| {
      FirstApplicableDecides(sorted, granted, action, i);
    } else {
      forall r | r in multiset(rules) ensures !Applies(r, granted, action) { assert r in multiset(sorted); }
    }
  }

  /** Some sorting of the rules, built by insertion. */
  function Sorting(rules: seq<Rule>): (sorted: seq<Rule>)
    ensures IsSorting(rules, sorted)
  {
    if rules == [] then []
    else
      assert rules == rules[..|rules| - 1] + [rules[|rules| - 1]];
      InsertAdds(Sorting(rules[..|rules| - 1]), rules[|rules| - 1], false);
      Insert(Sorting(rules[..|rules| - 1]), rules[|rules| - 1], false)
  }

  lemma {:induction false} InsertedBeforeEquals(rules: seq<Rule>, r: Rule) returns (i: nat)
    requires Sorted(rules)
    ensures var out := Insert(rules, r, true);
      i < |out| && out[i] == r && forall j :: 0 <= j < i ==> out[j].priority < r.priority
    decreases |rules|
  {
    if rules == [] || r.priority <= rules[0].priority {
      i := 0;
    } else {
      var k := InsertedBeforeEquals(rules[1..], r);
      i := k + 1;
      var rest, out := Insert(rules[1..], r, true), Insert(rules, r, true);
      assert out == [rules[0]] + rest;
      forall j | 0 <= j < i ensures out[j].priority < r.priority { assert j > 0 ==> out[j] == rest[j - 1]; }
    }
  }

  /** A decisive rule comes first among those that apply in some sorting. */
  lemma {:induction false} DecisiveIsRealized(rules: seq<Rule>, granted: set<string>, action: string, r: Rule)
    returns (sorted: seq<Rule>)
    requires Decisive(multiset(rules), granted, action, r)
    ensures IsSorting(rules, sorted) && Evaluate(sorted, granted, action) == r.outcome
  {
    hide Applies, Evaluate, Insert, Sorting;
    var at :| 0 <= at < |rules| && rules[at] == r;
    var others := rules[..at] + rules[at + 1..];
    assert rules == rules[..at] + [r] + rules[at + 1..];
    assert multiset(rules) == multiset(others) + multiset{r};
    sorted := Insert(Sorting(others), r, true);
    InsertAdds(Sorting(others), r, true);
    assert multiset(sorted) == multiset(rules);
    var i := InsertedBeforeEquals(Sorting(others), r);
    forall j | 0 <= j < i ensures !Applies(sorted[j], granted, action) {
      assert sorted[j] in multiset(sorted);
    }
    EvaluateGives(sorted, granted, action, i);
  }

  /** The possible outcomes are exactly those that evaluating some sorting of the rules gives. */
  lemma {:induction false} PossibleIsEvaluation(rules: seq<Rule>, granted: set<string>, action: string, o: Outcome)
    ensures Possible(multiset(rules), granted, action, o)
       <==> exists sorted :: IsSorting(rules, sorted) && Evaluate(sorted, granted, action) == o
  {
    hide Applies, Evaluate, IsSorting, Sorting;
    if Possible(multiset(rules), granted, action, o) {
      if r: Rule :| Decisive(multiset(rules), granted, action, r) && r.outcome == o {
        var sorted := DecisiveIsRealized(rules, granted, action, r);
      } else {
        var sorted := Sorting(rules);
        DenyWhenNoneApplies(rules, sorted, granted, action);
      }
    }
    if sorted :| IsSorting(rules, sorted) && Evaluate(sorted, granted, action) == o {
      SortingIsPossible(rules, sorted, granted, action);
    }
  }

  lemma DenyWhenNoneApplies(rules: seq<Rule>, sorted: seq<Rule>, granted: set<string>, action: string)
    requires IsSorting(rules, sorted) && forall r :: r in multiset(rules) ==> !Applies(r, granted, action)
    ensures Evaluate(sorted, granted, action) == Deny
  {
    hide Applies, Evaluate;
    forall j | 0 <= j < |sorted| ensures !Applies(sorted[j], granted, action) { assert sorted[j] in multiset(sorted); }
    var i := EvaluateAt(sorted, granted, action);
  }

  /** The decisive rules have one outcome. */
  ghost predicate DecisiveAgree(rules: multiset<Rule>, granted: set<string>, action: string) {
    forall p, q :: Decisive(rules, granted, action, p) && Decisive(rules, granted, action, q) ==> p.outcome == q.outcome
  }

  /** The outcome is the same for every sorting, and so for every order of the rule list, if and only if the
      decisive rules agree. */
  lemma {:induction false} OutcomeDetermined(rules: seq<Rule>, granted: set<string>, action: string)
    ensures (forall s, t :: IsSorting(rules, s) && IsSorting(rules, t) ==>
               Evaluate(s, granted, action) == Evaluate(t, granted, action))
       <==> DecisiveAgree(multiset(rules), granted, action)
  {
    hide Decisive, Evaluate, IsSorting;
    var all := multiset(rules);
    if DecisiveAgree(all, granted, action) {
      forall s, t | IsSorting(rules, s) && IsSorting(rules, t)
        ensures Evaluate(s, granted, action) == Evaluate(t, granted, action)
      {
        SortingIsPossible(rules, s, granted, action);
        SortingIsPossible(rules, t, granted, action);
        PossibleAgree(all, granted, action, Evaluate(s, granted, action), Evaluate(t, granted, action));
      }
    } else {
      var p, q :| Decisive(all, granted, action, p) && Decisive(all, granted, action, q) && p.outcome != q.outcome;
      var s := DecisiveIsRealized(rules, granted, action, p);
      var t := DecisiveIsRealized(rules, granted, action, q);
    }
  }

  lemma PossibleAgree(rules: multiset<Rule>, granted: set<string>, action: string, a: Outcome, b: Outcome)
    requires Possible(rules, granted, action, a) && Possible(rules, granted, action, b)
    requires DecisiveAgree(rules, granted, action)
    ensures a == b
  {}

  /** In particular when no two applicable rules share a priority: then reordering the list changes nothing. */
  lemma {:induction false} DistinctPrioritiesDetermine(
    rules: seq<Rule>, shuffled: seq<Rule>, granted: set<string>, action: string, s: seq<Rule>, t: seq<Rule>)
    requires multiset(rules) == multiset(shuffled)
    requires forall p, q :: p in rules && q in rules && Applies(p, granted, action) && Applies(q, granted, action) ==>
                              p.priority == q.priority ==> p == q
    requires IsSorting(rules, s) && IsSorting(shuffled, t)
    ensures Evaluate(s, granted, action) == Evaluate(t, granted, action)
  {
    hide Evaluate, Applies;
    SortingIsPossible(rules, s, granted, action);
    SortingIsPossible(rules, t, granted, action);
    forall p, q | Decisive(multiset(rules), granted, action, p) && Decisive(multiset(rules), granted, action, q)
      ensures p.outcome == q.outcome
    {
      assert p in rules && q in rules;
    }
    PossibleAgree(multiset(rules), granted, action, Evaluate(s, granted, action), Evaluate(t, granted, action));
  }

  /** The library sort: only the ordering by priority and the multiset of rules are promised. */
  method SortByPriority(rules: seq<Rule>) returns (sorted: seq<Rule>)
    ensures IsSorting(rules, sorted)
  {
    sorted := [];
    for i := 0 to |rules|
      invariant Sorted(sorted) && multiset(sorted) == multiset(rules[..i])
    {
      assert rules[..i + 1] == rules[..i] + [rules[i]];
      InsertAdds(sorted, rules[i], false);
      sorted := Insert(sorted, rules[i], false);
    }
    assert rules[..|rules|] == rules;
  }

  class PolicyLayer {
    const rules: seq<Rule>
    var capabilities: map<string, set<string>>
    var nextRequestId: nat
    var pendingApprovals: set<nat>

    /** Ids handed out so far are all below the counter. */
    ghost predicate Valid()
      reads this
    {
      1 <= nextRequestId && forall id :: id in pendingApprovals ==> 1 <= id < nextRequestId
    }

    constructor (rules: seq<Rule>)
      ensures Valid() && this.rules == rules && capabilities == map[] && pendingApprovals == {}
    {
      this.rules, capabilities, nextRequestId, pendingApprovals := rules, map[], 1, {};
    }

    function Granted(session: string): set<string>
      reads this
    {
      if session in capabilities then capabilities[session] else {}
    }

    method GrantCapability(session: string, capability: string)
      requires Valid()
      modifies this`capabilities
      ensures Valid()
      ensures Granted(session) == old(Granted(session)) + {capability}
      ensures forall s :: s != session ==> Granted(s) == old(Granted(s))
    {
      capabilities := capabilities[session := Granted(session) + {capability}];
    }

    method RevokeCapability(session: string, capability: string)
      requires Valid()
      modifies this`capabilities
      ensures Valid()
      ensures Granted(session) == old(Granted(session)) - {capability}
      ensures forall s :: s != session ==> Granted(s) == old(Granted(s))
    {
      if session in capabilities {
        capabilities := capabilities[session := capabilities[session] - {capability}];
      }
    }

    /** Evaluates the rules for one action. An approval request gets an id never handed out before. */
    method CheckPermission(session: string, action: string) returns (r: PolicyResult)
      requires Valid()
      modifies this`nextRequestId, this`pendingApprovals
      ensures Valid()
      ensures Possible(multiset(rules), Granted(session), action, r.outcome)
      ensures r.outcome == RequireApproval ==>
        && r.requestId == old(nextRequestId) && nextRequestId == old(nextRequestId) + 1
        && r.requestId !in old(pendingApprovals) && pendingApprovals == old(pendingApprovals) + {r.requestId}
      ensures r.outcome != RequireApproval ==>
        r.requestId == 0 && nextRequestId == old(nextRequestId) && pendingApprovals == old(pendingApprovals)
    {
      var sorted := SortByPriority(rules);
      for i := 0 to |sorted|
        invariant forall j :: 0 <= j < i ==> !Applies(sorted[j], Granted(session), action)
        invariant Valid() && nextRequestId == old(nextRequestId) && pendingApprovals == old(pendingApprovals)
      {
        var rule := sorted[i];
        if !(rule.pattern == "*" || rule.pattern == action) { continue; }
        if rule.capability != "" && rule.capability !in Granted(session) { continue; }
        assert Decisive(multiset(rules), Granted(session), action, rule) by {
          FirstApplicableDecides(sorted, Granted(session), action, i);
        }
        match rule.outcome
        case Allow => return PolicyResult(Allow, 0);
        case Deny => return PolicyResult(Deny, 0);
        case RequireApproval =>
          var id := nextRequestId;
          nextRequestId := nextRequestId + 1;
          pendingApprovals := pendingApprovals + {id};
          return PolicyResult(RequireApproval, id);
      }
      forall r | r in multiset(rules) ensures !Applies(r, Granted(session), action) {
        assert r in multiset(sorted);
      }
      return PolicyResult(Deny, 0);
    }

    /** An id is resolved at most once; unknown ids change nothing. */
    method ResolveApproval(id: nat) returns (found: bool)
      requires Valid()
      modifies this`pendingApprovals
      ensures Valid() && pendingApprovals == old(pendingApprovals) - {id}
      ensures found <==> id in old(pendingApprovals)
    {
      found := id in pendingApprovals;
      pendingApprovals := pendingApprovals - {id};
    }
  }
}
