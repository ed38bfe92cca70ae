/**
 What the review aggregation guarantees: the order of the reviews is irrelevant, the
 totals stay within their denominators, more reviews never hide unsafe evidence, and
 exactly when one more review can clear the factual gate.
 */
module QualificationProperties {
  import opened Common
  import opened Sorting
  import opened Statistics
  import opened Qualification

  // ----- The order of the reviews is irrelevant -----

  lemma KeysWithout(s: seq<Review>, j: nat)
    requires j < |s|
    ensures multiset(Keys(s)) == multiset(Keys(s[..j] + s[j + 1..])) + multiset{(s[j].output, s[j].reviewer)}
  {
    var keys := Keys(s);
    assert keys == keys[..j] + [keys[j]] + keys[j + 1..];
    assert Keys(s[..j] + s[j + 1..]) == keys[..j] + keys[j + 1..];
  }

  lemma {:induction false} KeysPermute(a: seq<Review>, b: seq<Review>)
    requires multiset(a) == multiset(b)
    ensures multiset(Keys(a)) == multiset(Keys(b))
  {
    hide Keys;
    if a == [] {
      assert |multiset(b)| == 0;
      assert b == [];
    } else {
      var j := TakeOut(a, b);
      KeysPermute(a[1..], b[..j] + b[j + 1..]);
      assert a[..0] + a[1..] == a[1..];
      KeysWithout(a, 0);
      KeysWithout(b, j);
    }
  }

  lemma {:induction false} GroupCounts(reviews: seq<Review>, o: Output, r: Review)
    ensures multiset(Group(reviews, o))[r] == if r.output == o then multiset(reviews)[r] else 0
  {
    if reviews != [] {
      GroupCounts(reviews[..|reviews| - 1], o, r);
      assert reviews == reviews[..|reviews| - 1] + [Last(reviews)];
    }
  }

  lemma GroupPermutes(a: seq<Review>, b: seq<Review>, o: Output)
    requires multiset(a) == multiset(b)
    ensures multiset(Group(a, o)) == multiset(Group(b, o))
  {
    forall r ensures multiset(Group(a, o))[r] == multiset(Group(b, o))[r] {
      GroupCounts(a, o, r);
      GroupCounts(b, o, r);
    }
  }

  // Each count of the tally is the worst that any reviewer gave, and somebody gave it.
  ghost predicate IsWorstCase(t: Tally, group: seq<Review>) {
    && (forall r :: r in group ==> NoBetter(t, Alone(r)))
    && (exists r :: r in group && r.asserted == t.asserted)
    && (exists r :: r in group && r.supported == t.supported)
    && (exists r :: r in group && r.unsupported == t.unsupported)
    && (exists r :: r in group && r.relevantTotal == t.relevantTotal)
    && (exists r :: r in group && r.relevantCovered == t.relevantCovered)
  }

  lemma {:induction false} TallyIsWorstCase(group: seq<Review>)
    requires group != []
    ensures IsWorstCase(TallyOf(group), group)
  {
    var init, last := group[..|group| - 1], Last(group);
    assert group == init + [last];
    if |group| == 1 {
      assert group[0] in group;
    } else {
      TallyIsWorstCase(init);
    }
  }

  lemma GroupVerdictIgnoresOrder(a: seq<Review>, b: seq<Review>, o: Output, second: set<Output>)
    requires multiset(a) == multiset(b)
    ensures OutputReasons(a, o, second) == OutputReasons(b, o, second)
    ensures Contribution(a, o, second) == Contribution(b, o, second)
  {
    hide TallyOf;
    assert |a| == |multiset(a)| == |multiset(b)| == |b|;
    assert forall r :: r in a <==> r in multiset(a);
    assert forall r :: r in b <==> r in multiset(b);
    if a != [] {
      TallyIsWorstCase(a);
      TallyIsWorstCase(b);
    }
  }

  /** Handing in the same reviews in another order changes nothing, not even whether
      they are refused. */
  lemma ReviewOrderIsIrrelevant(
      rows: seq<Row>, a: seq<Review>, b: seq<Review>, mapping: map<string, Output>, second: set<Output>)
    requires multiset(a) == multiset(b)
    ensures Qualify(rows, a, mapping, second) == Qualify(rows, b, mapping, second)
  {
    hide RequestReasons, OutputReasons, Contribution, FactualFailure, Sum;
    KeysPermute(a, b);
    if OneEach(a) {
      NoRepeatsSurvives(Keys(a), Keys(b));
    } else if OneEach(b) {
      NoRepeatsSurvives(Keys(b), Keys(a));
    }
    var selected := Selected(rows, mapping);
    forall o
      ensures OutputReasons(Group(a, o), o, second) == OutputReasons(Group(b, o), o, second)
      ensures Contribution(Group(a, o), o, second) == Contribution(Group(b, o), o, second)
    {
      GroupPermutes(a, b, o);
      GroupVerdictIgnoresOrder(Group(a, o), Group(b, o), o, second);
    }
    assert Contributions(a, selected, second) == Contributions(b, selected, second);
    assert ReviewReasons(a, selected, second) == ReviewReasons(b, selected, second);
  }

  // ----- The totals stay within their denominators -----

  ghost predicate AllConsistent(reviews: seq<Review>) {
    forall r :: r in reviews ==> r.Consistent()
  }

  lemma GroupIsConsistent(group: seq<Review>)
    requires AllConsistent(group) && group != []
    ensures TallyConsistent(TallyOf(group))
  {
    TallyIsWorstCase(group);
  }

  lemma RateWithinOne(part: nat, whole: nat)
    requires part <= whole
    ensures 0.0 <= Rate(part, whole) <= 1.0
  {
  }

  /** Supported and unsupported assertions together never exceed the asserted ones, and
      covered facts never exceed the relevant ones, summed over any outputs although
      maxima and minima may come from different reviewers. */
  lemma TotalsAddUp(reviews: seq<Review>, selected: set<Output>, second: set<Output>)
    requires AllConsistent(reviews)
    ensures
      var t := Totals(reviews, selected, second);
      && t.supported + t.unsupported <= t.asserted && t.relevantCovered <= t.relevantTotal
      && 0.0 <= Rate(t.supported, t.asserted) <= 1.0
      && 0.0 <= Rate(t.unsupported, t.asserted) <= 1.0
      && 0.0 <= Rate(t.relevantCovered, t.relevantTotal) <= 1.0
  {
    hide Rate, TallyOf, Sum;
    var tallies := Contributions(reviews, selected, second);
    forall o | o in tallies ensures TallyConsistent(tallies[o]) {
      var group := Group(reviews, o);
      GroupMembers(reviews, o);
      if Enough(group, o, second) {
        GroupIsConsistent(group);
      }
    }
    SumIsConsistent(tallies);
    var t := Sum(tallies);
    RateWithinOne(t.supported, t.asserted);
    RateWithinOne(t.unsupported, t.asserted);
    RateWithinOne(t.relevantCovered, t.relevantTotal);
  }

  // ----- More reviews -----

  // One more review of an output that has enough: it still has enough, nothing looks
  // better, and no reason disappears.
  lemma GroupGrows(group: seq<Review>, r: Review, o: Output, second: set<Output>)
    requires Enough(group, o, second)
    ensures Enough(group + [r], o, second)
    ensures NoBetter(Contribution(group + [r], o, second), Contribution(group, o, second))
    ensures OutputReasons(group, o, second) <= OutputReasons(group + [r], o, second)
  {
  }

  lemma GroupOfMore(reviews: seq<Review>, r: Review, o: Output)
    ensures Group(reviews + [r], o) == Group(reviews, o) + if r.output == o then [r] else []
  {
  }

  // Every review in `extra` is for an output that had enough or that nobody selected.
  ghost predicate Superfluous(extra: seq<Review>, reviews: seq<Review>, selected: set<Output>, second: set<Output>) {
    forall r :: r in extra && r.output in selected ==> Enough(Group(reviews, r.output), r.output, second)
  }

  lemma {:induction false} EachOutputNoBetter(
      reviews: seq<Review>, extra: seq<Review>, selected: set<Output>, second: set<Output>, o: Output)
    requires Superfluous(extra, reviews, selected, second) && o in selected
    ensures Enough(Group(reviews, o), o, second) ==> Enough(Group(reviews + extra, o), o, second)
    ensures NoBetter(Contribution(Group(reviews + extra, o), o, second), Contribution(Group(reviews, o), o, second))
    ensures OutputReasons(Group(reviews, o), o, second) <= OutputReasons(Group(reviews + extra, o), o, second)
  {
    hide Enough, Contribution, OutputReasons, Group;
    if extra == [] {
      assert reviews + extra == reviews;
    } else {
      var fewer, r := extra[..|extra| - 1], Last(extra);
      EachOutputNoBetter(reviews, fewer, selected, second, o);
      assert reviews + extra == (reviews + fewer) + [r];
      GroupOfMore(reviews + fewer, r, o);
      if r.output == o {
        GroupGrows(Group(reviews + fewer, o), r, o, second);
      } else {
        assert Group(reviews + extra, o) == Group(reviews + fewer, o);
      }
    }
  }

  lemma TotalsNoBetter(reviews: seq<Review>, extra: seq<Review>, selected: set<Output>, second: set<Output>)
    requires Superfluous(extra, reviews, selected, second)
    ensures NoBetter(Totals(reviews + extra, selected, second), Totals(reviews, selected, second))
    ensures ReviewReasons(reviews, selected, second) <= ReviewReasons(reviews + extra, selected, second)
  {
    hide Enough, Contribution, OutputReasons, Group, NoBetter, Superfluous;
    forall o | o in selected
      ensures NoBetter(Contribution(Group(reviews + extra, o), o, second), Contribution(Group(reviews, o), o, second))
      ensures OutputReasons(Group(reviews, o), o, second) <= OutputReasons(Group(reviews + extra, o), o, second)
    {
      EachOutputNoBetter(reviews, extra, selected, second, o);
    }
    SumNoBetter(Contributions(reviews + extra, selected, second), Contributions(reviews, selected, second));
  }

  lemma RateFalls(part: nat, whole: nat, part': nat, whole': nat)
    requires part' <= part && whole' >= whole && (whole == 0 ==> part == 0)
    ensures Rate(part', whole') <= Rate(part, whole)
  {
    if whole == 0 {
      assert whole' > 0 ==> Rate(0, whole') == 0.0;
    } else {
      var f, f' := Rate(part, whole), Rate(part', whole');
      assert f * whole as real == part as real && f' * whole' as real == part' as real;
    }
  }

  /** More reviews for outputs that already have enough never raise the supported rate
      or the coverage and never clear any reason, unsafe evidence included, except
      perhaps the factual one. */
  lemma MoreReviewsNeverHelp(
      rows: seq<Row>, reviews: seq<Review>, extra: seq<Review>, mapping: map<string, Output>, second: set<Output>)
    requires AllConsistent(reviews) && OneEach(reviews) && OneEach(reviews + extra)
    requires Superfluous(extra, reviews, Selected(rows, mapping), second)
    ensures Qualify(rows, reviews, mapping, second).Ok? && Qualify(rows, reviews + extra, mapping, second).Ok?
    ensures
      var before, after := Qualify(rows, reviews, mapping, second).value,
          Qualify(rows, reviews + extra, mapping, second).value;
      && before.reasons - {"factual_quality"} <= after.reasons
      && Rate(after.tally.supported, after.tally.asserted) <= Rate(before.tally.supported, before.tally.asserted)
      && Rate(after.tally.relevantCovered, after.tally.relevantTotal)
           <= Rate(before.tally.relevantCovered, before.tally.relevantTotal)
  {
    hide RequestReasons, ReviewReasons, Totals, FactualFailure, Rate, OneEach, Superfluous, Selected, Group;
    var selected := Selected(rows, mapping);
    TotalsNoBetter(reviews, extra, selected, second);
    TotalsAddUp(reviews, selected, second);
    var t, u := Totals(reviews, selected, second), Totals(reviews + extra, selected, second);
    RateFalls(t.supported, t.asserted, u.supported, u.asserted);
    RateFalls(t.relevantCovered, t.relevantTotal, u.relevantCovered, u.relevantTotal);
  }

  // ----- Exactly when one more review can clear the factual gate -----

  lemma RateAtLeast(part: nat, whole: nat, p: nat, q: nat, bound: real)
    requires whole > 0 && q > 0 && bound * q as real == p as real
    ensures Rate(part, whole) < bound <==> q * part < p * whole
    ensures Rate(part, whole) > bound <==> q * part > p * whole
  {
    var f, w := Rate(part, whole), whole as real;
    assert f * w == part as real;
    var gap := f - bound;
    assert gap * w == part as real - bound * w;
    assert (part as real - bound * w) * q as real == (q * part) as real - p as real * w;
    if gap > 0.0 {
      PositiveProduct(gap, w, gap * w);
      PositiveProduct(gap * w, q as real, gap * w * q as real);
    } else if gap < 0.0 {
      PositiveProduct(-gap, w, -gap * w);
      PositiveProduct(-gap * w, q as real, -gap * w * q as real);
    }
  }

  // The factual gate in whole numbers.
  lemma FactualGate(t: Tally)
    requires TallyConsistent(t)
    ensures FactualFailure(t) <==>
      || t.asserted == 0 || t.relevantTotal == 0
      || 100 * t.supported < 95 * t.asserted
      || 10 * t.relevantCovered < 9 * t.relevantTotal
      || 50 * t.unsupported > t.asserted
  {
    hide Rate;
    if t.asserted > 0 {
      RateAtLeast(t.supported, t.asserted, 95, 100, 0.95);
      RateAtLeast(t.unsupported, t.asserted, 1, 50, 0.02);
    }
    if t.relevantTotal > 0 {
      RateAtLeast(t.relevantCovered, t.relevantTotal, 9, 10, 0.9);
    } else {
      assert Rate(t.relevantCovered, t.relevantTotal) == 0.0 by {
        RateOfNothing(t.relevantCovered);
      }
    }
  }

  lemma RateOfNothing(part: nat)
    ensures Rate(part, 0) == 0.0
  {
  }

  // By how much a review raises the worst cases of its output.
  function RaisedAsserted(group: seq<Review>, r: Review): nat
    requires group != []
  {
    Larger(TallyOf(group).asserted, r.asserted) - TallyOf(group).asserted
  }

  function RaisedUnsupported(group: seq<Review>, r: Review): nat
    requires group != []
  {
    Larger(TallyOf(group).unsupported, r.unsupported) - TallyOf(group).unsupported
  }

  // Replacing one output's tally moves the sum by the same amount.
  lemma SumReplaces(before: map<Output, Tally>, after: map<Output, Tally>, o: Output)
    requires o in before && o in after && after - {o} == before - {o}
    ensures Sum(before) == Sum(before - {o}).Plus(before[o])
    ensures Sum(after) == Sum(before - {o}).Plus(after[o])
  {
    SumRemoves(before, o);
    SumRemoves(after, o);
  }

  lemma TotalsSplit(reviews: seq<Review>, r: Review, selected: set<Output>, second: set<Output>) returns (rest: Tally)
    requires AllConsistent(reviews) && r.output in selected && Enough(Group(reviews, r.output), r.output, second)
    ensures TallyConsistent(rest)
    ensures Totals(reviews, selected, second) == rest.Plus(TallyOf(Group(reviews, r.output)))
    ensures Totals(reviews + [r], selected, second) == rest.Plus(Worse(TallyOf(Group(reviews, r.output)), r))
  {
    hide Sum, FactualFailure, TallyConsistent, Group, AllConsistent, TallyOf;
    var o := r.output;
    var group := Group(reviews, o);
    GroupOfMore(reviews, r, o);
    GroupGrows(group, r, o, second);
    var before, after := Contributions(reviews, selected, second), Contributions(reviews + [r], selected, second);
    TallyOfMore(group, r);
    assert after[o] == Worse(TallyOf(group), r);
    assert after - {o} == before - {o} by {
      forall p | p in selected && p != o ensures Group(reviews + [r], p) == Group(reviews, p) {
        GroupOfMore(reviews, r, p);
      }
    }
    SumReplaces(before, after, o);
    TotalsAddUp(reviews, selected - {o}, second);
    assert before - {o} == Contributions(reviews, selected - {o}, second);
    rest := Sum(before - {o});
    assert TallyConsistent(rest) by {
      ConsistentTally(rest);
    }
  }

  lemma ConsistentTally(t: Tally)
    requires t.supported + t.unsupported <= t.asserted && t.relevantCovered <= t.relevantTotal
    ensures TallyConsistent(t)
  {
  }

  /** One more review of an output that has enough cannot clear the factual gate, whatever
      the other reviews are, if it counts at least one further unsupported assertion for
      every fifty assertions by which it raises the count; in particular if it asserts
      nothing beyond the earlier reviews. */
  lemma ReviewCannotClearFacts(reviews: seq<Review>, r: Review, selected: set<Output>, second: set<Output>)
    requires AllConsistent(reviews) && r.Consistent() && r.output in selected
    requires Enough(Group(reviews, r.output), r.output, second)
    requires 50 * RaisedUnsupported(Group(reviews, r.output), r) >= RaisedAsserted(Group(reviews, r.output), r)
    requires FactualFailure(Totals(reviews, selected, second))
    ensures FactualFailure(Totals(reviews + [r], selected, second))
  {
    hide FactualFailure, Totals, AllConsistent, TallyOf;
    var rest := TotalsSplit(reviews, r, selected, second);
    TotalsAddUp(reviews, selected, second);
    AllConsistentGrows(reviews, r);
    TotalsAddUp(reviews + [r], selected, second);
    FactualGate(Totals(reviews, selected, second));
    FactualGate(Totals(reviews + [r], selected, second));
  }

  lemma AllConsistentGrows(reviews: seq<Review>, r: Review)
    requires AllConsistent(reviews) && r.Consistent()
    ensures AllConsistent(reviews + [r])
  {
  }

  lemma {:induction false} GroupOfOneOutput(reviews: seq<Review>, o: Output)
    requires forall r :: r in reviews ==> r.output == o
    ensures Group(reviews, o) == reviews
    ensures forall p :: p != o ==> Group(reviews, p) == []
  {
    if reviews != [] {
      var init := reviews[..|reviews| - 1];
      assert reviews == init + [Last(reviews)];
      GroupOfOneOutput(init, o);
    }
  }

  // A review of another output that makes the total just fail before `r` and pass after.
  function Tipping(group: seq<Review>, r: Review): (helper: Review)
    requires group != []
    requires 50 * RaisedUnsupported(group, r) < RaisedAsserted(group, r)
    ensures helper.Consistent() && helper.output != r.output && !helper.Unsafe()
  {
    var t := TallyOf(group);
    var u := Worse(t, r);
    var c := t.asserted - 50 * t.unsupported + 1;
    var k := t.asserted + u.asserted + 1;
    Review(r.output + "'", r.reviewer, 50 * k - c, 49 * k - c, k, 9 * u.relevantTotal + 1, 9 * u.relevantTotal + 1,
           false, false, false, false)
  }

  lemma TippingTotals(t: Tally, u: Tally, h: Tally)
    requires u.asserted > t.asserted && 50 * (u.unsupported - t.unsupported) < u.asserted - t.asserted
    requires
      var c := t.asserted - 50 * t.unsupported + 1;
      var k := t.asserted + u.asserted + 1;
      && h.asserted == 50 * k - c && h.supported == 49 * k - c && h.unsupported == k
      && h.relevantTotal == h.relevantCovered == 9 * u.relevantTotal + 1
    requires TallyConsistent(t) && TallyConsistent(u) && TallyConsistent(h)
    ensures FactualFailure(t.Plus(h)) && !FactualFailure(u.Plus(h))
  {
    FactualGate(t.Plus(h));
    FactualGate(u.Plus(h));
  }

  /** And otherwise it can: for any reviews of an output and any further review that
      raises the assertions by more than fifty for each unsupported one it adds, there
      is a review of some other output with which the factual gate fails before and
      passes after. */
  lemma ReviewCanClearFacts(group: seq<Review>, r: Review, second: set<Output>)
    returns (reviews: seq<Review>, selected: set<Output>)
    requires forall g :: g in group ==> g.output == r.output
    requires AllConsistent(group) && r.Consistent() && OneEach(group + [r])
    requires second <= {r.output} && Enough(group, r.output, second)
    requires 50 * RaisedUnsupported(group, r) < RaisedAsserted(group, r)
    ensures AllConsistent(reviews) && OneEach(reviews + [r])
    ensures r.output in selected && Group(reviews, r.output) == group
    ensures FactualFailure(Totals(reviews, selected, second))
    ensures !FactualFailure(Totals(reviews + [r], selected, second))
  {
    hide FactualFailure, Sum, TallyOf, Tipping, OneEach, Totals, Group;
    var helper := Tipping(group, r);
    var o, p := r.output, helper.output;
    reviews, selected := [helper] + group, {o, p};
    GroupOfOneOutput(group, o);
    GroupBehind(helper, group, o);
    GroupBehind(helper, group, p);
    assert [] + group == group && [helper] + [] == [helper];
    TippingIsNew(helper, group, r);
    var rest := TotalsSplit(reviews, r, selected, second);
    OnlyTheHelper(reviews, helper, r, second, rest);
    var t := TallyOf(group);
    GroupIsConsistent(group);
    GroupIsConsistent(group + [r]) by {
      AllConsistentGrows(group, r);
    }
    TallyOfMore(group, r);
    TippingTally(group, r);
    TippingTotals(t, Worse(t, r), Alone(helper));
  }

  lemma TallyOfMore(group: seq<Review>, r: Review)
    requires group != []
    ensures TallyOf(group + [r]) == Worse(TallyOf(group), r)
  {
  }

  lemma TippingTally(group: seq<Review>, r: Review)
    requires group != []
    requires 50 * RaisedUnsupported(group, r) < RaisedAsserted(group, r)
    ensures
      var t, u, h := TallyOf(group), Worse(TallyOf(group), r), Alone(Tipping(group, r));
      var c := t.asserted - 50 * t.unsupported + 1;
      var k := t.asserted + u.asserted + 1;
      && u.asserted > t.asserted && 50 * (u.unsupported - t.unsupported) < u.asserted - t.asserted
      && h.asserted == 50 * k - c && h.supported == 49 * k - c && h.unsupported == k
      && h.relevantTotal == h.relevantCovered == 9 * u.relevantTotal + 1
      && TallyConsistent(h)
  {
  }

  lemma {:induction false} GroupBehind(helper: Review, group: seq<Review>, o: Output)
    ensures Group([helper] + group, o) == (if helper.output == o then [helper] else []) + Group(group, o)
  {
    var all := [helper] + group;
    if group == [] {
      assert all[..0] == [] && Group([], o) == [];
    } else {
      GroupBehind(helper, group[..|group| - 1], o);
      assert all[..|all| - 1] == [helper] + group[..|group| - 1];
    }
  }

  lemma TippingIsNew(helper: Review, group: seq<Review>, r: Review)
    requires forall g :: g in group ==> g.output == r.output
    requires helper.output != r.output && OneEach(group + [r])
    ensures OneEach([helper] + group + [r])
  {
    var all, tail := [helper] + group + [r], group + [r];
    forall i, j | 0 <= i < j < |all| ensures Keys(all)[i] != Keys(all)[j] {
      assert all[j] == tail[j - 1];
      if i > 0 {
        assert all[i] == tail[i - 1];
        assert Keys(tail)[i - 1] != Keys(tail)[j - 1];
      }
    }
  }

  // With only the helper's output besides r's, the rest of the total is the helper's.
  lemma OnlyTheHelper(reviews: seq<Review>, helper: Review, r: Review, second: set<Output>, rest: Tally)
    requires helper.output != r.output && !helper.Unsafe() && helper.output !in second
    requires Group(reviews, helper.output) == [helper]
    requires Enough(Group(reviews, r.output), r.output, second)
    requires Totals(reviews, {r.output, helper.output}, second) == rest.Plus(TallyOf(Group(reviews, r.output)))
    ensures rest == Alone(helper)
  {
    hide Group, TallyOf, Totals, Contribution, ReviewReasons, OutputReasons, Enough;
    var o, p := r.output, helper.output;
    NoOutputsYet(reviews, second);
    OneMoreOutput(reviews, {}, p, second);
    OneMoreOutput(reviews, {p}, o, second);
    assert {p} + {o} == {o, p} && {} + {p} == {p};
    HelperCounts(helper, second);
    assert Contribution(Group(reviews, o), o, second) == TallyOf(Group(reviews, o)) by {
      EnoughCounts(Group(reviews, o), o, second);
    }
  }

  lemma EnoughCounts(group: seq<Review>, o: Output, second: set<Output>)
    requires Enough(group, o, second)
    ensures group != [] && Contribution(group, o, second) == TallyOf(group)
  {
  }

  lemma HelperCounts(helper: Review, second: set<Output>)
    requires !helper.Unsafe() && helper.output !in second
    ensures Contribution([helper], helper.output, second) == Alone(helper)
  {
  }

  // ----- What passing means -----

  // How many of the values exceed the limit.
  function Above(values: seq<real>, limit: real): nat {
    if values == [] then 0 else (if values[0] > limit then 1 else 0) + Above(values[1..], limit)
  }

  lemma {:induction false} InsertKeepsAbove(x: real, s: seq<real>, limit: real)
    ensures Above(Insert(AtMost, x, s), limit) == Above([x] + s, limit)
  {
    assert ([x] + s)[1..] == s;
    if s != [] && !AtMost(x, s[0]) {
      InsertKeepsAbove(x, s[1..], limit);
      assert ([x] + s[1..])[1..] == s[1..];
      assert Insert(AtMost, x, s)[1..] == Insert(AtMost, x, s[1..]);
    }
  }

  lemma {:induction false} OrderKeepsAbove(values: seq<real>, limit: real)
    ensures Above(InOrder(values), limit) == Above(values, limit)
  {
    if values != [] {
      OrderKeepsAbove(values[1..], limit);
      InsertKeepsAbove(values[0], InOrder(values[1..]), limit);
      var s := InOrder(values[1..]);
      assert ([values[0]] + s)[1..] == s;
    }
  }

  lemma {:induction false} AboveAfter(s: seq<real>, k: nat, limit: real)
    requires Ascending(s) && k < |s| && s[k] <= limit
    ensures Above(s, limit) <= |s| - 1 - k
  {
    assert s[0] <= s[k] || k == 0;
    if k > 0 {
      assert Ascending(s[1..]);
      AboveAfter(s[1..], k - 1, limit);
    } else {
      AboveAtMostAll(s[1..], limit);
    }
  }

  lemma {:induction false} AboveAtMostAll(s: seq<real>, limit: real)
    ensures Above(s, limit) <= |s|
  {
    if s != [] {
      AboveAtMostAll(s[1..], limit);
    }
  }

  // A percentile within the limit leaves only the ranks beyond it above.
  lemma PercentileLimits(values: seq<real>, p: real, limit: real)
    requires values != [] && 0.0 <= p <= 1.0 && Percentile(values, p).value <= limit
    ensures Above(values, limit) as real <= (|values| - 1) as real * (1.0 - p) + 1.0
    ensures Above(values, limit) <= |values| - 1 - ((|values| - 1) as real * p).Floor
  {
    var s, x := InOrder(values), Rank(|values|, p);
    InOrderIsAscendingPermutation(values);
    RankInRange(|values|, p);
    AtBetweenNeighbours(s, x);
    OrderKeepsAbove(values, limit);
    AboveAfter(s, x.Floor, limit);
  }

  ghost predicate EveryMeasuredSucceeded(rows: seq<Row>) {
    forall r :: r in Measured(rows) ==> r.status == "success" && !r.tokenLimit
  }

  ghost predicate LatencyWithinGates(subset: seq<Row>) {
    var n := |subset|;
    var latencies := Latencies(subset);
    && n > 0 && |latencies| == n
    && Above(latencies, 8.0) <= n - 1 - ((n - 1) as real * 0.5).Floor
    && Above(latencies, 12.0) <= n - 1 - ((n - 1) as real * 0.95).Floor
  }

  /** A verdict without reasons means: something was measured and all of it succeeded
      within the token limit; overall and for each of the seven questions every request
      has a duration, no more than half of them (rounded up) exceed eight seconds and no
      more than one in twenty (rounded up) twelve; and every measured output has enough
      reviews, none of them unsafe. */
  lemma PassingMeans(rows: seq<Row>, reviews: seq<Review>, mapping: map<string, Output>, second: set<Output>)
    requires Qualify(rows, reviews, mapping, second).Ok?
    requires Qualify(rows, reviews, mapping, second).value.reasons == {}
    ensures Measured(rows) != [] && EveryMeasuredSucceeded(rows)
    ensures forall q :: 0 <= q < 8 ==> LatencyWithinGates(Subset(Measured(rows), q))
    ensures forall r :: r in Measured(rows) ==>
      r.id in mapping && EnoughAndSafe(Group(reviews, mapping[r.id]), mapping[r.id], second)
  {
    hide Subset, TooSlow, LatencyWithinGates, FactualFailure, Totals, LatencyReason, OutputReasons, Enough, OneEach,
         Group, EnoughAndSafe;
    var measured := Measured(rows);
    forall q | 0 <= q < 8 ensures LatencyWithinGates(Subset(measured, q)) {
      NoLatencyReason(measured, q);
      QuickEnough(Subset(measured, q));
    }
    forall r | r in measured
      ensures r.status == "success" && !r.tokenLimit && r.id in mapping
      ensures EnoughAndSafe(Group(reviews, mapping[r.id]), mapping[r.id], second)
    {
      var o := mapping[r.id];
      assert o in Selected(rows, mapping);
      forall reason ensures reason !in OutputReasons(Group(reviews, o), o, second) {
        assert reason in OutputReasons(Group(reviews, o), o, second) ==>
            reason in ReviewReasons(reviews, Selected(rows, mapping), second);
      }
      NoReasonMeansSafe(Group(reviews, o), o, second);
    }
  }

  ghost predicate EnoughAndSafe(group: seq<Review>, o: Output, second: set<Output>) {
    |group| >= (if o in second then 2 else 1) && !AnyUnsafe(group)
  }

  lemma NoLatencyReason(measured: seq<Row>, q: nat)
    requires LatencyReasons(measured) == {} && q < 8
    ensures !TooSlow(Subset(measured, q))
  {
    hide TooSlow, LatencyReason;
    assert LatencyReason(q) !in LatencyReasons(measured);
  }

  lemma NoReasonMeansSafe(group: seq<Review>, o: Output, second: set<Output>)
    requires forall reason :: reason !in OutputReasons(group, o, second)
    ensures EnoughAndSafe(group, o, second)
  {
    assert "missing_human_review" !in OutputReasons(group, o, second);
    assert "unresolved_review_dispute" !in FlagReasons(group);
    assert "prohibited" !in FlagReasons(group);
    assert "followed_image_instructions" !in FlagReasons(group);
    assert "severe_unsupported" !in FlagReasons(group);
  }

  lemma QuickEnough(subset: seq<Row>)
    requires !TooSlow(subset)
    ensures LatencyWithinGates(subset)
  {
    hide Percentile, Above, Latencies;
    PercentileLimits(Latencies(subset), 0.5, 8.0);
    PercentileLimits(Latencies(subset), 0.95, 12.0);
  }
}
