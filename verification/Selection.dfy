/** Choosing the next campaign (codex_runner/runner.py, select_campaign and its helpers). */
module Selection {
  import opened Wrappers
  import opened Text
  import opened Tasks
  import opened Campaigns
  import opened Merge
  import opened Confluence

  /** `campaign_is_completed`. */
  predicate AllSucceeded(c: Campaign) {
    c.tasks != map[] && forall t :: t in c.tasks ==> c.tasks[t].status == Success
  }

  predicate DependenciesSatisfied(s: State, c: Campaign) {
    forall d :: d in c.dependsOn ==> d in s.campaigns && s.campaigns[d].status == Completed
  }

  /** Open, with every dependency present and completed. */
  predicate Eligible(s: State, id: string) {
    id in s.campaigns && s.campaigns[id].status != Completed && DependenciesSatisfied(s, s.campaigns[id])
  }

  /** `high_risk_count`: unfinished high-risk tasks. */
  function HighRiskCount(c: Campaign): nat {
    |set t | t in c.tasks && c.tasks[t].status != Success && c.tasks[t].content.risk == High|
  }

  /** Strict order of the sort key (-high risk, date, slug). */
  predicate Before(x: Campaign, y: Campaign) {
    var hx, hy := HighRiskCount(x), HighRiskCount(y);
    hx > hy || (hx == hy && (Less(x.date, y.date) || (x.date == y.date && Less(x.slug, y.slug))))
  }

  /** The head of the stable sort of the eligible campaigns among `ids`. */
  function FirstOf(s: State, ids: seq<string>): Option<string>
    requires forall i :: 0 <= i < |ids| ==> ids[i] in s.campaigns
  {
    if ids == [] then None
    else
      var rest := FirstOf(s, ids[1..]);
      if !Eligible(s, ids[0]) then rest
      else if rest.Some? && rest.value in s.campaigns && Before(s.campaigns[rest.value], s.campaigns[ids[0]]) then rest
      else Some(ids[0])
  }

  ghost predicate OrderedKeys(s: State) { forall i :: 0 <= i < |s.order| ==> s.order[i] in s.campaigns }

  /** `select_campaign`, by id. */
  function Select(s: State): Option<string>
    requires OrderedKeys(s)
  {
    FirstOf(s, s.order)
  }

  lemma WellFormedOrdered(s: State)
    requires WellFormed(s)
    ensures OrderedKeys(s)
  {
    assert forall i :: 0 <= i < |s.order| ==> s.order[i] in s.order;
  }

  lemma BeforeTransitive(x: Campaign, y: Campaign, z: Campaign)
    requires !Before(y, x) && !Before(z, y)
    ensures !Before(z, x)
  {
    hide HighRiskCount, Less;
    if HighRiskCount(z) == HighRiskCount(x) && HighRiskCount(y) == HighRiskCount(x) {
      NotLessTransitive(x.date, y.date, z.date);
      if z.date == x.date {
        LessTotal(x.date, y.date);
        NotLessTransitive(x.slug, y.slug, z.slug);
      }
    }
  }

  lemma NotLessTransitive(a: string, b: string, c: string)
    ensures !Less(b, a) && !Less(c, b) ==> !Less(c, a)
  {
    hide Less;
    LessTotal(a, b);
    LessTotal(b, c);
    if Less(a, b) && Less(b, c) {
      LessTransitive(a, b, c);
      LessAsymmetric(a, c);
    }
    if Less(a, b) {
      LessAsymmetric(a, b);
    }
  }

  lemma BeforeIrreflexive(x: Campaign)
    ensures !Before(x, x)
  {
    LessIrreflexive(x.date);
    LessIrreflexive(x.slug);
  }

  /** `w` is at index `i` of `ids`, is eligible, is never beaten, and beats every earlier eligible campaign. */
  ghost predicate Wins(s: State, ids: seq<string>, i: int)
    requires forall j :: 0 <= j < |ids| ==> ids[j] in s.campaigns
  {
    && 0 <= i < |ids| && Eligible(s, ids[i])
    && (forall j :: 0 <= j < |ids| && Eligible(s, ids[j]) ==> !Before(s.campaigns[ids[j]], s.campaigns[ids[i]]))
    && (forall j :: 0 <= j < i && Eligible(s, ids[j]) ==> Before(s.campaigns[ids[i]], s.campaigns[ids[j]]))
  }

  lemma {:induction false} FirstOfWins(s: State, ids: seq<string>)
    requires forall j :: 0 <= j < |ids| ==> ids[j] in s.campaigns
    ensures match FirstOf(s, ids)
            case None => forall j :: 0 <= j < |ids| ==> !Eligible(s, ids[j])
            case Some(w) => exists i :: Wins(s, ids, i) && ids[i] == w
  {
    hide Eligible, Before;
    if ids != [] {
      var head, tail := ids[0], ids[1..];
      FirstOfWins(s, tail);
      var rest := FirstOf(s, tail);
      BeforeIrreflexive(s.campaigns[head]);
      if rest.None? {
        assert forall j :: 0 < j < |ids| ==> ids[j] == tail[j - 1];
        if Eligible(s, head) {
          assert Wins(s, ids, 0);
        }
      } else {
        var i :| Wins(s, tail, i) && tail[i] == rest.value;
        if Eligible(s, head) && !Before(s.campaigns[tail[i]], s.campaigns[head]) {
          forall j | 0 <= j < |ids| && Eligible(s, ids[j])
            ensures !Before(s.campaigns[ids[j]], s.campaigns[head])
          {
            if j > 0 {
              assert ids[j] == tail[j - 1];
              BeforeTransitive(s.campaigns[head], s.campaigns[tail[i]], s.campaigns[ids[j]]);
            }
          }
          assert Wins(s, ids, 0);
        } else {
          forall j | 0 <= j < |ids| && Eligible(s, ids[j])
            ensures !Before(s.campaigns[ids[j]], s.campaigns[ids[i + 1]])
            ensures j < i + 1 ==> Before(s.campaigns[ids[i + 1]], s.campaigns[ids[j]])
          {
            if j > 0 {
              assert ids[j] == tail[j - 1];
            } else {
              BeforeAsymmetric(s.campaigns[tail[i]], s.campaigns[head]);
            }
          }
          assert Wins(s, ids, i + 1);
        }
      }
    }
  }

  lemma BeforeAsymmetric(x: Campaign, y: Campaign)
    requires Before(x, y)
    ensures !Before(y, x)
  {
    if Less(x.date, y.date) {
      LessAsymmetric(x.date, y.date);
    } else if Less(x.slug, y.slug) {
      LessAsymmetric(x.slug, y.slug);
    }
  }

  /**
   The selected campaign is eligible, no eligible campaign has a smaller key, and among equal keys it
   was inserted first; nothing is selected exactly when nothing is eligible.
   */
  lemma SelectIsFirstLeast(s: State)
    requires WellFormed(s)
    ensures OrderedKeys(s)
    ensures match Select(s)
            case None => forall id :: id in s.campaigns ==> !Eligible(s, id)
            case Some(w) => exists i :: Wins(s, s.order, i) && s.order[i] == w
  {
    hide Eligible, Before, HeaderMatchesId;
    WellFormedOrdered(s);
    FirstOfWins(s, s.order);
    forall id | id in s.campaigns
      ensures Select(s).None? ==> !Eligible(s, id)
    {
      assert id in s.order;
    }
  }

  /** Open, and every campaign it depends on is there and completed. */
  ghost predicate CanRun(s: State, id: string) {
    && id in s.campaigns && s.campaigns[id].status == Open
    && forall d :: d in s.campaigns[id].dependsOn ==> d in s.campaigns && s.campaigns[d].status == Completed
  }

  lemma CanRunIsEligible(s: State, id: string)
    ensures CanRun(s, id) <==> Eligible(s, id)
  {
  }

  /**
   No campaign that could run has more unfinished high-risk tasks than the one selected; of those with as many
   it has the earliest date, of those with that date the first slug, and of those with that slug it was
   inserted first. As long as any campaign could run, one is selected.
   */
  lemma SelectedRanksFirst(s: State, id: string)
    requires WellFormed(s) && CanRun(s, id)
    ensures OrderedKeys(s) && Select(s).Some? && CanRun(s, Select(s).value)
    ensures var w := Select(s).value;
            var x, y := s.campaigns[w], s.campaigns[id];
            var most := |set t | t in x.tasks && x.tasks[t].status != Success && x.tasks[t].content.risk == High|;
            var others := |set t | t in y.tasks && y.tasks[t].status != Success && y.tasks[t].content.risk == High|;
            && others <= most
            && (others == most ==>
                  || Precedes(x.date, y.date)
                  || (x.date == y.date && Precedes(x.slug, y.slug))
                  || (x.date == y.date && x.slug == y.slug
                      && exists i, j :: 0 <= i <= j < |s.order| && s.order[i] == w && s.order[j] == id))
  {
    hide HeaderMatchesId, Eligible, Less, Precedes;
    SelectIsFirstLeast(s);
    CanRunIsEligible(s, id);
    var w := Select(s).value;
    var i :| Wins(s, s.order, i) && s.order[i] == w;
    CanRunIsEligible(s, w);
    var j :| 0 <= j < |s.order| && s.order[j] == id;
    var x, y := s.campaigns[w], s.campaigns[id];
    LessIsPrecedes(x.date, y.date);
    LessIsPrecedes(x.slug, y.slug);
    LessTotal(x.date, y.date);
    LessTotal(x.slug, y.slug);
    BeforeIrreflexive(x);
    if j < i {
      assert Before(x, y);
    }
  }

  lemma SelectedEligible(s: State)
    requires WellFormed(s)
    ensures OrderedKeys(s)
    ensures Select(s).Some? ==> Eligible(s, Select(s).value)
    ensures Select(s).None? ==> forall id :: id in s.campaigns ==> !Eligible(s, id)
  {
    hide Before;
    SelectIsFirstLeast(s);
  }

  // ---------------------------------------------------------------- independence of dictionary order

  /** No two campaigns share date and slug. */
  ghost predicate DatesAndSlugsUnique(s: State) {
    forall c, d :: c in s.campaigns && d in s.campaigns && c != d ==>
      s.campaigns[c].date != s.campaigns[d].date || s.campaigns[c].slug != s.campaigns[d].slug
  }

  lemma SameCoreEligible(a: State, b: State, id: string)
    requires SameCore(a, b)
    ensures Eligible(a, id) <==> Eligible(b, id)
  {
    forall c | c in a.campaigns
      ensures SameCampaign(a.campaigns[c], b.campaigns[c])
    {
    }
    if id in a.campaigns {
      assert a.campaigns[id].dependsOn == b.campaigns[id].dependsOn;
      forall d | d in a.campaigns[id].dependsOn
        ensures (d in a.campaigns && a.campaigns[d].status == Completed)
                <==> (d in b.campaigns && b.campaigns[d].status == Completed)
      {
      }
    }
  }

  lemma SameCoreBefore(a: State, b: State, c: string, d: string)
    requires SameCore(a, b) && c in a.campaigns && d in a.campaigns
    ensures Before(a.campaigns[c], a.campaigns[d]) <==> Before(b.campaigns[c], b.campaigns[d])
  {
    assert SameCampaign(a.campaigns[c], b.campaigns[c]) && SameCampaign(a.campaigns[d], b.campaigns[d]);
    assert a.campaigns[c].tasks == b.campaigns[c].tasks && a.campaigns[d].tasks == b.campaigns[d].tasks;
  }

  lemma WinnersEqual(s: State, x: string, y: string)
    requires DatesAndSlugsUnique(s) && x in s.campaigns && y in s.campaigns
    requires !Before(s.campaigns[x], s.campaigns[y]) && !Before(s.campaigns[y], s.campaigns[x])
    ensures x == y
  {
    hide HighRiskCount, Less;
    LessTotal(s.campaigns[x].date, s.campaigns[y].date);
    LessTotal(s.campaigns[x].slug, s.campaigns[y].slug);
  }

  /** States with the same core select the same campaign when dates and slugs tell campaigns apart. */
  lemma SelectIgnoresProvenance(a: State, b: State)
    requires WellFormed(a) && WellFormed(b) && SameCore(a, b) && DatesAndSlugsUnique(a)
    ensures OrderedKeys(a) && OrderedKeys(b) && Select(a) == Select(b)
  {
    hide Eligible, Before, HeaderMatchesId, SameCampaign, Select;
    SelectIsFirstLeast(a);
    SelectIsFirstLeast(b);
    forall id: string
      ensures Eligible(a, id) <==> Eligible(b, id)
    {
      SameCoreEligible(a, b, id);
    }
    if Select(a).Some? {
      var i :| Wins(a, a.order, i) && a.order[i] == Select(a).value;
      var x := a.order[i];
      assert Eligible(b, x) && x in b.campaigns && x in b.order;
      var j :| Wins(b, b.order, j) && b.order[j] == Select(b).value;
      var y := b.order[j];
      assert y in a.order;
      var xb :| 0 <= xb < |b.order| && b.order[xb] == x;
      var ya :| 0 <= ya < |a.order| && a.order[ya] == y;
      SameCoreBefore(a, b, x, y);
      SameCoreBefore(a, b, y, x);
      WinnersEqual(a, x, y);
    }
  }

  /** Merging two proposals in either order leads to the same next campaign. */
  lemma MergeOrderSelectsSame(s: State, p: Proposal, audit: string, q: Proposal, audit': string)
    requires WellFormed(s)
    requires MergeBoth(s, p, audit, q, audit').Some?
    requires DatesAndSlugsUnique(MergeBoth(s, p, audit, q, audit').value)
    ensures var left, right := MergeBoth(s, p, audit, q, audit'), MergeBoth(s, q, audit', p, audit);
            && right.Some? && OrderedKeys(left.value) && OrderedKeys(right.value)
            && Select(left.value) == Select(right.value)
  {
    hide MergeBoth, SameCore, Select, WellFormed, DatesAndSlugsUnique;
    MergeConfluent(s, p, audit, q, audit');
    SelectIgnoresProvenance(MergeBoth(s, p, audit, q, audit').value, MergeBoth(s, q, audit', p, audit).value);
  }
}
