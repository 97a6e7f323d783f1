/** One scrape of the membership collector: the three gauge families built
    from the subscriptions and mandates the provider returned. */
module Collector {
  import opened Records
  import opened Plans
  import opened Members
  import opened Metrics

  const MembersName := "gocardless_members_count"
  const MembersHelp := "Number of active members in GoCardless"
  const TotalName := "gocardless_subscriptions_total_count"
  const TotalHelp := "Number of active subscriptions in GoCardless"
  const PlansName := "gocardless_subscriptions_count"
  const PlansHelp := "Number of active subscriptions by name in GoCardless"

  /** The provider environment the client is configured for. */
  datatype Environment = Live | Sandbox

  /** The labelled samples the per-plan loop adds, one per counter item, in
      the order of the items. */
  function PlanSamples(items: Counts): seq<Sample>
  {
    seq(|items|, k requires 0 <= k < |items| => Sample([items[k].0], items[k].1))
  }

  /** The per-plan sample values add up to the counter's total. */
  lemma {:induction false} PlanSamplesSum(items: Counts)
    ensures SumValues(PlanSamples(items)) == Sum(items)
  {
    if items != [] {
      assert PlanSamples(items)[1..] == PlanSamples(items[1..]);
      PlanSamplesSum(items[1..]);
    }
  }

  /** The per-plan samples of a scrape add up to the number of subscriptions,
      which is the value of the total sample. */
  lemma PlanSamplesTotal(subs: seq<Subscription>)
    ensures SumValues(PlanSamples(CountByName(subs))) == |subs|
  {
    PlanSamplesSum(CountByName(subs));
  }

  /** Every plan name among the subscriptions labels exactly one per-plan
      sample, whose value is the number of subscriptions on that plan; a name
      that occurs in no subscription labels none; no sample has value 0. */
  lemma PlanSamplesExact(subs: seq<Subscription>, x: string)
    ensures x in Names(subs) ==>
      exists k :: 0 <= k < |PlanSamples(CountByName(subs))| &&
        PlanSamples(CountByName(subs))[k] == Sample([x], multiset(Names(subs))[x])
    ensures x !in Names(subs) ==>
      forall k :: 0 <= k < |PlanSamples(CountByName(subs))| ==> PlanSamples(CountByName(subs))[k].labelValues != [x]
    ensures forall j, k :: 0 <= j < k < |PlanSamples(CountByName(subs))| ==>
      PlanSamples(CountByName(subs))[j].labelValues != PlanSamples(CountByName(subs))[k].labelValues
    ensures forall k :: 0 <= k < |PlanSamples(CountByName(subs))| ==> PlanSamples(CountByName(subs))[k].value >= 1
  {
    var items := CountByName(subs);
    var samples := PlanSamples(items);
    if x in Names(subs) {
      CountByNameCovers(subs, x);
      var k :| 0 <= k < |items| && items[k] == (x, multiset(Names(subs))[x]);
      assert samples[k] == Sample([x], multiset(Names(subs))[x]);
    } else {
      CountByNameAbsent(subs, x);
    }
    forall j, k | 0 <= j < k < |samples| ensures samples[j].labelValues != samples[k].labelValues {
      assert samples[j].labelValues[0] == items[j].0;
      assert samples[k].labelValues[0] == items[k].0;
    }
    forall k | 0 <= k < |samples| ensures samples[k].value >= 1 {
      CountByNameItem(subs, k);
    }
  }

  /** A worked scrape: two "gold" subscriptions on mandates M1 and M2 and one
      "silver" subscription on M3. */
  function ExampleSubscriptions(): seq<Subscription>
  {
    [Subscription("gold", "M1"), Subscription("gold", "M2"), Subscription("silver", "M3")]
  }

  /** M1 and M3 belong to customer C1, M2 to C2. */
  function ExampleMandates(): seq<Mandate>
  {
    [Mandate("M1", "C1"), Mandate("M2", "C2"), Mandate("M3", "C1")]
  }

  /** The counter of the worked scrape lists gold (2) before silver (1). */
  lemma ExamplePlanCounts()
    ensures CountByName(ExampleSubscriptions()) == [("gold", 2), ("silver", 1)]
  {
    var subs := ExampleSubscriptions();
    assert "gold" != "silver" by { assert |"gold"| != |"silver"|; }
    assert subs[..0] == [];
    assert CountByName(subs[..0]) == [];
    assert subs[..1][..0] == subs[..0];
    assert CountByName(subs[..1]) == Bump([], "gold");
    assert subs[..2][..1] == subs[..1];
    assert CountByName(subs[..2]) == Bump([("gold", 1)], "gold");
    assert subs[..3][..2] == subs[..2] && subs == subs[..3];
    assert CountByName(subs) == Bump([("gold", 2)], "silver");
  }

  /** In the worked scrape all three mandates are referenced, and C1, who
      holds two of them, is one member. */
  lemma ExampleMemberCount()
    ensures MemberCount(ExampleMandates(), MandateIds(ExampleSubscriptions())) == 2
  {
    var ids := MandateIds(ExampleSubscriptions());
    assert ids == ["M1", "M2", "M3"];
    var mandates := ExampleMandates();
    assert "C1" != "C2" by { assert "C1"[1] != "C2"[1]; }
    assert mandates[1..][1..] == [mandates[2]];
    assert ReferencedCustomers(mandates, ids) == {"C1", "C2"};
  }

  /** The collector: it keeps the credentials the provider client is built
      from, and builds three fresh families on every scrape. */
  class GoCardlessMembershipCollector {
    const environment: Environment
    const token: string

    constructor (environment: Environment, token: string)
      ensures this.environment == environment && this.token == token
    {
      this.environment := environment;
      this.token := token;
    }

    /** `collect()`, given what `subscriptions.all` and `mandates.all`
        returned. The families come back in the order they are yielded:
        members, subscriptions total, subscriptions by plan. The first two
        carry one unlabelled sample each; the third one sample per counter
        item, labelled by plan name. */
    method Collect(subscriptionData: seq<Subscription>, mandatesData: seq<Mandate>)
      returns (families: seq<GaugeMetricFamily>)
      ensures |families| == 3
      ensures fresh(families[0]) && fresh(families[1]) && fresh(families[2])
      ensures families[0] != families[1] && families[1] != families[2] && families[0] != families[2]
      ensures families[0].name == MembersName && families[0].documentation == MembersHelp
      ensures families[0].labelNames == []
      ensures families[0].samples == [Sample([], MemberCount(mandatesData, MandateIds(subscriptionData)))]
      ensures families[1].name == TotalName && families[1].documentation == TotalHelp
      ensures families[1].labelNames == []
      ensures families[1].samples == [Sample([], |subscriptionData|)]
      ensures families[2].name == PlansName && families[2].documentation == PlansHelp
      ensures families[2].labelNames == ["name"]
      ensures families[2].samples == PlanSamples(CountByName(subscriptionData))
      ensures SumValues(families[2].samples) == families[1].samples[0].value
    {
      var members := new GaugeMetricFamily(MembersName, MembersHelp, []);
      var subscriptionsTotal := new GaugeMetricFamily(TotalName, TotalHelp, []);
      var subscriptions := new GaugeMetricFamily(PlansName, PlansHelp, ["name"]);

      subscriptionsTotal.AddMetric([], |subscriptionData|);

      var items := CountByName(subscriptionData);
      var i := 0;
      while i < |items|
        modifies subscriptions
        invariant 0 <= i <= |items|
        invariant subscriptions.samples == PlanSamples(items[..i])
      {
        assert PlanSamples(items[..i + 1]) == PlanSamples(items[..i]) + [Sample([items[i].0], items[i].1)];
        subscriptions.AddMetric([items[i].0], items[i].1);
        i := i + 1;
      }
      assert items[..i] == items;

      var mandatesIds := MandateIds(subscriptionData);
      var membersCount := MemberCount(mandatesData, mandatesIds);
      members.AddMetric([], membersCount);

      PlanSamplesTotal(subscriptionData);
      families := [members, subscriptionsTotal, subscriptions];
    }
  }
}
