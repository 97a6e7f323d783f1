# GoCardless membership exporter: the scrape aggregation

The exporter publishes three gauges about a hackspace's GoCardless account on
every Prometheus scrape. Its collector (`GoCardlessMembershipCollector.collect`)
fetches the active subscriptions and the active mandates, then reduces them:

- `gocardless_subscriptions_total_count`: the number of active subscriptions;
- `gocardless_subscriptions_count{name=...}`: one sample per distinct plan
  name, counting the subscriptions on that plan (a Python `Counter`);
- `gocardless_members_count`: the number of distinct customers among the
  mandates that some subscription links to.

This project models that aggregation and proves what it promises.

- `records.dfy` (`Records`): the subscription and mandate records. Only the
  fields the aggregation reads are kept.
- `plans.dfy` (`Plans`): the `Counter`. It is a list of `(name, count)` pairs
  with distinct keys in first-insertion order. It is built one subscription at
  a time, the way `Counter` builds it.
- `members.dfy` (`Members`): the list of mandate links and the set of
  referenced customers.
- `metrics.dfy` (`Metrics`): a gauge metric family as a class whose sample
  list `add_metric` appends to.
- `collector.dfy` (`Collector`): the collector class. Its `Collect` method
  builds the three families, running the per-plan loop as the source does, and
  returns them in yield order. Lemmas state the properties of the samples.

What the provider returns is a parameter of `Collect`. It is the two lists
`subscriptions.all` and `mandates.all` produced. Because `Collect` depends on
nothing else, two scrapes over the same provider data give the same values.

The code and the design description of the system disagree in places. The
model follows the code:

- The design says that a failed fetch publishes no sample. The code has no
  failure handling, and every scrape adds a sample to all three families.
- The design mentions a pagination-limit warning. The code has none.
- With no subscriptions, the member count is 0 whatever mandates are listed
  (`Members.NoSubscriptionsNoMembers`).

## Model

| member | source | states |
|---|---|---|
| Plans.Bump | gocardless_membership_exporter/exporter.py:65 | Counting one more name: an existing key keeps its position and the list keeps its length; a new key is appended with count 1; all earlier keys stay where they were |
| Plans.BumpKeys | gocardless_membership_exporter/exporter.py:65 | After counting a name, the keys are the old keys, plus the name at the end if it was new; keys stay distinct |
| Plans.BumpLookup | gocardless_membership_exporter/exporter.py:65 | Counting a name raises that name's count by exactly one and leaves every other count as it was |
| Plans.BumpSum | gocardless_membership_exporter/exporter.py:65 | Counting a name raises the total of all counts by one |
| Plans.CountByName | gocardless_membership_exporter/exporter.py:65 | The counter has distinct keys. Its keys are exactly the plan names that occur. Each name's count is its number of occurrences among the subscriptions. The counts add up to the number of subscriptions |
| Plans.LookupAt | gocardless_membership_exporter/exporter.py:65 | In a counter with distinct keys, the count at each position is the count stored under that position's key |
| Plans.CountByNameItem | gocardless_membership_exporter/exporter.py:65 | Every item of `items()` names a plan that occurs. Its count is that plan's number of subscriptions, which is at least 1 |
| Plans.CountByNameCovers | gocardless_membership_exporter/exporter.py:65 | Every plan name that occurs has an item carrying its number of occurrences, and no two items share a name |
| Plans.CountByNameAbsent | gocardless_membership_exporter/exporter.py:65 | A name that no subscription has produces no item |
| Members.MandateIds | gocardless_membership_exporter/exporter.py:69 | The mandate list is as long as the subscription list, and position i holds subscription i's mandate link |
| Members.ReferencedCustomers | gocardless_membership_exporter/exporter.py:82 | A customer is in the set exactly when some listed mandate of theirs has an id among the links. The set is no larger than the mandate list |
| Members.MemberCount | gocardless_membership_exporter/exporter.py:82 | The member count never exceeds the number of mandates |
| Members.MemberCountPermutation | gocardless_membership_exporter/exporter.py:82 | Permuting the mandate list leaves the referenced customers and the member count unchanged |
| Members.UnreferencedMandateIgnored | gocardless_membership_exporter/exporter.py:82 | Inserting, at any position, a mandate whose id no subscription links to leaves the member count unchanged |
| Members.DuplicateCustomerCountedOnce | gocardless_membership_exporter/exporter.py:82 | One more mandate of a customer who is already a member leaves the count unchanged |
| Members.NewCustomerCounted | gocardless_membership_exporter/exporter.py:82 | A referenced mandate of a customer who is not yet a member raises the count by exactly one |
| Members.NoSubscriptionsNoMembers | gocardless_membership_exporter/exporter.py:69-82 | With no subscriptions the member count is 0, whatever the mandate list holds |
| Members.MembersAtMostSubscriptions | gocardless_membership_exporter/exporter.py:69-82 | If no two listed mandates share an id, there are at most as many members as subscriptions |
| Members.AtMostOnePerId | gocardless_membership_exporter/exporter.py:82 | If no two listed mandates share an id, the number of referenced customers is at most the number of links |
| Metrics.GaugeMetricFamily.constructor | gocardless_membership_exporter/exporter.py:34-45 | A new family has the given name, help text and label names, and no samples |
| Metrics.GaugeMetricFamily.AddMetric | gocardless_membership_exporter/exporter.py:66 | Adding a metric appends exactly one sample with the given label values and value, and changes nothing else |
| Collector.PlanSamplesSum | gocardless_membership_exporter/exporter.py:65-66 | The per-plan sample values add up to the counter's total |
| Collector.PlanSamplesTotal | gocardless_membership_exporter/exporter.py:62-66 | The per-plan sample values add up to the number of subscriptions, which is the value of the total sample |
| Collector.PlanSamplesExact | gocardless_membership_exporter/exporter.py:65-66 | Each plan name that occurs labels exactly one per-plan sample, and its value is the plan's subscription count. A name that does not occur labels none. No sample has value 0 |
| Collector.ExamplePlanCounts | gocardless_membership_exporter/exporter.py:65 | Two gold subscriptions and one silver subscription count as gold 2, then silver 1, in first-appearance order |
| Collector.ExampleMemberCount | gocardless_membership_exporter/exporter.py:69-82 | Three referenced mandates belonging to two customers count as two members |
| Collector.GoCardlessMembershipCollector.constructor | gocardless_membership_exporter/exporter.py:26-28 | The collector keeps the environment and the token it is given |
| Collector.GoCardlessMembershipCollector.Collect | gocardless_membership_exporter/exporter.py:33-90 | It returns exactly three fresh families, in yield order: members, subscriptions total, subscriptions by plan. They carry the source's names, help texts and labels. Members has one unlabelled sample with the member count. The total has one unlabelled sample with the number of subscriptions. The per-plan family has one sample per counter item, in `items()` order, and its values add up to the total |

## Left out

- Building the `gocardless_pro` client and calling `subscriptions.all` and `mandates.all` (exporter.py:48-59, 74-79) is a network library. Their results are parameters of `Collect`. The `"limit": "500"` and `"status": "active"` filters are only passed on to it.
- Failures of those calls are not modelled. The code does not handle them: an exception would simply leave `collect` before it yields.
- The `Summary` timing decorator and the `Info` version metric (exporter.py:19-24, 30, 32) are metrics-library instrumentation.
- Registering with the registry, `start_http_server`, and `main`'s sleep loop and exit (exporter.py:93-113) are process lifetime and I/O.
- `config.py` loads the environment and the token from process settings. It has no logic of its own.
- Samples keep only the label values and the value. The library also records the metric name and an optional timestamp, pairs the label names with the values, and stores the value as a float. Every value the collector adds is a count, so it is a natural number here.
- A plan name is a string here. The provider may return no name, and `Counter` would then count `None` as a key of its own. That case is not modelled.
