/** The member count: the number of distinct customers among the mandates that
    back at least one of this scrape's subscriptions. */
module Members {
  import opened Records

  /** `[x.links.mandate for x in subscription_data]`: the mandate link of each
      subscription, position by position. */
  function MandateIds(subs: seq<Subscription>): (ids: seq<string>)
    ensures |ids| == |subs|
    ensures forall i :: 0 <= i < |subs| ==> ids[i] == subs[i].mandate
  {
    if subs == [] then [] else [subs[0].mandate] + MandateIds(subs[1..])
  }

  /** `set([m.links.customer for m in mandates if m.id in ids])`: a customer
      is in the set exactly when some mandate listed for it has a referenced
      id, and the set is never larger than the mandate list. */
  function ReferencedCustomers(mandates: seq<Mandate>, ids: seq<string>): (r: set<string>)
    ensures forall c :: c in r <==> exists m :: m in mandates && m.id in ids && m.customer == c
    ensures |r| <= |mandates|
  {
    if mandates == [] then {}
    else
      var m := mandates[0];
      var rest := ReferencedCustomers(mandates[1..], ids);
      assert forall x :: x in mandates <==> x == m || x in mandates[1..];
      if m.id in ids then {m.customer} + rest else rest
  }

  /** `members_count`. */
  function MemberCount(mandates: seq<Mandate>, ids: seq<string>): (n: nat)
    ensures n <= |mandates|
  {
    |ReferencedCustomers(mandates, ids)|
  }

  /** Only which mandates are listed matters, not their order or repetition:
      permuting the mandate list leaves the member count unchanged. */
  lemma MemberCountPermutation(mandates: seq<Mandate>, shuffled: seq<Mandate>, ids: seq<string>)
    requires multiset(mandates) == multiset(shuffled)
    ensures ReferencedCustomers(mandates, ids) == ReferencedCustomers(shuffled, ids)
    ensures MemberCount(mandates, ids) == MemberCount(shuffled, ids)
  {
    forall m ensures m in mandates <==> m in shuffled {
      assert m in mandates <==> m in multiset(mandates);
      assert m in shuffled <==> m in multiset(shuffled);
    }
  }

  /** A mandate that no subscription links to is filtered out: inserting it
      anywhere in the mandate list leaves the member count unchanged. */
  lemma UnreferencedMandateIgnored(mandates: seq<Mandate>, k: nat, m: Mandate, ids: seq<string>)
    requires k <= |mandates| && m.id !in ids
    ensures MemberCount(mandates[..k] + [m] + mandates[k..], ids) == MemberCount(mandates, ids)
  {
    var longer := mandates[..k] + [m] + mandates[k..];
    assert forall x :: x in longer <==> x == m || x in mandates by {
      assert mandates == mandates[..k] + mandates[k..];
    }
    assert ReferencedCustomers(longer, ids) == ReferencedCustomers(mandates, ids);
  }

  /** A customer is counted once however many referenced mandates it holds:
      one more referenced mandate of an existing member changes nothing. */
  lemma DuplicateCustomerCountedOnce(mandates: seq<Mandate>, m: Mandate, ids: seq<string>)
    requires m.customer in ReferencedCustomers(mandates, ids)
    ensures MemberCount(mandates + [m], ids) == MemberCount(mandates, ids)
  {
    assert forall x :: x in mandates + [m] <==> x == m || x in mandates;
    assert ReferencedCustomers(mandates + [m], ids) == ReferencedCustomers(mandates, ids);
  }

  /** A referenced mandate of a customer not yet counted adds one member. */
  lemma NewCustomerCounted(mandates: seq<Mandate>, m: Mandate, ids: seq<string>)
    requires m.id in ids && m.customer !in ReferencedCustomers(mandates, ids)
    ensures MemberCount(mandates + [m], ids) == MemberCount(mandates, ids) + 1
  {
    assert forall x :: x in mandates + [m] <==> x == m || x in mandates;
    assert ReferencedCustomers(mandates + [m], ids) == ReferencedCustomers(mandates, ids) + {m.customer};
  }

  /** With no subscriptions no mandate is referenced, so there are no members
      (whatever the mandates list holds). */
  lemma NoSubscriptionsNoMembers(mandates: seq<Mandate>)
    ensures MemberCount(mandates, MandateIds([])) == 0
  {
  }

  /** No two listed mandates share an id. */
  predicate MandateIdsUnique(mandates: seq<Mandate>)
  {
    forall i, j :: 0 <= i < j < |mandates| ==> mandates[i].id != mandates[j].id
  }

  /** When the provider lists each mandate once, there are never more members
      than subscriptions: each subscription's link names at most one mandate,
      hence at most one customer. */
  lemma {:induction false} MembersAtMostSubscriptions(mandates: seq<Mandate>, subs: seq<Subscription>)
    requires MandateIdsUnique(mandates)
    ensures MemberCount(mandates, MandateIds(subs)) <= |subs|
  {
    AtMostOnePerId(mandates, MandateIds(subs));
  }

  lemma {:induction false} AtMostOnePerId(mandates: seq<Mandate>, ids: seq<string>)
    requires MandateIdsUnique(mandates)
    ensures |ReferencedCustomers(mandates, ids)| <= |ids|
  {
    if ids != [] {
      var init, last := ids[..|ids| - 1], ids[|ids| - 1];
      assert forall x :: x in ids <==> x in init || x == last;
      AtMostOnePerId(mandates, init);
      var before := ReferencedCustomers(mandates, init);
      var after := ReferencedCustomers(mandates, ids);
      if i :| 0 <= i < |mandates| && mandates[i].id == last {
        assert after <= before + {mandates[i].customer} by {
          forall c | c in after ensures c in before + {mandates[i].customer} {
            var m :| m in mandates && m.id in ids && m.customer == c;
            if m.id == last {
              var j :| 0 <= j < |mandates| && mandates[j] == m;
              assert i == j;
            }
          }
        }
        assert |before + {mandates[i].customer}| <= |before| + 1;
        SubsetCard(after, before + {mandates[i].customer});
      } else {
        assert after <= before by {
          forall c | c in after ensures c in before {
            var m :| m in mandates && m.id in ids && m.customer == c;
            var j :| 0 <= j < |mandates| && mandates[j] == m;
          }
        }
        SubsetCard(after, before);
      }
    }
  }

  lemma SubsetCard(a: set<string>, b: set<string>)
    requires a <= b
    ensures |a| <= |b|
  {
    assert b == a + (b - a);
  }
}
