/** Per-plan subscription counts: `Counter(x.name for x in subscription_data)`.

    A Python `Counter` is a dictionary whose keys keep the order in which they
    were first inserted; its `items()` therefore lists every distinct plan name
    once, in order of first appearance, with the number of times it occurs.
    It is modelled here as a list of `(name, count)` pairs with distinct keys,
    built one element at a time as `Counter` itself builds it. */
module Plans {
  import opened Records

  type Counts = seq<(string, nat)>

  /** The plan names of the subscriptions, in order: the generator
      `x.name for x in subscription_data`. */
  function Names(subs: seq<Subscription>): seq<string>
  {
    seq(|subs|, i requires 0 <= i < |subs| => subs[i].name)
  }

  /** The keys of a counter, in order. */
  function Keys(c: Counts): seq<string>
  {
    seq(|c|, i requires 0 <= i < |c| => c[i].0)
  }

  /** No key occurs twice. */
  predicate KeysDistinct(c: Counts)
  {
    forall i, j :: 0 <= i < j < |c| ==> c[i].0 != c[j].0
  }

  /** `counter[name]`: the count stored under `name`, 0 when it is absent. */
  function Lookup(c: Counts, name: string): nat
  {
    if c == [] then 0
    else if c[0].0 == name then c[0].1
    else Lookup(c[1..], name)
  }

  /** The sum of all counts. */
  function Sum(c: Counts): nat
  {
    if c == [] then 0 else c[0].1 + Sum(c[1..])
  }

  /** `counter[name] = counter.get(name, 0) + 1`: an existing key keeps its
      place (and, by BumpLookup, has its count raised by one); a new key is
      appended with count 1. */
  function Bump(c: Counts, name: string): (r: Counts)
    ensures name in Keys(c) ==> |r| == |c|
    ensures name !in Keys(c) ==> r == c + [(name, 1)]
    ensures forall i :: 0 <= i < |c| ==> r[i].0 == c[i].0
  {
    if c == [] then [(name, 1)]
    else if c[0].0 == name then
      assert Keys(c)[0] == name;
      [(name, c[0].1 + 1)] + c[1..]
    else
      assert Keys(c) == [c[0].0] + Keys(c[1..]);
      [c[0]] + Bump(c[1..], name)
  }

  /** Bumping a key leaves the other keys where they were and adds `name`
      once: a counter never holds the same key twice. */
  lemma BumpKeys(c: Counts, name: string)
    ensures name in Keys(c) ==> Keys(Bump(c, name)) == Keys(c)
    ensures name !in Keys(c) ==> Keys(Bump(c, name)) == Keys(c) + [name]
    ensures KeysDistinct(c) ==> KeysDistinct(Bump(c, name))
  {
  }

  /** Bumping `name` raises its count by one and no other count. */
  lemma {:induction false} BumpLookup(c: Counts, name: string, x: string)
    ensures Lookup(Bump(c, name), x) == Lookup(c, x) + (if x == name then 1 else 0)
  {
    if c != [] && c[0].0 != name {
      BumpLookup(c[1..], name, x);
      assert Bump(c, name)[1..] == Bump(c[1..], name);
    }
  }

  /** Bumping adds one to the sum of all counts. */
  lemma {:induction false} BumpSum(c: Counts, name: string)
    ensures Sum(Bump(c, name)) == Sum(c) + 1
  {
    if c != [] && c[0].0 != name {
      BumpSum(c[1..], name);
      assert Bump(c, name)[1..] == Bump(c[1..], name);
    }
  }

  /** `Counter(x.name for x in subs)`: the subscriptions are counted from the
      first to the last. The result has one entry per distinct plan name,
      counting exactly the subscriptions on that plan, and the counts add up
      to the number of subscriptions. */
  function CountByName(subs: seq<Subscription>): (r: Counts)
    ensures KeysDistinct(r)
    ensures forall x :: x in Keys(r) <==> x in Names(subs)
    ensures forall x :: Lookup(r, x) == multiset(Names(subs))[x]
    ensures Sum(r) == |subs|
  {
    if subs == [] then []
    else
      var init := subs[..|subs| - 1];
      var last := subs[|subs| - 1].name;
      assert Names(subs) == Names(init) + [last];
      var c := CountByName(init);
      BumpKeys(c, last);
      BumpSum(c, last);
      assert forall x :: Lookup(Bump(c, last), x) == multiset(Names(subs))[x] by {
        forall x ensures Lookup(Bump(c, last), x) == multiset(Names(subs))[x] {
          BumpLookup(c, last, x);
        }
      }
      Bump(c, last)
  }

  /** In a counter without repeated keys, the count at position `k` is the
      one stored under its key. */
  lemma {:induction false} LookupAt(c: Counts, k: nat)
    requires KeysDistinct(c) && k < |c|
    ensures Lookup(c, c[k].0) == c[k].1
  {
    if k > 0 {
      assert c[0].0 != c[k].0;
      assert c[1..][k - 1] == c[k];
      LookupAt(c[1..], k - 1);
    }
  }

  /** Every item of `Counter(...).items()` names a plan that occurs among the
      subscriptions and carries the number of subscriptions on that plan; in
      particular no item carries 0. */
  lemma CountByNameItem(subs: seq<Subscription>, k: nat)
    requires k < |CountByName(subs)|
    ensures CountByName(subs)[k].0 in Names(subs)
    ensures CountByName(subs)[k].1 == multiset(Names(subs))[CountByName(subs)[k].0]
    ensures CountByName(subs)[k].1 >= 1
  {
    var r := CountByName(subs);
    assert Keys(r)[k] == r[k].0;
    LookupAt(r, k);
  }

  /** Every plan name that occurs among the subscriptions has an item, and the
      item is the only one with that name. */
  lemma CountByNameCovers(subs: seq<Subscription>, x: string)
    requires x in Names(subs)
    ensures exists k :: 0 <= k < |CountByName(subs)| && CountByName(subs)[k] == (x, multiset(Names(subs))[x])
    ensures forall j, k :: 0 <= j < k < |CountByName(subs)| ==> CountByName(subs)[j].0 != CountByName(subs)[k].0
  {
    var r := CountByName(subs);
    var k :| 0 <= k < |Keys(r)| && Keys(r)[k] == x;
    CountByNameItem(subs, k);
  }

  /** A name that occurs in no subscription produces no item. */
  lemma CountByNameAbsent(subs: seq<Subscription>, x: string)
    requires x !in Names(subs)
    ensures forall k :: 0 <= k < |CountByName(subs)| ==> CountByName(subs)[k].0 != x
  {
    var r := CountByName(subs);
    forall k | 0 <= k < |r| ensures r[k].0 != x {
      assert Keys(r)[k] == r[k].0;
    }
  }
}
