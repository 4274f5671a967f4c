/** `_diff`: which running screens a push leaves alone. */
module Diffing {
  import opened Wrappers
  import opened Racks

  /** Whether a running screen and a pushed one are the same to the worker that draws it. */
  predicate Unchanged(running: Screen, pushed: Screen, runningNight: Night, pushedNight: Night) {
    && running.config == pushed.config && running.scenes == pushed.scenes
    && running.params == pushed.params && running.dependsOn == pushed.dependsOn
    && (if running.config.sleepOverride.Some? then running.config.sleepOverride.value else runningNight)
       == (if pushed.config.sleepOverride.Some? then pushed.config.sleepOverride.value else pushedNight)
  }

  function Keys(screens: seq<Screen>, night: Night): seq<Key> {
    seq(|screens|, i requires 0 <= i < |screens| => KeyOf(screens[i], night))
  }

  /** One pushed screen matched to one running one. */
  datatype Pair = Pair(slot: nat, place: nat)

  ghost predicate Pairs(pairs: seq<Pair>, running: seq<Key>, pushed: seq<Key>) {
    && (forall i | 0 <= i < |pairs| ::
          pairs[i].slot < |running| && pairs[i].place < |pushed| && running[pairs[i].slot] == pushed[pairs[i].place])
    && (forall i, j | 0 <= i < j < |pairs| :: pairs[i].slot != pairs[j].slot && pairs[i].place != pairs[j].place)
  }

  predicate Within(at: seq<nat>, n: nat) {
    forall i | 0 <= i < |at| :: at[i] < n
  }

  predicate Distinct(at: seq<nat>) {
    forall i, j | 0 <= i < j < |at| :: at[i] != at[j]
  }

  function KeysAt(keys: seq<Key>, at: seq<nat>): seq<Key>
    requires Within(at, |keys|)
  {
    seq(|at|, k requires 0 <= k < |at| => keys[at[k]])
  }

  function SlotsOf(pairs: seq<Pair>): seq<nat> {
    seq(|pairs|, i requires 0 <= i < |pairs| => pairs[i].slot)
  }

  function PlacesOf(pairs: seq<Pair>): seq<nat> {
    seq(|pairs|, i requires 0 <= i < |pairs| => pairs[i].place)
  }

  function Indices(n: nat): seq<nat> {
    seq(n, i => i)
  }

  /** The first unclaimed slot whose screen is unchanged. */
  method FirstMatch(unclaimed: seq<nat>, running: seq<Screen>, screen: Screen, runningNight: Night, pushedNight: Night)
    returns (found: Option<nat>)
    requires Within(unclaimed, |running|)
    ensures found.Some? ==>
              && found.value < |unclaimed|
              && Keys(running, runningNight)[unclaimed[found.value]] == KeyOf(screen, pushedNight)
    ensures found.None? ==> KeyOf(screen, pushedNight) !in KeysAt(Keys(running, runningNight), unclaimed)
  {
    ghost var key := KeyOf(screen, pushedNight);
    for k := 0 to |unclaimed|
      invariant forall i | 0 <= i < k :: KeyOf(running[unclaimed[i]], runningNight) != key
    {
      if Unchanged(running[unclaimed[k]], screen, runningNight, pushedNight) {
        return Some(k);
      }
    }
    found := None;
  }

  /** No slot is both kept and retired, and no place both kept and added. */
  ghost predicate Separate(kept: seq<Pair>, added: seq<nat>, retired: seq<nat>, slots: nat, places: nat) {
    && Within(retired, slots) && Distinct(retired) && Within(added, places)
    && (forall i, j | 0 <= i < j < |added| :: added[i] < added[j])
    && (forall i | 0 <= i < |kept| :: kept[i].slot !in retired && kept[i].place !in added)
  }

  /** How far a match has got: the first `n` pushed screens are either paired with a slot or
      added, and what the unclaimed slots hold is what the push has not asked for yet. */
  ghost predicate Matched(kept: seq<Pair>, added: seq<nat>, left: seq<nat>, running: seq<Key>, pushed: seq<Key>, n: nat)
    requires n <= |pushed|
  {
    Paired(kept, left, running, pushed, n) && Shared(kept, added, left, running, n) && Left(left, running, pushed[..n])
    && |kept| + |left| == |running|
    && (forall i, j | 0 <= i < j < |added| :: added[i] < added[j]) && Within(added, n)
    && (forall i | 0 <= i < |kept| :: kept[i].place !in added)
  }

  ghost predicate Paired(kept: seq<Pair>, left: seq<nat>, running: seq<Key>, pushed: seq<Key>, n: nat) {
    Pairs(kept, running, pushed) && forall i | 0 <= i < |kept| :: kept[i].place < n && kept[i].slot !in left
  }

  ghost predicate Shared(kept: seq<Pair>, added: seq<nat>, left: seq<nat>, running: seq<Key>, n: nat) {
    && multiset(SlotsOf(kept)) + multiset(left) == multiset(Indices(|running|))
    && multiset(PlacesOf(kept)) + multiset(added) == multiset(Indices(n))
  }

  ghost predicate Left(left: seq<nat>, running: seq<Key>, asked: seq<Key>) {
    && Within(left, |running|) && Distinct(left)
    && multiset(KeysAt(running, left)) == multiset(running) - multiset(asked)
  }

  /** The greedy match. Kept and retired partition the slots, kept and added partition the push,
      in the push's order, and as many are kept as the two multisets of worker-visible
      configurations have in common. */
  method Diff(running: seq<Screen>, pushed: seq<Screen>, runningNight: Night, pushedNight: Night)
    returns (kept: seq<Pair>, added: seq<nat>, retired: seq<nat>)
    ensures Pairs(kept, Keys(running, runningNight), Keys(pushed, pushedNight))
    ensures multiset(SlotsOf(kept)) + multiset(retired) == multiset(Indices(|running|))
    ensures multiset(PlacesOf(kept)) + multiset(added) == multiset(Indices(|pushed|))
    ensures |kept| == |multiset(Keys(running, runningNight)) * multiset(Keys(pushed, pushedNight))|
    ensures Separate(kept, added, retired, |running|, |pushed|)
  {
    hide Matched;
    ghost var keys, wanted := Keys(running, runningNight), Keys(pushed, pushedNight);
    kept, added, retired := [], [], Indices(|running|);
    NothingMatched(keys, wanted);
    for i := 0 to |pushed|
      invariant Matched(kept, added, retired, keys, wanted, i)
    {
      LeftIsWithin(kept, added, retired, keys, wanted, i);
      var found := FirstMatch(retired, running, pushed[i], runningNight, pushedNight);
      if found.None? {
        AddOne(kept, added, retired, keys, wanted, i);
        added := added + [i];
      } else {
        KeepOne(kept, added, retired, keys, wanted, i, found.value);
        kept := kept + [Pair(retired[found.value], i)];
        retired := retired[..found.value] + retired[found.value + 1..];
      }
    }
    AllMatched(kept, added, retired, keys, wanted);
  }

  lemma NothingMatched(running: seq<Key>, pushed: seq<Key>)
    ensures Matched([], [], Indices(|running|), running, pushed, 0)
  {
    assert KeysAt(running, Indices(|running|)) == running;
    assert Indices(0) == [] && pushed[..0] == [] && SlotsOf([]) == [] && PlacesOf([]) == [];
  }

  lemma LeftIsWithin(kept: seq<Pair>, added: seq<nat>, left: seq<nat>, running: seq<Key>, pushed: seq<Key>, n: nat)
    requires n <= |pushed| && Matched(kept, added, left, running, pushed, n)
    ensures Within(left, |running|)
  {
  }

  lemma AddOne(kept: seq<Pair>, added: seq<nat>, left: seq<nat>, running: seq<Key>, pushed: seq<Key>, n: nat)
    requires n < |pushed| && Matched(kept, added, left, running, pushed, n)
    requires Within(left, |running|) && pushed[n] !in KeysAt(running, left)
    ensures Matched(kept, added + [n], left, running, pushed, n + 1)
  {
    assert Paired(kept, left, running, pushed, n + 1);
    assert pushed[..n + 1] == pushed[..n] + [pushed[n]];
    hide Paired;
    LeftAsItWas(left, running, pushed[..n], pushed[n]);
    hide Left;
    assert Indices(n + 1) == Indices(n) + [n];
    assert Shared(kept, added + [n], left, running, n + 1);
  }

  lemma LeftAsItWas(left: seq<nat>, running: seq<Key>, asked: seq<Key>, key: Key)
    requires Left(left, running, asked) && key !in KeysAt(running, left)
    ensures Left(left, running, asked + [key])
  {
  }

  lemma KeepOne(kept: seq<Pair>, added: seq<nat>, left: seq<nat>, running: seq<Key>, pushed: seq<Key>, n: nat, at: nat)
    requires n < |pushed| && Matched(kept, added, left, running, pushed, n)
    requires Within(left, |running|) && at < |left| && running[left[at]] == pushed[n]
    ensures Matched(kept + [Pair(left[at], n)], added, left[..at] + left[at + 1..], running, pushed, n + 1)
  {
    hide Paired, Shared;
    var pair, rest := Pair(left[at], n), left[..at] + left[at + 1..];
    TakeOut(running, left, at);
    assert pushed[..n + 1] == pushed[..n] + [pushed[n]];
    PairOne(kept, left, rest, running, pushed, n, pair);
    ShareOne(kept, added, left, rest, running, n, pair);
    OneLess(multiset(KeysAt(running, rest)), multiset(running), multiset(pushed[..n]), pushed[n]);
    assert Left(rest, running, pushed[..n + 1]);
    hide Left, Distinct;
  }

  lemma OneLess(rest: multiset<Key>, all: multiset<Key>, asked: multiset<Key>, key: Key)
    requires rest + multiset{key} == all - asked
    ensures rest == all - (asked + multiset{key})
  {
    assert forall k | k != key :: rest[k] == (rest + multiset{key})[k];
    assert rest[key] + 1 == (rest + multiset{key})[key];
  }

  lemma PairOne(kept: seq<Pair>, left: seq<nat>, rest: seq<nat>, running: seq<Key>, pushed: seq<Key>, n: nat,
                pair: Pair)
    requires Paired(kept, left, running, pushed, n) && n < |pushed| && pair.slot < |running| && pair.place == n
    requires running[pair.slot] == pushed[n] && pair.slot in left && pair.slot !in rest
    requires forall s | s in rest :: s in left
    ensures Paired(kept + [pair], rest, running, pushed, n + 1)
  {
  }

  lemma ShareOne(kept: seq<Pair>, added: seq<nat>, left: seq<nat>, rest: seq<nat>, running: seq<Key>, n: nat,
                 pair: Pair)
    requires Shared(kept, added, left, running, n) && pair.place == n
    requires multiset(left) == multiset(rest) + multiset{pair.slot}
    ensures Shared(kept + [pair], added, rest, running, n + 1)
  {
    assert Indices(n + 1) == Indices(n) + [n];
    assert SlotsOf(kept + [pair]) == SlotsOf(kept) + [pair.slot];
    assert PlacesOf(kept + [pair]) == PlacesOf(kept) + [pair.place];
  }

  /** Taking one slot out takes its key out once. */
  lemma TakeOut(keys: seq<Key>, left: seq<nat>, at: nat)
    requires at < |left| && Within(left, |keys|) && Distinct(left)
    ensures var rest := left[..at] + left[at + 1..];
            && Within(rest, |keys|) && Distinct(rest) && left[at] !in rest && (forall s | s in rest :: s in left)
            && multiset(left) == multiset(rest) + multiset{left[at]}
            && multiset(KeysAt(keys, left)) == multiset(KeysAt(keys, rest)) + multiset{keys[left[at]]}
  {
    var rest := left[..at] + left[at + 1..];
    assert left == left[..at] + [left[at]] + left[at + 1..];
    var before, after := KeysAt(keys, left[..at]), KeysAt(keys, left[at + 1..]);
    assert KeysAt(keys, left) == before + [keys[left[at]]] + after;
    assert KeysAt(keys, rest) == before + after;
  }

  lemma AllMatched(kept: seq<Pair>, added: seq<nat>, left: seq<nat>, running: seq<Key>, pushed: seq<Key>)
    requires Matched(kept, added, left, running, pushed, |pushed|)
    ensures Pairs(kept, running, pushed)
    ensures multiset(SlotsOf(kept)) + multiset(left) == multiset(Indices(|running|))
    ensures multiset(PlacesOf(kept)) + multiset(added) == multiset(Indices(|pushed|))
    ensures |kept| == |multiset(running) * multiset(pushed)|
    ensures Separate(kept, added, left, |running|, |pushed|)
  {
    assert pushed[..|pushed|] == pushed;
    Split(multiset(running), multiset(pushed));
    assert |multiset(KeysAt(running, left))| == |left|;
  }

  lemma Split(a: multiset<Key>, b: multiset<Key>)
    ensures |a| == |a * b| + |a - b|
  {
  }

  // ---------------------------------------------------------------- no matching keeps more

  function Used(at: seq<nat>): set<nat> {
    set i | i in at
  }

  /** How often a key stands at one of these positions, among the first `n`. */
  ghost function Count(keys: seq<Key>, at: set<nat>, n: nat, key: Key): nat
    requires n <= |keys|
  {
    if n == 0 then 0 else Count(keys, at, n - 1, key) + if n - 1 in at && keys[n - 1] == key then 1 else 0
  }

  lemma {:induction false} CountIsPart(keys: seq<Key>, at: set<nat>, n: nat, key: Key)
    requires n <= |keys|
    ensures Count(keys, at, n, key) <= multiset(keys[..n])[key]
  {
    if n > 0 {
      CountIsPart(keys, at, n - 1, key);
      assert keys[..n] == keys[..n - 1] + [keys[n - 1]];
    }
  }

  lemma {:induction false} CountOneMore(keys: seq<Key>, at: set<nat>, one: nat, n: nat, key: Key)
    requires n <= |keys| && one !in at
    ensures Count(keys, at + {one}, n, key)
            == Count(keys, at, n, key) + if one < n && keys[one] == key then 1 else 0
  {
    if n > 0 {
      CountOneMore(keys, at, one, n - 1, key);
    }
  }

  lemma {:induction false} CountNothing(keys: seq<Key>, n: nat, key: Key)
    requires n <= |keys|
    ensures Count(keys, {}, n, key) == 0
  {
    if n > 0 {
      CountNothing(keys, n - 1, key);
    }
  }

  lemma {:induction false} DistinctPositions(keys: seq<Key>, at: seq<nat>, key: Key)
    requires Within(at, |keys|) && Distinct(at)
    ensures multiset(KeysAt(keys, at))[key] == Count(keys, Used(at), |keys|, key)
    decreases |at|
  {
    hide Count;
    if at == [] {
      assert Used(at) == {} && KeysAt(keys, at) == [];
      CountNothing(keys, |keys|, key);
    } else {
      var rest, last := at[..|at| - 1], at[|at| - 1];
      LastIsNew(at);
      DistinctPositions(keys, rest, key);
      CountOneMore(keys, Used(rest), last, |keys|, key);
      assert KeysAt(keys, at) == KeysAt(keys, rest) + [keys[last]];
    }
  }

  lemma LastIsNew(at: seq<nat>)
    requires at != [] && Distinct(at)
    ensures var rest, last := at[..|at| - 1], at[|at| - 1];
            && Distinct(rest) && last !in rest
            && Used(at) == Used(rest) + {last}
  {
  }

  /** The keys at distinct positions are some of the keys. */
  lemma SomeOfThem(keys: seq<Key>, at: seq<nat>)
    requires Within(at, |keys|) && Distinct(at)
    ensures multiset(KeysAt(keys, at)) <= multiset(keys)
  {
    forall key ensures multiset(KeysAt(keys, at))[key] <= multiset(keys)[key] {
      DistinctPositions(keys, at, key);
      CountIsPart(keys, Used(at), |keys|, key);
      assert keys[..|keys|] == keys;
    }
  }

  /** No way of pairing running screens with unchanged pushed ones keeps more of them than the
      greedy match does. */
  lemma NoMatchingKeepsMore(pairs: seq<Pair>, running: seq<Key>, pushed: seq<Key>)
    requires Pairs(pairs, running, pushed)
    ensures |pairs| <= |multiset(running) * multiset(pushed)|
  {
    var slots, places := SlotsOf(pairs), PlacesOf(pairs);
    SomeOfThem(running, slots);
    SomeOfThem(pushed, places);
    assert KeysAt(running, slots) == KeysAt(pushed, places);
    var common := multiset(KeysAt(running, slots));
    assert common <= multiset(running) * multiset(pushed);
    Smaller(common, multiset(running) * multiset(pushed));
  }

  lemma Smaller(a: multiset<Key>, b: multiset<Key>)
    requires a <= b
    ensures |a| <= |b|
  {
    assert b == a + (b - a);
  }
}
