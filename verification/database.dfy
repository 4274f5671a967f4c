/** The one SQLite file, shared by every call: each call's statements commit one at a time, and
    other connections' statements may land between any two of them. */
module Connections {
  import opened Tables

  /** Whether the statement at one place of a journal did its work when it ran. */
  ghost predicate Won(start: Store, journal: seq<Statement>, at: nat)
    requires at < |journal|
  {
    Commit(Run(start, journal[..at]), journal[at]).1 == Hit
  }

  lemma {:induction false} RunSplits(s: Store, first: seq<Statement>, second: seq<Statement>)
    ensures Run(s, first + second) == Run(Run(s, first), second)
    decreases |first|
  {
    if first == [] {
      assert first + second == second;
    } else {
      assert (first + second)[1..] == first[1..] + second;
      RunSplits(Commit(s, first[0]).0, first[1..], second);
    }
  }

  /** The tables just after one statement, and the rest of the journal run from there. */
  lemma RunFrom(s: Store, journal: seq<Statement>, at: nat, till: nat)
    requires at < till <= |journal|
    ensures Run(s, journal[..till]) == Run(Commit(Run(s, journal[..at]), journal[at]).0, journal[at + 1..till])
  {
    assert journal[..till] == journal[..at + 1] + journal[at + 1..till];
    assert journal[..at + 1] == journal[..at] + [journal[at]];
    RunSplits(s, journal[..at + 1], journal[at + 1..till]);
    RunExtends(s, journal[..at], journal[at]);
  }

  class Database {
    var store: Store
    ghost const start: Store
    ghost var journal: seq<Statement>

    ghost predicate Valid()
      reads this
    {
      Sound(start) && store == Run(start, journal)
    }

    constructor (initial: Store)
      requires Sound(initial)
      ensures Valid() && store == initial && start == initial && journal == []
    {
      store, start, journal := initial, initial, [];
    }

    /** One statement of the calling connection. */
    method Do(st: Statement) returns (answer: Answer)
      requires Valid()
      modifies this
      ensures Valid() && journal == old(journal) + [st]
      ensures (store, answer) == Commit(old(store), st)
    {
      RunExtends(start, journal, st);
      var (next, reply) := Commit(store, st);
      store, answer := next, reply;
      journal := journal + [st];
    }

    /** Whatever other connections commit before this one's next statement. */
    method Others(run: seq<Statement>)
      requires Valid()
      modifies this
      ensures Valid() && journal == old(journal) + run && store == Run(old(store), run)
    {
      for i := 0 to |run|
        invariant Valid() && journal == old(journal) + run[..i] && store == Run(old(store), run[..i])
      {
        RunExtends(old(store), run[..i], run[i]);
        assert run[..i + 1] == run[..i] + [run[i]];
        var _ := Do(run[i]);
      }
      assert run[..|run|] == run;
    }
  }
}
