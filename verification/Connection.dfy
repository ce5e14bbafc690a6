/** The one transaction owner: nested scopes join the outermost, which alone commits or rolls back. */
module Connections {

  type Table = map<int, int>

  /** What a task does inside a transaction scope. */
  datatype Work =
    | Put(row: int, value: int)
    | Fail
    /** A writer called from within another: its own `async with transaction()`. */
    | Scope(body: seq<Work>)
    /** Work whose failure the caller swallows. */
    | Suppressed(body: seq<Work>)

  /** The table after the work, and whether an exception left it. */
  function Meaning(work: seq<Work>, t: Table): (Table, bool)
    decreases work
  {
    if work == [] then (t, false)
    else
      var (after, raised) := MeaningOfOne(work[0], t);
      if raised then (after, true) else Meaning(work[1..], after)
  }

  function MeaningOfOne(w: Work, t: Table): (Table, bool)
    decreases w
  {
    match w
    case Put(row, value) => (t[row := value], false)
    case Fail => (t, true)
    case Scope(body) => Meaning(body, t)
    case Suppressed(body) => (Meaning(body, t).0, false)
  }

  /** A nested scope adds nothing: its work might as well stand in the outer one. */
  lemma {:induction false} NestingIsErased(before: seq<Work>, body: seq<Work>, rest: seq<Work>, t: Table)
    ensures Meaning(before + [Scope(body)] + rest, t) == Meaning(before + body + rest, t)
    decreases |before|
  {
    if before == [] {
      Sequenced(body, rest, t);
      assert ([Scope(body)] + rest)[1..] == rest;
      assert before + [Scope(body)] + rest == [Scope(body)] + rest && before + body + rest == body + rest;
    } else {
      var (after, raised) := MeaningOfOne(before[0], t);
      assert (before + [Scope(body)] + rest)[1..] == before[1..] + [Scope(body)] + rest;
      assert (before + body + rest)[1..] == before[1..] + body + rest;
      NestingIsErased(before[1..], body, rest, after);
    }
  }

  lemma {:induction false} Sequenced(a: seq<Work>, b: seq<Work>, t: Table)
    ensures Meaning(a + b, t) ==
              var (after, raised) := Meaning(a, t); if raised then (after, true) else Meaning(b, after)
    decreases |a|
  {
    if a == [] {
      assert a + b == b;
    } else {
      assert (a + b)[1..] == a[1..] + b;
      Sequenced(a[1..], b, MeaningOfOne(a[0], t).0);
    }
  }

  class Connection {
    /** What a crash would leave. */
    var durable: Table
    /** What the open transaction sees. */
    var working: Table
    var depth: nat

    ghost predicate Valid()
      reads this
    {
      depth <= 1 && (depth == 0 ==> working == durable)
    }

    constructor ()
      ensures Valid() && durable == map[] && depth == 0
    {
      durable, working, depth := map[], map[], 0;
    }

    /** All or nothing, at the outermost exit and not before; a nested scope leaves both to it. */
    method Transaction(work: seq<Work>) returns (raised: bool)
      requires Valid()
      modifies this
      ensures Valid() && depth == old(depth)
      ensures (working, raised) == (if old(depth) == 0 && raised then old(working) else Meaning(work, old(working)).0,
                                    Meaning(work, old(working)).1)
      ensures durable == if old(depth) == 0 then working else old(durable)
      decreases work, 1
    {
      if depth > 0 {
        raised := Run(work);
        return;
      }
      depth := 1;
      raised := Run(work);
      if raised {
        working := durable;
      } else {
        durable := working;
      }
      depth := 0;
    }

    /** Nothing is durable while the work is going on. */
    method Run(work: seq<Work>) returns (raised: bool)
      requires Valid() && depth > 0
      modifies this
      ensures Valid() && depth == old(depth) && durable == old(durable)
      ensures (working, raised) == Meaning(work, old(working))
      decreases work, 0
    {
      raised := false;
      var i := 0;
      while i < |work| && !raised
        invariant 0 <= i <= |work| && Valid() && depth == old(depth) && durable == old(durable)
        invariant Meaning(work, old(working)) == if raised then (working, true) else Meaning(work[i..], working)
        decreases |work| - i, !raised
      {
        match work[i] {
          case Put(row, value) => working := working[row := value];
          case Fail => raised := true;
          case Scope(body) => raised := Transaction(body);
          case Suppressed(body) => var ignored := Transaction(body);
        }
        i := i + 1;
      }
    }
  }

  /** A failure swallowed inside does not undo what the failed scope wrote: the outer exit commits it. */
  lemma SwallowedFailureKeepsWrites(row: int, value: int, t: Table)
    ensures Meaning([Suppressed([Put(row, value), Fail])], t) == (t[row := value], false)
  {
    var inner := [Put(row, value), Fail];
    assert inner[1..] == [Fail];
    assert Meaning([Fail], t[row := value]) == (t[row := value], true);
    assert Meaning(inner, t) == (t[row := value], true);
  }
}
