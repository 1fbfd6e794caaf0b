/** Counting the agents of a protocol that are in a given kind of place. */
module Agents {

  function Bit(b: bool): nat {
    if b then 1 else 0
  }

  ghost function Who<T>(agents: seq<T>, p: T -> bool): set<nat> {
    set a | 0 <= a < |agents| && p(agents[a])
  }

  /** How many agents satisfy `p`. */
  ghost function Count<T>(agents: seq<T>, p: T -> bool): nat {
    |Who(agents, p)|
  }

  /** Moving one agent changes the count by that agent alone. */
  lemma CountMove<T>(agents: seq<T>, a: nat, x: T, p: T -> bool)
    requires a < |agents|
    ensures Count(agents[a := x], p) + Bit(p(agents[a])) == Count(agents, p) + Bit(p(x))
  {
    var rest := Who(agents, p) - {a};
    assert Who(agents, p) == if p(agents[a]) then rest + {a} else rest;
    assert Who(agents[a := x], p) == if p(x) then rest + {a} else rest;
  }

  lemma SubsetSize(small: set<nat>, big: set<nat>)
    requires small <= big
    ensures |small| <= |big|
  {
    if small != {} {
      var x :| x in small;
      SubsetSize(small - {x}, big - {x});
    }
  }

  lemma CountOne<T>(agents: seq<T>, a: nat, p: T -> bool)
    requires a < |agents| && p(agents[a])
    ensures Count(agents, p) >= 1
  {
    SubsetSize({a}, Who(agents, p));
  }

  lemma CountTwo<T>(agents: seq<T>, a: nat, b: nat, p: T -> bool)
    requires a < |agents| && b < |agents| && a != b && p(agents[a]) && p(agents[b])
    ensures Count(agents, p) >= 2
  {
    SubsetSize({a, b}, Who(agents, p));
  }

  /** A positive count has a witness. */
  lemma CountSome<T>(agents: seq<T>, p: T -> bool) returns (a: nat)
    requires Count(agents, p) >= 1
    ensures a < |agents| && p(agents[a])
  {
    a :| a in Who(agents, p);
  }

  /** Nobody is in a place nobody starts in. */
  lemma CountZero<T>(agents: seq<T>, p: T -> bool)
    requires forall a :: 0 <= a < |agents| ==> !p(agents[a])
    ensures Count(agents, p) == 0
  {
    assert Who(agents, p) == {};
  }
}
