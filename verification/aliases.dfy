/** Date-threshold alias chains: the declarative form of the providers' alias
    resolvers. An alias's history lists its cutovers newest first; a date picks
    the first cutover it is strictly after, and the oldest name when it is after
    none of them. */
module Aliases {
  import opened Types

  /** From (strictly) after `after`, the alias means `target`. */
  datatype Cutover = Cutover(after: Timestamp, target: string)

  /** An alias's history: cutovers newest first, and the name in effect before all of them. */
  datatype Chain = Chain(cutovers: seq<Cutover>, oldest: string)

  /** Thresholds strictly decrease along the chain. */
  predicate NewestFirst(cs: seq<Cutover>) {
    forall i, j :: 0 <= i < j < |cs| ==> cs[i].after > cs[j].after
  }

  /** `name` is one the chain can produce: its oldest name or some cutover's target. */
  predicate Produces(chain: Chain, name: string) {
    name == chain.oldest || exists i :: 0 <= i < |chain.cutovers| && chain.cutovers[i].target == name
  }

  /** Index of the first cutover the date is strictly after; `|cs|` when there is none. */
  function FirstPassed(cs: seq<Cutover>, date: Timestamp): (k: nat)
    ensures k <= |cs|
    ensures k < |cs| ==> IsAfter(date, cs[k].after)
    ensures forall j :: 0 <= j < k ==> !IsAfter(date, cs[j].after)
  {
    if |cs| == 0 then 0
    else if IsAfter(date, cs[0].after) then 0
    else 1 + FirstPassed(cs[1..], date)
  }

  /** The name an alias stands for on `date`. */
  function Resolve(chain: Chain, date: Timestamp): (r: string)
    ensures Produces(chain, r)
  {
    var k := FirstPassed(chain.cutovers, date);
    if k < |chain.cutovers| then chain.cutovers[k].target else chain.oldest
  }

  /** Resolution checks the newest cutover first and otherwise falls through to the rest. */
  lemma ResolveStep(c: Cutover, rest: seq<Cutover>, oldest: string, date: Timestamp)
    ensures Resolve(Chain([c] + rest, oldest), date)
            == if IsAfter(date, c.after) then c.target else Resolve(Chain(rest, oldest), date)
  {
    assert ([c] + rest)[1..] == rest;
  }

  /** A later date never selects an older cutover. */
  lemma FirstPassedMonotone(cs: seq<Cutover>, d1: Timestamp, d2: Timestamp)
    requires NewestFirst(cs)
    requires d1 <= d2
    ensures FirstPassed(cs, d2) <= FirstPassed(cs, d1)
  {
  }

  /** Dropping the newest cutover keeps a chain newest first. */
  lemma NewestFirstTail(cs: seq<Cutover>)
    requires NewestFirst(cs) && |cs| > 0
    ensures NewestFirst(cs[1..])
  {
  }

  /** A date exactly on a threshold is not after it: the older branch applies. */
  lemma {:induction false} OnThreshold(cs: seq<Cutover>, i: nat)
    requires NewestFirst(cs)
    requires i < |cs|
    ensures FirstPassed(cs, cs[i].after) == i + 1
  {
    NewestFirstTail(cs);
    if i == 0 {
      if |cs| > 1 {
        assert IsAfter(cs[0].after, cs[1..][0].after);
      }
    } else {
      assert cs[1..][i - 1] == cs[i];
      OnThreshold(cs[1..], i - 1);
    }
  }

  /** One millisecond after a threshold the newer branch applies. */
  lemma JustAfterThreshold(cs: seq<Cutover>, i: nat)
    requires NewestFirst(cs)
    requires i < |cs|
    ensures FirstPassed(cs, cs[i].after + 1) == i
  {
  }

  /** On a threshold the alias still means the next older name. */
  lemma ResolveOnThreshold(chain: Chain, i: nat)
    requires NewestFirst(chain.cutovers)
    requires i < |chain.cutovers|
    ensures Resolve(chain, chain.cutovers[i].after)
            == if i + 1 < |chain.cutovers| then chain.cutovers[i + 1].target else chain.oldest
  {
    OnThreshold(chain.cutovers, i);
  }

  /** One millisecond after a threshold the alias means that cutover's target. */
  lemma ResolveJustAfterThreshold(chain: Chain, i: nat)
    requires NewestFirst(chain.cutovers)
    requires i < |chain.cutovers|
    ensures Resolve(chain, chain.cutovers[i].after + 1) == chain.cutovers[i].target
  {
    JustAfterThreshold(chain.cutovers, i);
  }

  /** A date after no threshold resolves to the oldest name. */
  lemma BeforeAllThresholds(chain: Chain, date: Timestamp)
    requires forall i :: 0 <= i < |chain.cutovers| ==> !IsAfter(date, chain.cutovers[i].after)
    ensures Resolve(chain, date) == chain.oldest
  {
  }

  /** An alias table: alias name to its history. Names outside the table resolve to themselves. */
  function ResolveIn(table: map<string, Chain>, name: string, date: Timestamp): (r: string)
    ensures name !in table ==> r == name
    ensures name in table ==> Produces(table[name], r)
  {
    if name in table then Resolve(table[name], date) else name
  }

  /** Every chain of the table is newest first. */
  predicate ChainsNewestFirst(table: map<string, Chain>) {
    forall alias | alias in table :: NewestFirst(table[alias].cutovers)
  }
}
