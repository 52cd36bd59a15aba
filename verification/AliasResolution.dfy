/**
 Storage key aliases: a map from keys to keys that may run in circles. Resolving follows it until a key has
 no alias or has been seen before.
*/
module AliasResolution {

  type Aliases = map<string, string>

  // ---------- Chains ----------

  predicate Chain(aliases: Aliases, p: seq<string>) {
    && p != []
    && forall i :: 0 <= i < |p| - 1 ==> p[i] in aliases && aliases[p[i]] == p[i + 1]
  }

  predicate ChainFrom(aliases: Aliases, p: seq<string>, from: string, to: string) {
    Chain(aliases, p) && p[0] == from && p[|p| - 1] == to
  }

  /** Following the aliases leads back to the key. */
  ghost predicate OnCycle(aliases: Aliases, key: string) {
    exists p :: |p| >= 2 && ChainFrom(aliases, p, key, key)
  }

  ghost predicate Settled(aliases: Aliases, key: string) {
    key !in aliases || OnCycle(aliases, key)
  }

  /** The first key of the chain that has no alias or is on a cycle. */
  ghost predicate ResolvesTo(aliases: Aliases, key: string, resolved: string) {
    exists p :: ChainFrom(aliases, p, key, resolved) && Settled(aliases, resolved)
                && forall i :: 0 <= i < |p| - 1 ==> !Settled(aliases, p[i])
  }

  /** A chain that comes back to its i-th key: the keys before that one are not on a cycle. */
  lemma BeforeTheCycle(aliases: Aliases, p: seq<string>, i: nat, j: nat)
    requires Chain(aliases, p) && j < i < |p| - 1 && p[|p| - 1] == p[i]
    requires forall a, b :: 0 <= a < b < |p| - 1 ==> p[a] != p[b]
    ensures !OnCycle(aliases, p[j])
  {
    forall q | |q| >= 2 && ChainFrom(aliases, q, p[j], p[j])
      ensures false
    {
      var m := Lands(aliases, p, i, j, q, |q| - 1);
    }
  }

  /** Where another chain from the j-th key is after t steps: later on the first one. */
  lemma {:induction false} Lands(aliases: Aliases, p: seq<string>, i: nat, j: nat, q: seq<string>, t: nat) returns (m: nat)
    requires Chain(aliases, p) && j < i < |p| - 1 && p[|p| - 1] == p[i]
    requires Chain(aliases, q) && q[0] == p[j] && 1 <= t < |q|
    ensures j < m < |p| - 1 && q[t] == p[m]
  {
    if t == 1 {
      m := j + 1;
    } else {
      var before := Lands(aliases, p, i, j, q, t - 1);
      assert q[t - 1] in aliases && aliases[q[t - 1]] == q[t];
      m := if before + 1 == |p| - 1 then i else before + 1;
    }
  }

  /** A chain that ends: none of its keys is on a cycle. */
  lemma BeforeTheEnd(aliases: Aliases, p: seq<string>, j: nat)
    requires Chain(aliases, p) && j < |p| - 1 && p[|p| - 1] !in aliases
    requires forall a, b :: 0 <= a < b < |p| - 1 ==> p[a] != p[b]
    ensures !OnCycle(aliases, p[j])
  {
    forall q | |q| >= 2 && ChainFrom(aliases, q, p[j], p[j])
      ensures false
    {
      Along(aliases, p, j, q, |q| - 1);
    }
  }

  lemma {:induction false} Along(aliases: Aliases, p: seq<string>, j: nat, q: seq<string>, t: nat)
    requires Chain(aliases, p) && j < |p| && p[|p| - 1] !in aliases
    requires Chain(aliases, q) && q[0] == p[j] && t < |q|
    ensures j + t < |p| && q[t] == p[j + t]
  {
    if t > 0 {
      Along(aliases, p, j, q, t - 1);
      assert q[t - 1] in aliases && aliases[q[t - 1]] == q[t];
    }
  }

  /** A chain that comes back is a cycle from there on. */
  lemma ComesBack(aliases: Aliases, p: seq<string>, i: nat)
    requires Chain(aliases, p) && i < |p| - 1 && p[|p| - 1] == p[i]
    ensures OnCycle(aliases, p[i])
  {
    var q := p[i..];
    forall k | 0 <= k < |q| - 1 ensures q[k] in aliases && aliases[q[k]] == q[k + 1] {
      assert p[i + k] in aliases && aliases[p[i + k]] == p[i + k + 1];
    }
    assert ChainFrom(aliases, q, p[i], p[i]);
  }

  // ---------- The module state ----------

  class AliasTable {
    var aliases: Aliases

    constructor ()
      ensures aliases == map[]
    {
      aliases := map[];
    }

    /** It ends on every map, and at the first key that is settled. */
    method ResolveStorageKeyAlias(storageKey: string) returns (current: string)
      ensures ResolvesTo(aliases, storageKey, current)
    {
      current := storageKey;
      var seen: set<string> := {};
      ghost var p := [storageKey];
      while current in aliases && current !in seen
        invariant ChainFrom(aliases, p, storageKey, current)
        invariant forall key :: key in seen <==> key in p[..|p| - 1]
        invariant forall a, b :: 0 <= a < b < |p| - 1 ==> p[a] != p[b]
        decreases aliases.Keys - seen
      {
        seen := seen + {current};
        var next := aliases[current];
        ghost var longer := p + [next];
        assert longer[..|longer| - 1] == p;
        assert p == p[..|p| - 1] + [current];
        p := longer;
        current := next;
      }
      SettledFirst(aliases, p, storageKey, current);
    }

    method RegisterStorageKeyAlias(from: string, to: string)
      modifies this
      ensures aliases == if from != "" && to != "" && from != to then old(aliases)[from := to] else old(aliases)
    {
      if from != "" && to != "" && from != to {
        aliases := aliases[from := to];
      }
    }
  }

  lemma SettledFirst(aliases: Aliases, p: seq<string>, from: string, to: string)
    requires ChainFrom(aliases, p, from, to) && (to !in aliases || to in p[..|p| - 1])
    requires forall a, b :: 0 <= a < b < |p| - 1 ==> p[a] != p[b]
    ensures ResolvesTo(aliases, from, to)
  {
    if to !in aliases {
      forall j | 0 <= j < |p| - 1 ensures !Settled(aliases, p[j]) {
        BeforeTheEnd(aliases, p, j);
      }
    } else {
      var i :| 0 <= i < |p| - 1 && p[..|p| - 1][i] == to;
      ComesBack(aliases, p, i);
      var q := p[..i + 1];
      assert ChainFrom(aliases, q, from, to);
      forall j | 0 <= j < |q| - 1 ensures !Settled(aliases, q[j]) {
        BeforeTheCycle(aliases, p, i, j);
      }
    }
  }

  // ---------- What resolving means ----------

  lemma {:induction false} SameChain(aliases: Aliases, p: seq<string>, q: seq<string>, i: nat)
    requires Chain(aliases, p) && Chain(aliases, q) && p[0] == q[0] && i < |p| && i < |q|
    ensures p[i] == q[i]
  {
    if i > 0 {
      SameChain(aliases, p, q, i - 1);
      assert aliases[p[i - 1]] == p[i] && aliases[q[i - 1]] == q[i];
    }
  }

  /** There is one answer only. */
  lemma ResolvesToOne(aliases: Aliases, key: string, a: string, b: string)
    requires ResolvesTo(aliases, key, a) && ResolvesTo(aliases, key, b)
    ensures a == b
  {
    var p :| ChainFrom(aliases, p, key, a) && Settled(aliases, a) && forall i :: 0 <= i < |p| - 1 ==> !Settled(aliases, p[i]);
    var q :| ChainFrom(aliases, q, key, b) && Settled(aliases, b) && forall i :: 0 <= i < |q| - 1 ==> !Settled(aliases, q[i]);
    if |p| <= |q| {
      SameChain(aliases, p, q, |p| - 1);
    } else {
      SameChain(aliases, p, q, |q| - 1);
    }
  }

  /** Resolving what was resolved changes nothing, whatever circles the map runs in. */
  lemma Idempotent(aliases: Aliases, key: string, resolved: string)
    requires ResolvesTo(aliases, key, resolved)
    ensures ResolvesTo(aliases, resolved, resolved)
  {
    assert ChainFrom(aliases, [resolved], resolved, resolved);
  }

  lemma CycleGoesOn(aliases: Aliases, key: string)
    requires OnCycle(aliases, key)
    ensures key in aliases && OnCycle(aliases, aliases[key])
  {
    var p :| |p| >= 2 && ChainFrom(aliases, p, key, key);
    assert p[0] in aliases && aliases[p[0]] == p[1];
    var q := p[1..] + [p[1]];
    forall i | 0 <= i < |q| - 1 ensures q[i] in aliases && aliases[q[i]] == q[i + 1] {
      if i < |p| - 2 {
        assert p[i + 1] in aliases && aliases[p[i + 1]] == p[i + 2];
      }
    }
    assert ChainFrom(aliases, q, p[1], p[1]);
  }

  /** A key and what it is an alias of resolve alike exactly when the key is not part of a circle of several keys. */
  lemma AliasesAgree(aliases: Aliases, key: string, resolved: string)
    requires key in aliases && ResolvesTo(aliases, aliases[key], resolved)
    ensures ResolvesTo(aliases, key, resolved) <==> !OnCycle(aliases, key) || aliases[key] == key
  {
    if OnCycle(aliases, key) {
      CycleGoesOn(aliases, key);
      assert ChainFrom(aliases, [aliases[key]], aliases[key], aliases[key]);
      ResolvesToOne(aliases, aliases[key], resolved, aliases[key]);
      assert ChainFrom(aliases, [key], key, key);
      if ResolvesTo(aliases, key, resolved) {
        ResolvesToOne(aliases, key, resolved, key);
      }
    } else {
      var p :| ChainFrom(aliases, p, aliases[key], resolved) && Settled(aliases, resolved)
               && forall i :: 0 <= i < |p| - 1 ==> !Settled(aliases, p[i]);
      var q := [key] + p;
      assert ChainFrom(aliases, q, key, resolved);
    }
  }

  /** Two registrations are enough: each of the two keys resolves to itself, though each is an alias of the other. */
  lemma CircleOfTwo()
    ensures var aliases := map["a" := "b"]["b" := "a"];
            && ResolvesTo(aliases, "a", "a") && ResolvesTo(aliases, aliases["a"], "b") && !ResolvesTo(aliases, "a", "b")
  {
    var aliases := map["a" := "b"]["b" := "a"];
    assert ChainFrom(aliases, ["a", "b", "a"], "a", "a") && ChainFrom(aliases, ["b", "a", "b"], "b", "b");
    assert ChainFrom(aliases, ["a"], "a", "a") && ChainFrom(aliases, ["b"], "b", "b");
    AliasesAgree(aliases, "a", "b");
  }
}
