/** The channel's registry of named timers (`_timeouts`). A handle is the
    number a `setTimeout` call returned; handles are never reused. */
module Timers {

  datatype TimerName = Pausetime | FadeOut | Random | Crossfade

  type Handle = nat

  type Registry = map<TimerName, Handle>

  /** The order `stop` visits the slots in. The source visits them in the
      order they were first assigned; the set of handles it cancels is the same. */
  const Names: seq<TimerName> := [Pausetime, FadeOut, Random, Crossfade]

  /** Every registered handle was allocated before `next`. */
  predicate Fresh(reg: Registry, next: nat)
  {
    forall n :: n in reg ==> reg[n] < next
  }

  /** No two slots hold the same handle. */
  predicate Distinct(reg: Registry)
  {
    forall a, b :: a in reg && b in reg && a != b ==> reg[a] != reg[b]
  }

  predicate NoDuplicates<T(==)>(s: seq<T>)
  {
    forall i, j :: 0 <= i < j < |s| ==> s[i] != s[j]
  }

  /** The handles registered under `names`, in that order. */
  function HandlesOf(reg: Registry, names: seq<TimerName>): (r: seq<Handle>)
    ensures forall h :: h in r <==> exists n :: n in names && n in reg && reg[n] == h
    ensures Distinct(reg) && NoDuplicates(names) ==> NoDuplicates(r)
    ensures |r| <= |names|
  {
    if names == [] then []
    else
      var rest := HandlesOf(reg, names[1..]);
      assert forall n :: n in names <==> n == names[0] || n in names[1..];
      if names[0] in reg then
        assert Distinct(reg) && NoDuplicates(names) ==> reg[names[0]] !in rest;
        [reg[names[0]]] + rest
      else rest
  }

  lemma NamesCoverAll(n: TimerName)
    ensures n in Names
  {
    match n
    case Pausetime => assert Names[0] == n;
    case FadeOut => assert Names[1] == n;
    case Random => assert Names[2] == n;
    case Crossfade => assert Names[3] == n;
  }

  /** Every handle the registry holds, each exactly once, as `stop` cancels them. */
  function AllHandles(reg: Registry): (r: seq<Handle>)
    ensures forall h :: h in r <==> h in reg.Values
    ensures Distinct(reg) ==> NoDuplicates(r)
  {
    forall n | n in reg ensures n in Names {
      NamesCoverAll(n);
    }
    HandlesOf(reg, Names)
  }
}
