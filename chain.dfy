/** The scheduling rule of the processor, on values: which module each entry
    of the chain order reaches, and the left fold of their transforms over the
    order. The processor's methods are proved against these functions. */
module Chain {
  import opened Options
  import opened Audio
  import opened Modules

  /** An order entry reaches a module when its kind's ordinal is a slot of the
      table and that slot is not null. */
  predicate Dispatches<St>(table: seq<Slot<St>>, kind: DspOption)
  {
    Ordinal(kind) < |table| && table[Ordinal(kind)].Module?
  }

  /** One position of the chain: the module the entry reaches processes the
      shared block; an entry that reaches nothing is skipped. */
  function Step<St>(table: seq<Slot<St>>, kind: DspOption, block: Block): (r: (seq<Slot<St>>, Block))
    ensures |r.0| == |table|
    ensures forall j :: 0 <= j < |table| && j != Ordinal(kind) ==> r.0[j] == table[j]
    ensures !Dispatches(table, kind) ==> r == (table, block)
    ensures Dispatches(table, kind) ==> r.1 == table[Ordinal(kind)].behaviour.process(table[Ordinal(kind)].state, block).1
    ensures Dispatches(table, kind) ==> r.0[Ordinal(kind)] == ProcessSlot(table[Ordinal(kind)], block).0
  {
    if Dispatches(table, kind) then
      var i := Ordinal(kind);
      var (s, out) := ProcessSlot(table[i], block);
      (table[i := s], out)
    else
      (table, block)
  }

  /** The whole chain: positions 0 to |order| - 1 in turn, each stage given
      the previous stage's output. */
  function RunChain<St>(order: seq<DspOption>, table: seq<Slot<St>>, block: Block): (r: (seq<Slot<St>>, Block))
    ensures |r.0| == |table|
    ensures forall k :: 0 <= k < |table| ==> r.0[k].Module? == table[k].Module?
    decreases |order|
  {
    if order == [] then (table, block)
    else
      var r := RunChain(order[..|order| - 1], table, block);
      Step(r.0, order[|order| - 1], r.1)
  }

  /** Running two orders one after the other is running their concatenation. */
  lemma {:induction false} RunChainAppend<St>(a: seq<DspOption>, b: seq<DspOption>, table: seq<Slot<St>>, block: Block)
    ensures var mid := RunChain(a, table, block);
            RunChain(a + b, table, block) == RunChain(b, mid.0, mid.1)
    decreases |b|
  {
    if b == [] {
      assert a + b == a;
    } else {
      var b' := b[..|b| - 1];
      assert (a + b)[..|a + b| - 1] == a + b';
      RunChainAppend(a, b', table, block);
    }
  }

  /** Whatever the order, every module keeps its behaviour and its prepare
      and reset counts. */
  lemma {:induction false} RunChainKeepsTable<St>(order: seq<DspOption>, table: seq<Slot<St>>, block: Block)
    ensures var t := RunChain(order, table, block).0;
            forall k :: 0 <= k < |table| && table[k].Module? ==>
              t[k].behaviour == table[k].behaviour &&
              t[k].counts.prepares == table[k].counts.prepares &&
              t[k].counts.resets == table[k].counts.resets
    decreases |order|
  {
    if order != [] {
      RunChainKeepsTable(order[..|order| - 1], table, block);
    }
  }

  /** A module is processed exactly as many times as the order names its
      slot; a kind the order does not name is never processed. */
  lemma {:induction false} RunChainCountsProcesses<St>(order: seq<DspOption>, table: seq<Slot<St>>, block: Block, k: nat)
    requires k < |table| && table[k].Module?
    ensures RunChain(order, table, block).0[k].counts.processes == table[k].counts.processes + Occurrences(order, k)
    decreases |order|
  {
    RunChainKeepsTable(order, table, block);
    if order != [] {
      RunChainCountsProcesses(order[..|order| - 1], table, block, k);
      RunChainKeepsTable(order[..|order| - 1], table, block);
    }
  }

  /** Stated per kind: the module of a real kind is processed exactly as many
      times as the kind occurs in the order, so an absent kind is never
      processed. */
  lemma KindProcessedAsOftenAsNamed<St>(order: seq<DspOption>, table: seq<Slot<St>>, block: Block, kind: DspOption)
    requires Ordinal(kind) < |table| && table[Ordinal(kind)].Module?
    ensures RunChain(order, table, block).0[Ordinal(kind)].counts.processes ==
            table[Ordinal(kind)].counts.processes + multiset(order)[kind]
  {
    RunChainCountsProcesses(order, table, block, Ordinal(kind));
    OccurrencesCountsKind(order, kind);
  }

  /** A slot that no entry of the order names comes out exactly as it went
      in: its state and counts are untouched. */
  lemma {:induction false} RunChainLeavesUnnamed<St>(order: seq<DspOption>, table: seq<Slot<St>>, block: Block, k: nat)
    requires k < |table| && Occurrences(order, k) == 0
    ensures RunChain(order, table, block).0[k] == table[k]
    decreases |order|
  {
    RunChainKeepsTable(order, table, block);
    if order != [] {
      RunChainLeavesUnnamed(order[..|order| - 1], table, block, k);
      RunChainKeepsTable(order[..|order| - 1], table, block);
    }
  }

  /** When no entry of the order reaches a module (every index out of range or
      every named slot null), the block and the table are left unchanged. */
  lemma {:induction false} RunChainSkipsAll<St>(order: seq<DspOption>, table: seq<Slot<St>>, block: Block)
    requires forall i :: 0 <= i < |order| ==> !Dispatches(table, order[i])
    ensures RunChain(order, table, block) == (table, block)
    decreases |order|
  {
    if order != [] {
      RunChainSkipsAll(order[..|order| - 1], table, block);
    }
  }

  /** For an order that is a permutation of the five kinds and a table of
      five modules, every module is processed exactly once per block. */
  lemma PermutationProcessesEachOnce<St>(order: seq<DspOption>, table: seq<Slot<St>>, block: Block, k: nat)
    requires IsPermutation(order)
    requires |table| == ChainLength && k < ChainLength && table[k].Module?
    ensures RunChain(order, table, block).0[k].counts.processes == table[k].counts.processes + 1
  {
    RunChainCountsProcesses(order, table, block, k);
    PermutationOccurrences(order, k);
  }

  /** The order the processor is constructed with runs each of five modules
      exactly once per block. */
  lemma DefaultOrderProcessesEachOnce<St>(table: seq<Slot<St>>, block: Block, k: nat)
    requires |table| == ChainLength && k < ChainLength && table[k].Module?
    ensures RunChain(DefaultOrder(), table, block).0[k].counts.processes == table[k].counts.processes + 1
  {
    DefaultOrderIsPermutation();
    PermutationProcessesEachOnce(DefaultOrder(), table, block, k);
  }

  /** `prepare` with `spec` on every non-null slot, once each; null slots and
      every other count are left alone. */
  function PrepareAll<St>(table: seq<Slot<St>>, spec: ProcessSpec): (r: seq<Slot<St>>)
    ensures |r| == |table|
    ensures forall k :: 0 <= k < |table| ==>
      r[k].Module? == table[k].Module? &&
      (table[k].Module? ==>
         r[k].behaviour == table[k].behaviour &&
         r[k].state == table[k].behaviour.prepare(table[k].state, spec) &&
         r[k].counts == table[k].counts.(prepares := table[k].counts.prepares + 1))
  {
    seq(|table|, k requires 0 <= k < |table| => PrepareSlot(table[k], spec))
  }

  /** `reset` on every non-null slot, once each; null slots and every other
      count are left alone. */
  function ResetAll<St>(table: seq<Slot<St>>): (r: seq<Slot<St>>)
    ensures |r| == |table|
    ensures forall k :: 0 <= k < |table| ==>
      r[k].Module? == table[k].Module? &&
      (table[k].Module? ==>
         r[k].behaviour == table[k].behaviour &&
         r[k].state == table[k].behaviour.reset(table[k].state) &&
         r[k].counts == table[k].counts.(resets := table[k].counts.resets + 1))
  {
    seq(|table|, k requires 0 <= k < |table| => ResetSlot(table[k]))
  }
}
