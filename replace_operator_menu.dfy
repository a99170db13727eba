/** The "replace operator" action of the operator context menu: the selected
    operator is swapped for a newly built one at the same place in its
    subprocess, its connections are re-made by port name, the children of a chain
    move to the new chain, and the connections that could not be restored are
    counted and reported. */
module ReplaceOperatorMenu {
  import opened OperatorLists
  import opened Ports
  import opened Process

  /** The first loop pair of `replace`: every connected port of kind `dir` on `op`
      is recorded under its name together with the port at the other end, and both
      ends are locked. */
  method RecordConnections(e: ProcessEditor, op: OpId, dir: Direction) returns (recorded: map<string, Port>)
    requires op in e.ports
    modifies e`locked
    ensures recorded == Recorded(e.partner, op, dir, e.Names(op, dir))
    ensures e.locked == old(e.locked) + Ends(op, dir, recorded)
    ensures unchanged(e`ports, e`subprocessCount, e`units, e`unitOf, e`partner, e`dialogs, e`nextOp)
  {
    var partner, names := e.partner, e.Names(op, dir);
    recorded := map[];
    for k := 0 to |names|
      invariant recorded == Recorded(partner, op, dir, names[..k])
      invariant e.locked == old(e.locked) + Locked(partner, op, dir, names[..k])
      invariant unchanged(e`ports, e`subprocessCount, e`units, e`unitOf, e`partner, e`dialogs, e`nextOp)
    {
      RecordedStep(partner, op, dir, names, k);
      assert names[..k + 1][..k] == names[..k];
      var port := Port(op, dir, names[k]);
      if port in partner {
        var other := partner[port];
        recorded := recorded[names[k] := other];
        e.Lock(port);
        e.Lock(other);
      }
    }
    assert names[..|names|] == names;
    LockedEnds(partner, op, dir, names);
  }

  /** How many subprocesses `replace` transfers: Math.min of the two subprocess
      counts when both operators are chains, none otherwise. */
  function CommonSubprocesses(chains: map<OpId, nat>, oldOp: OpId, newOp: OpId): (n: nat)
    ensures n > 0 ==> oldOp in chains && newOp in chains
    ensures n <= (if oldOp in chains then chains[oldOp] else 0)
    ensures n <= (if newOp in chains then chains[newOp] else 0)
    ensures oldOp in chains && newOp in chains ==> n == chains[oldOp] || n == chains[newOp]
  {
    if oldOp in chains && newOp in chains then
      if chains[oldOp] <= chains[newOp] then chains[oldOp] else chains[newOp]
    else 0
  }

  /** The subprocess lists once subprocess i of `into` has stolen the operators
      of subprocess i of `from`, for i = 0, 1, ..., n - 1 in turn (a step whose
      subprocesses do not both exist changes nothing; `replace` never takes one). */
  function Transferred(units: map<UnitId, seq<OpId>>, from: OpId, into: OpId, n: nat): map<UnitId, seq<OpId>>
  {
    if n == 0 then units
    else
      var t, f, i := Transferred(units, from, into, n - 1), UnitId(from, n - 1), UnitId(into, n - 1);
      if f in t && i in t then t[i := t[i] + t[f]][f := []] else t
  }

  /** getExecutionUnit() after the same n steals. */
  function MovedAll(unitOf: map<OpId, UnitId>, from: OpId, into: OpId, n: nat): (r: map<OpId, UnitId>)
    ensures r.Keys == unitOf.Keys
  {
    if n == 0 then unitOf else Moved(MovedAll(unitOf, from, into, n - 1), UnitId(from, n - 1), UnitId(into, n - 1))
  }

  /** The failures reported by the first n calls of stealOperatorsFrom, added up. */
  function StealTotal(misses: StealMisses, from: OpId, into: OpId, n: nat): nat
  {
    if n == 0 then 0 else StealTotal(misses, from, into, n - 1) + StealFailures(misses, UnitId(into, n - 1), UnitId(from, n - 1))
  }

  /** The steals leave every subprocess of a third operator as it was. */
  lemma {:induction false} TransferredElsewhere(units: map<UnitId, seq<OpId>>, from: OpId, into: OpId, n: nat, u: UnitId)
    requires u in units && u.owner != from && u.owner != into
    ensures u in Transferred(units, from, into, n) && Transferred(units, from, into, n)[u] == units[u]
  {
    if n > 0 {
      TransferredElsewhere(units, from, into, n - 1, u);
    }
  }

  /** The steals remove no subprocess. */
  lemma {:induction false} TransferredKeeps(units: map<UnitId, seq<OpId>>, from: OpId, into: OpId, n: nat, u: UnitId)
    requires u in units
    ensures u in Transferred(units, from, into, n)
  {
    if n > 0 {
      TransferredKeeps(units, from, into, n - 1, u);
    }
  }

  /** After the n steals, subprocess i of `into`, i below n, holds its own
      operators followed by those of subprocess i of `from`, in their order, and
      subprocess i of `from` is empty. */
  lemma {:induction false} TransferredPair(units: map<UnitId, seq<OpId>>, from: OpId, into: OpId, n: nat, i: nat)
    requires from != into && i < n
    requires UnitId(from, i) in units && UnitId(into, i) in units
    ensures UnitId(into, i) in Transferred(units, from, into, n) && Transferred(units, from, into, n)[UnitId(into, i)] == units[UnitId(into, i)] + units[UnitId(from, i)]
    ensures UnitId(from, i) in Transferred(units, from, into, n) && Transferred(units, from, into, n)[UnitId(from, i)] == []
  {
    if i < n - 1 {
      TransferredPair(units, from, into, n - 1, i);
    } else {
      TransferredUntouched(units, from, into, n - 1, i);
    }
  }

  /** Before step i, subprocess i of both chains is as it was. */
  lemma {:induction false} TransferredUntouched(units: map<UnitId, seq<OpId>>, from: OpId, into: OpId, n: nat, i: nat)
    requires from != into && n <= i
    ensures UnitId(from, i) in units ==> UnitId(from, i) in Transferred(units, from, into, n) && Transferred(units, from, into, n)[UnitId(from, i)] == units[UnitId(from, i)]
    ensures UnitId(into, i) in units ==> UnitId(into, i) in Transferred(units, from, into, n) && Transferred(units, from, into, n)[UnitId(into, i)] == units[UnitId(into, i)]
  {
    if n > 0 {
      TransferredUntouched(units, from, into, n - 1, i);
    }
  }

  /** The steals leave an operator of a third operator's subprocess where it sat. */
  lemma {:induction false} MovedAllElsewhere(unitOf: map<OpId, UnitId>, from: OpId, into: OpId, n: nat, op: OpId)
    requires op in unitOf && unitOf[op].owner != from
    ensures op in MovedAll(unitOf, from, into, n) && MovedAll(unitOf, from, into, n)[op] == unitOf[op]
  {
    if n > 0 {
      MovedAllElsewhere(unitOf, from, into, n - 1, op);
    }
  }

  /** What the n steals leave for getExecutionUnit(): an operator of subprocess i
      of `from`, i below n, now sits in subprocess i of `into`; every other
      operator sits where it sat. */
  lemma {:induction false} MovedAllContents(unitOf: map<OpId, UnitId>, from: OpId, into: OpId, n: nat)
    requires from != into
    ensures var r := MovedAll(unitOf, from, into, n);
      && (forall op :: op in unitOf && unitOf[op].owner == from && unitOf[op].index < n ==> r[op] == UnitId(into, unitOf[op].index))
      && (forall op :: op in unitOf && !(unitOf[op].owner == from && unitOf[op].index < n) ==> r[op] == unitOf[op])
  {
    if n > 0 {
      MovedAllContents(unitOf, from, into, n - 1);
    }
  }

  /** Lines 102-111 of `replace`: when both operators are chains, subprocess i of
      the new chain steals the operators of subprocess i of the old one, for each i
      below the smaller subprocess count, and the failures are added up. */
  method TransferChildren(e: ProcessEditor, oldOp: OpId, newOp: OpId, misses: StealMisses) returns (failed: nat)
    requires e.Valid() && oldOp != newOp && newOp !in e.unitOf
    modifies e`units, e`unitOf
    ensures var n := CommonSubprocesses(old(e.subprocessCount), oldOp, newOp);
      && e.units == Transferred(old(e.units), oldOp, newOp, n)
      && e.unitOf == MovedAll(old(e.unitOf), oldOp, newOp, n)
      && failed == StealTotal(misses, oldOp, newOp, n)
    ensures e.Valid() && newOp !in e.unitOf
    ensures unchanged(e`ports, e`subprocessCount, e`partner, e`locked, e`dialogs, e`nextOp)
  {
    failed := 0;
    var common := CommonSubprocesses(e.subprocessCount, oldOp, newOp);
    ghost var units0, unitOf0 := e.units, e.unitOf;
    for i := 0 to common
      invariant e.units == Transferred(units0, oldOp, newOp, i)
      invariant e.unitOf == MovedAll(unitOf0, oldOp, newOp, i)
      invariant failed == StealTotal(misses, oldOp, newOp, i)
      invariant e.Valid() && newOp !in e.unitOf
      invariant unchanged(e`ports, e`subprocessCount, e`partner, e`locked, e`dialogs, e`nextOp)
    {
      failed := StealNext(e, oldOp, newOp, i, misses, units0, unitOf0, failed);
    }
  }

  /** One turn of the transfer loop: subprocess i of the new chain steals the
      operators of subprocess i of the old one, and the failures are added. */
  method StealNext(e: ProcessEditor, oldOp: OpId, newOp: OpId, i: nat, misses: StealMisses,
                   ghost units0: map<UnitId, seq<OpId>>, ghost unitOf0: map<OpId, UnitId>, failed: nat) returns (failed': nat)
    requires oldOp != newOp && i < CommonSubprocesses(e.subprocessCount, oldOp, newOp)
    requires e.Valid() && newOp !in e.unitOf
    requires e.units == Transferred(units0, oldOp, newOp, i) && e.unitOf == MovedAll(unitOf0, oldOp, newOp, i)
    requires failed == StealTotal(misses, oldOp, newOp, i)
    modifies e`units, e`unitOf
    ensures e.units == Transferred(units0, oldOp, newOp, i + 1) && e.unitOf == MovedAll(unitOf0, oldOp, newOp, i + 1)
    ensures failed' == StealTotal(misses, oldOp, newOp, i + 1)
    ensures e.Valid() && newOp !in e.unitOf
    ensures unchanged(e`ports, e`subprocessCount, e`partner, e`locked, e`dialogs, e`nextOp)
  {
    StealNextKeepsNesting(e.units, e.unitOf, e.subprocessCount, oldOp, newOp, i);
    var f := e.StealOperatorsFrom(UnitId(newOp, i), UnitId(oldOp, i), misses);
    failed' := failed + f;
  }

  /** Turn i of the transfer loop keeps the nesting intact and puts nothing
      into the new chain itself. */
  lemma StealNextKeepsNesting(units: map<UnitId, seq<OpId>>, unitOf: map<OpId, UnitId>, chains: map<OpId, nat>,
                              oldOp: OpId, newOp: OpId, i: nat)
    requires oldOp != newOp && i < CommonSubprocesses(chains, oldOp, newOp)
    requires Nested(units, unitOf, chains) && newOp !in unitOf
    ensures UnitId(newOp, i) in units && UnitId(oldOp, i) in units
    ensures var into, from := UnitId(newOp, i), UnitId(oldOp, i);
      Nested(units[into := units[into] + units[from]][from := []], Moved(unitOf, from, into), chains)
      && newOp !in Moved(unitOf, from, into)
  {
    var into, from := UnitId(newOp, i), UnitId(oldOp, i);
    assert newOp !in units[from];
    StealKeepsNesting(units, unitOf, chains, into, from);
  }

  /** Lines 117-126 of `replace`: for every recorded output name, in the order
      the HashMap hands out its entries (`order`, chosen here by the loop), the
      output port of that name on the new operator is connected to the recorded
      input port and both are unlocked; a name the new operator has no output port
      for is counted as a failure. */
  method ReconnectOutputs(e: ProcessEditor, newOp: OpId, outs: map<string, Port>, ghost ins: map<string, Port>)
      returns (unmatched: nat, ghost order: seq<string>)
    requires newOp in e.ports && Rejoinable(e.partner, newOp, outs, ins)
    modifies e`partner, e`locked
    ensures Lists(order, outs.Keys)
    ensures e.partner == Rejoin(old(e.partner), newOp, Out, outs, e.Names(newOp, Out), order)
    ensures e.locked == old(e.locked) - Reopened(newOp, Out, outs, e.Names(newOp, Out), order)
    ensures unmatched == Misses(outs, e.Names(newOp, Out), order)
    ensures unchanged(e`ports, e`subprocessCount, e`units, e`unitOf, e`dialogs, e`nextOp)
  {
    ghost var base := e.partner;
    var names := e.Names(newOp, Out);
    var pending := outs.Keys;
    order := [];
    unmatched := 0;
    while pending != {}
      invariant pending <= outs.Keys && Distinct(order)
      invariant forall n :: n in order <==> n in outs && n !in pending
      invariant e.partner == Rejoin(base, newOp, Out, outs, names, order)
      invariant e.locked == old(e.locked) - Reopened(newOp, Out, outs, names, order)
      invariant unmatched == Misses(outs, names, order)
      invariant unchanged(e`ports, e`subprocessCount, e`units, e`unitOf, e`dialogs, e`nextOp)
      decreases pending
    {
      var name :| name in pending;
      OutputStillFree(base, newOp, outs, ins, names, order, name);
      unmatched := RestoreOutput(e, newOp, name, outs, names, base, order, old(e.locked), unmatched);
      order := order + [name];
      pending := pending - {name};
    }
  }

  /** Lines 128-137 of `replace`, run after the output side: for every recorded
      input name, in HashMap order, the recorded output port is connected to the
      input port of that name on the new operator and both are unlocked; a name
      the new operator has no input port for is counted as a failure. */
  method ReconnectInputs(e: ProcessEditor, newOp: OpId, ins: map<string, Port>,
                         ghost base: map<Port, Port>, ghost outs: map<string, Port>, ghost outOrder: seq<string>)
      returns (unmatched: nat, ghost order: seq<string>)
    requires newOp in e.ports && Rejoinable(base, newOp, outs, ins) && Distinct(outOrder)
    requires e.partner == Rejoin(base, newOp, Out, outs, e.Names(newOp, Out), outOrder)
    modifies e`partner, e`locked
    ensures Lists(order, ins.Keys)
    ensures e.partner == Rejoin(old(e.partner), newOp, In, ins, e.Names(newOp, In), order)
    ensures e.locked == old(e.locked) - Reopened(newOp, In, ins, e.Names(newOp, In), order)
    ensures unmatched == Misses(ins, e.Names(newOp, In), order)
    ensures unchanged(e`ports, e`subprocessCount, e`units, e`unitOf, e`dialogs, e`nextOp)
  {
    ghost var start := e.partner;
    var names := e.Names(newOp, In);
    var pending := ins.Keys;
    order := [];
    unmatched := 0;
    while pending != {}
      invariant pending <= ins.Keys && Distinct(order)
      invariant forall n :: n in order <==> n in ins && n !in pending
      invariant e.partner == Rejoin(start, newOp, In, ins, names, order)
      invariant e.locked == old(e.locked) - Reopened(newOp, In, ins, names, order)
      invariant unmatched == Misses(ins, names, order)
      invariant unchanged(e`ports, e`subprocessCount, e`units, e`unitOf, e`dialogs, e`nextOp)
      decreases pending
    {
      var name :| name in pending;
      InputStillFree(base, newOp, outs, ins, e.Names(newOp, Out), outOrder, names, order, name);
      unmatched := RestoreInput(e, newOp, name, ins, names, start, order, old(e.locked), unmatched);
      order := order + [name];
      pending := pending - {name};
    }
  }

  /** One turn of the output loop, on the entry for `name`: when the new operator
      has an output port of that name, it is connected to the recorded input port
      and both are unlocked; otherwise the failure count goes up by one. */
  method RestoreOutput(e: ProcessEditor, newOp: OpId, name: string, outs: map<string, Port>, names: seq<string>,
                       ghost base: map<Port, Port>, ghost order: seq<string>, ghost locked0: set<Port>, unmatched: nat)
      returns (unmatched': nat)
    requires newOp in e.ports && names == e.Names(newOp, Out) && name in outs
    requires Port(newOp, Out, name) !in e.partner && outs[name] !in e.partner && outs[name].dir == In
    requires e.partner == Rejoin(base, newOp, Out, outs, names, order)
    requires e.locked == locked0 - Reopened(newOp, Out, outs, names, order)
    requires unmatched == Misses(outs, names, order)
    modifies e`partner, e`locked
    ensures e.partner == Rejoin(base, newOp, Out, outs, names, order + [name])
    ensures e.locked == locked0 - Reopened(newOp, Out, outs, names, order + [name])
    ensures unmatched' == Misses(outs, names, order + [name])
    ensures unchanged(e`ports, e`subprocessCount, e`units, e`unitOf, e`dialogs, e`nextOp)
  {
    assert (order + [name])[..|order|] == order;
    unmatched' := unmatched;
    var mySource := e.PortByName(newOp, Out, name);
    if mySource.Some? {
      e.ConnectTo(mySource.value, outs[name]);
      e.Unlock(mySource.value);
      e.Unlock(outs[name]);
    } else {
      unmatched' := unmatched + 1;
    }
  }

  /** One turn of the input loop, on the entry for `name`: when the new operator
      has an input port of that name, the recorded output port is connected to it
      and both are unlocked; otherwise the failure count goes up by one. */
  method RestoreInput(e: ProcessEditor, newOp: OpId, name: string, ins: map<string, Port>, names: seq<string>,
                      ghost start: map<Port, Port>, ghost order: seq<string>, ghost locked0: set<Port>, unmatched: nat)
      returns (unmatched': nat)
    requires newOp in e.ports && names == e.Names(newOp, In) && name in ins
    requires Port(newOp, In, name) !in e.partner && ins[name] !in e.partner && ins[name].dir == Out
    requires e.partner == Rejoin(start, newOp, In, ins, names, order)
    requires e.locked == locked0 - Reopened(newOp, In, ins, names, order)
    requires unmatched == Misses(ins, names, order)
    modifies e`partner, e`locked
    ensures e.partner == Rejoin(start, newOp, In, ins, names, order + [name])
    ensures e.locked == locked0 - Reopened(newOp, In, ins, names, order + [name])
    ensures unmatched' == Misses(ins, names, order + [name])
    ensures unchanged(e`ports, e`subprocessCount, e`units, e`unitOf, e`dialogs, e`nextOp)
  {
    assert (order + [name])[..|order|] == order;
    unmatched' := unmatched;
    var mySink := e.PortByName(newOp, In, name);
    if mySink.Some? {
      e.ConnectTo(ins[name], mySink.value);
      e.Unlock(ins[name]);
      e.Unlock(mySink.value);
    } else {
      unmatched' := unmatched + 1;
    }
  }

  /** Lines 79-97 of `replace`: both sides of `sel` are recorded and locked, then
      disconnected, outputs first. */
  method Snapshot(e: ProcessEditor, sel: OpId, newOp: OpId) returns (outs: map<string, Port>, ins: map<string, Port>)
    requires e.Valid() && sel in e.ports && sel != newOp
    requires forall p :: p in e.partner ==> p.owner != newOp
    modifies e`partner, e`locked
    ensures outs == Recorded(old(e.partner), sel, Out, e.Names(sel, Out))
    ensures ins == Recorded(old(e.partner), sel, In, e.Names(sel, In))
    ensures e.locked == old(e.locked) + Ends(sel, Out, outs) + Ends(sel, In, ins)
    ensures e.partner == Detach(old(e.partner), sel, e.Names(sel, Out), e.Names(sel, In))
    ensures Rejoinable(e.partner, newOp, outs, ins)
    ensures (forall n :: n in outs ==> outs[n].owner in e.ports) && (forall n :: n in ins ==> ins[n].owner in e.ports)
    ensures e.Valid()
    ensures unchanged(e`ports, e`subprocessCount, e`units, e`unitOf, e`dialogs, e`nextOp)
  {
    ghost var partner0 := e.partner;
    outs := RecordConnections(e, sel, Out);
    ins := RecordConnections(e, sel, In);
    e.DisconnectAll(sel, Out);
    e.DisconnectAll(sel, In);
    DetachedWired(partner0, e.ports, sel, e.Names(sel, Out), e.Names(sel, In));
    DetachedRejoinable(partner0, sel, newOp, e.Names(sel, Out), e.Names(sel, In));
  }

  /** Lines 101-114 of `replace`: the children move to the new chain, then the new
      operator takes the index of `sel` in the subprocess `parent` that held it. */
  method Reposition(e: ProcessEditor, sel: OpId, newOp: OpId, misses: StealMisses) returns (failed: nat)
    requires e.Valid() && newOp in e.ports
    requires sel in e.unitOf && newOp !in e.unitOf && sel != newOp
    requires forall u :: u in e.units && u.owner == newOp ==> e.units[u] == []
    modifies e`units, e`unitOf
    ensures var n, parent := CommonSubprocesses(old(e.subprocessCount), sel, newOp), old(e.unitOf)[sel];
      && parent in old(e.units) && sel in old(e.units)[parent]
      && var placed: seq<OpId> := old(e.units)[parent][IndexOf(old(e.units)[parent], sel) := newOp];
      && e.units == Transferred(old(e.units), sel, newOp, n)[parent := placed]
      && e.unitOf == (MovedAll(old(e.unitOf), sel, newOp, n) - {sel})[newOp := parent]
      && failed == StealTotal(misses, sel, newOp, n)
    ensures e.Valid()
    ensures unchanged(e`ports, e`subprocessCount, e`partner, e`locked, e`dialogs, e`nextOp)
  {
    ghost var units0, unitOf0 := e.units, e.unitOf;
    ghost var n := CommonSubprocesses(e.subprocessCount, sel, newOp);
    var parent := e.unitOf[sel];
    assert parent.owner != newOp by {
      assert sel in e.units[parent];
    }
    failed := TransferChildren(e, sel, newOp, misses);
    TransferredElsewhere(units0, sel, newOp, n, parent);
    MovedAllElsewhere(unitOf0, sel, newOp, n, sel);
    PutInPlace(e, sel, newOp, parent);
  }

  /** Lines 112-114 of `replace`: `sel` leaves `parent` and the new operator is
      added to `parent` at the index `sel` had. */
  method PutInPlace(e: ProcessEditor, sel: OpId, newOp: OpId, parent: UnitId)
    requires e.Valid() && newOp in e.ports
    requires sel in e.unitOf && e.unitOf[sel] == parent && newOp !in e.unitOf && parent.owner != newOp
    modifies e`units, e`unitOf
    ensures parent in old(e.units) && sel in old(e.units)[parent]
    ensures var placed: seq<OpId> := old(e.units)[parent][IndexOf(old(e.units)[parent], sel) := newOp];
      e.units == old(e.units)[parent := placed]
    ensures e.unitOf == (old(e.unitOf) - {sel})[newOp := parent]
    ensures e.Valid()
    ensures unchanged(e`ports, e`subprocessCount, e`partner, e`locked, e`dialogs, e`nextOp)
  {
    var oldPos := IndexOf(e.units[parent], sel);
    ReplacedInPlace(e.units[parent], oldPos, newOp);
    RemoveKeepsNesting(e.units, e.unitOf, e.subprocessCount, sel, oldPos);
    e.RemoveOperator(sel);
    InsertKeepsNesting(e.units, e.unitOf, e.subprocessCount, newOp, parent, oldPos);
    e.AddOperator(newOp, parent, oldPos);
  }

  /** Lines 116-137 of `replace`: both rewiring loops, outputs first. */
  method Rewire(e: ProcessEditor, newOp: OpId, outs: map<string, Port>, ins: map<string, Port>) returns (unmatched: nat)
    requires e.Valid() && newOp in e.ports && Rejoinable(e.partner, newOp, outs, ins)
    requires (forall n :: n in outs ==> outs[n].owner in e.ports) && (forall n :: n in ins ==> ins[n].owner in e.ports)
    modifies e`partner, e`locked
    ensures var mOut, mIn := Matched(outs, old(e.Names(newOp, Out))), Matched(ins, old(e.Names(newOp, In)));
      && Rewires(e.partner, old(e.partner), newOp, outs, mOut, ins, mIn)
      && e.locked == old(e.locked) - Rejoined(outs, newOp, Out, mOut) - Rejoined(ins, newOp, In, mIn)
      && unmatched == |outs.Keys - mOut| + |ins.Keys - mIn|
    ensures e.Valid()
    ensures unchanged(e`ports, e`subprocessCount, e`units, e`unitOf, e`dialogs, e`nextOp)
  {
    ghost var base := e.partner;
    var outMisses, inMisses;
    ghost var outOrder, inOrder;
    outMisses, outOrder := ReconnectOutputs(e, newOp, outs, ins);
    inMisses, inOrder := ReconnectInputs(e, newOp, ins, base, outs, outOrder);
    unmatched := outMisses + inMisses;
    RewiringOutcome(base, newOp, outs, ins, e.Names(newOp, Out), outOrder, e.Names(newOp, In), inOrder);
    RewiresWired(e.partner, base, newOp, outs, Matched(outs, e.Names(newOp, Out)), ins, Matched(ins, e.Names(newOp, In)), e.ports);
  }

  /** Lines 147-149 of `replace`: the failure count is shown when it is positive. */
  method Report(e: ProcessEditor, failed: nat)
    requires e.Valid()
    modifies e`dialogs
    ensures e.dialogs == old(e.dialogs) + Warning(failed)
    ensures e.Valid()
    ensures unchanged(e`ports, e`subprocessCount, e`units, e`unitOf, e`partner, e`locked, e`nextOp)
  {
    if failed > 0 {
      e.Show(ConnectionsNotRestored(failed));
    }
  }

  /** The dialogs `replace` ends with: the "op_replaced_failed_connections_restored"
      warning carrying the failure count, shown only when that count is positive. */
  function Warning(failed: nat): (r: seq<Dialog>)
    ensures r == [] <==> failed == 0
    ensures forall d :: d in r ==> d == ConnectionsNotRestored(failed)
  {
    if failed > 0 then [ConnectionsNotRestored(failed)] else []
  }

  /** Lines 99-150 of `replace`, once the connections of `sel` are recorded and
      cut: the operator is moved into place, its connections are re-made, and the
      failures of both, when there are any, are reported. */
  method ReplaceDetached(e: ProcessEditor, sel: OpId, newOp: OpId, outs: map<string, Port>, ins: map<string, Port>,
                         misses: StealMisses) returns (failed: nat)
    requires e.Valid()
    requires sel in e.unitOf && newOp !in e.unitOf && sel != newOp
    requires forall u :: u in e.units && u.owner == newOp ==> e.units[u] == []
    requires newOp in e.ports && Rejoinable(e.partner, newOp, outs, ins)
    requires (forall n :: n in outs ==> outs[n].owner in e.ports) && (forall n :: n in ins ==> ins[n].owner in e.ports)
    modifies e`units, e`unitOf, e`partner, e`locked, e`dialogs
    ensures var n, parent := CommonSubprocesses(old(e.subprocessCount), sel, newOp), old(e.unitOf)[sel];
      && parent in old(e.units) && sel in old(e.units)[parent]
      && var placed: seq<OpId> := old(e.units)[parent][IndexOf(old(e.units)[parent], sel) := newOp];
      && var mOut, mIn := Matched(outs, old(e.Names(newOp, Out))), Matched(ins, old(e.Names(newOp, In)));
      && e.units == Transferred(old(e.units), sel, newOp, n)[parent := placed]
      && e.unitOf == (MovedAll(old(e.unitOf), sel, newOp, n) - {sel})[newOp := parent]
      && Rewires(e.partner, old(e.partner), newOp, outs, mOut, ins, mIn)
      && e.locked == old(e.locked) - Rejoined(outs, newOp, Out, mOut) - Rejoined(ins, newOp, In, mIn)
      && failed == StealTotal(misses, sel, newOp, n) + |outs.Keys - mOut| + |ins.Keys - mIn|
    ensures e.dialogs == old(e.dialogs) + Warning(failed)
    ensures e.Valid()
    ensures unchanged(e`ports, e`subprocessCount, e`nextOp)
  {
    failed := Reposition(e, sel, newOp, misses);
    var unmatched := Rewire(e, newOp, outs, ins);
    failed := failed + unmatched;
    Report(e, failed);
  }

  /** What `replace` leaves when the first selected operator `sel` sits in a
      subprocess: starting from the connections `partner0`, the locks `locked0`, the
      subprocess lists `units0`, the placement `unitOf0` and the subprocess counts
      `chains`, with `sel` having the port names `outNames`/`inNames` and the detached
      `newOp` the names `newOuts`/`newIns`, the result is the connection table
      `partner`, the locks `locked`, the lists `units`, the placement `unitOf` and
      the failure count `failed`:
      - the connections of `sel` are gone and exactly the recorded ones whose port
        name `newOp` has are re-made on `newOp`; every other connection is kept;
      - both ends of every recorded connection were locked, and only the ends of
        the re-made ones are unlocked again;
      - the children of the common subprocesses moved to `newOp`, which took the
        index of `sel` in the same subprocess, and `sel` left the process;
      - the count is the steal failures plus the recorded names `newOp` lacks. */
  ghost predicate Replaced(partner0: map<Port, Port>, locked0: set<Port>, units0: map<UnitId, seq<OpId>>,
                           unitOf0: map<OpId, UnitId>, chains: map<OpId, nat>,
                           sel: OpId, outNames: seq<string>, inNames: seq<string>,
                           newOp: OpId, newOuts: seq<string>, newIns: seq<string>, misses: StealMisses,
                           partner: map<Port, Port>, locked: set<Port>, units: map<UnitId, seq<OpId>>,
                           unitOf: map<OpId, UnitId>, failed: nat)
  {
    && sel in unitOf0 && unitOf0[sel] in units0 && sel in units0[unitOf0[sel]]
    && var outs, ins := Recorded(partner0, sel, Out, outNames), Recorded(partner0, sel, In, inNames);
    && var mOut, mIn := Matched(outs, newOuts), Matched(ins, newIns);
    && var n, parent := CommonSubprocesses(chains, sel, newOp), unitOf0[sel];
    && var placed: seq<OpId> := units0[parent][IndexOf(units0[parent], sel) := newOp];
    && Rewires(partner, Detach(partner0, sel, outNames, inNames), newOp, outs, mOut, ins, mIn)
    && locked == locked0 + Ends(sel, Out, outs) + Ends(sel, In, ins)
                 - Rejoined(outs, newOp, Out, mOut) - Rejoined(ins, newOp, In, mIn)
    && units == Transferred(units0, sel, newOp, n)[parent := placed]
    && unitOf == (MovedAll(unitOf0, sel, newOp, n) - {sel})[newOp := parent]
    && failed == StealTotal(misses, sel, newOp, n) + |outs.Keys - mOut| + |ins.Keys - mIn|
  }

  /** After `replace`, the new operator holds the index the selected one had in
      the subprocess it sat in, every other entry of that list is as before, and the
      selected operator sits nowhere. */
  lemma ReplacedPosition(partner0: map<Port, Port>, locked0: set<Port>, units0: map<UnitId, seq<OpId>>,
                         unitOf0: map<OpId, UnitId>, chains: map<OpId, nat>,
                         sel: OpId, outNames: seq<string>, inNames: seq<string>,
                         newOp: OpId, newOuts: seq<string>, newIns: seq<string>, misses: StealMisses,
                         partner: map<Port, Port>, locked: set<Port>, units: map<UnitId, seq<OpId>>,
                         unitOf: map<OpId, UnitId>, failed: nat)
    requires Replaced(partner0, locked0, units0, unitOf0, chains, sel, outNames, inNames, newOp, newOuts, newIns, misses,
                      partner, locked, units, unitOf, failed)
    requires sel != newOp
    ensures var parent := unitOf0[sel];
      var i := IndexOf(units0[parent], sel);
      && parent in units && |units[parent]| == |units0[parent]| && units[parent][i] == newOp
      && (forall k :: 0 <= k < |units[parent]| && k != i ==> units[parent][k] == units0[parent][k])
      && sel !in unitOf && newOp in unitOf && unitOf[newOp] == parent
  {
  }

  /** ReplaceOperatorMenu.replace: the first selected operator `sel`, when it sits
      in a subprocess, is replaced by the detached operator `newOp`. Its connections
      are recorded and locked, then cut; its children move to `newOp` when both are
      chains; `newOp` takes its index in its subprocess; every recorded connection
      whose port name `newOp` also has is re-made and both ends unlocked; the rest
      stay locked, and the count of steal failures and unmatched names, when
      positive, is shown. Nothing is rolled back. */
  method Replace(e: ProcessEditor, newOp: OpId, misses: StealMisses) returns (failed: nat)
    requires e.Valid() && e.Detached(newOp)
    modifies e`partner, e`locked, e`units, e`unitOf, e`dialogs
    ensures e.Valid()
    ensures old(e.selection == [] || e.selection[0] !in e.unitOf) ==>
      && e.partner == old(e.partner) && e.locked == old(e.locked)
      && e.units == old(e.units) && e.unitOf == old(e.unitOf) && failed == 0
    ensures old(e.selection != [] && e.selection[0] in e.unitOf) ==>
      var sel := old(e.selection[0]);
      Replaced(old(e.partner), old(e.locked), old(e.units), old(e.unitOf), old(e.subprocessCount),
               sel, old(e.Names(sel, Out)), old(e.Names(sel, In)), newOp, old(e.Names(newOp, Out)), old(e.Names(newOp, In)),
               misses, e.partner, e.locked, e.units, e.unitOf, failed)
    ensures e.dialogs == old(e.dialogs) + Warning(failed)
  {
    if e.selection == [] {
      return 0;
    }
    var sel := e.selection[0];
    if sel !in e.unitOf {
      return 0;
    }
    assert sel in e.ports;
    ghost var newOuts, newIns, n := e.Names(newOp, Out), e.Names(newOp, In), CommonSubprocesses(e.subprocessCount, sel, newOp);
    var outs, ins := Snapshot(e, sel, newOp);
    assert e.Names(newOp, Out) == newOuts && e.Names(newOp, In) == newIns;
    assert CommonSubprocesses(e.subprocessCount, sel, newOp) == n;
    failed := ReplaceDetached(e, sel, newOp, outs, ins, misses);
    assert failed == StealTotal(misses, sel, newOp, n) + |outs.Keys - Matched(outs, newOuts)| + |ins.Keys - Matched(ins, newIns)|;
  }

  /** ReplaceOperatorMenu.performAction: the operator service builds an operator
      from `description` and the selection is replaced by it; when the description
      cannot be instantiated, the "cannot_instantiate" error naming it is shown and
      the process is left as it was. */
  method PerformAction(e: ProcessEditor, description: OperatorDescription, misses: StealMisses) returns (failed: nat)
    requires e.Valid()
    modifies e`ports, e`subprocessCount, e`units, e`nextOp, e`unitOf, e`partner, e`locked, e`dialogs
    ensures e.Valid()
    ensures !description.instantiable ==>
      && e.dialogs == old(e.dialogs) + [CannotInstantiate(description.name)]
      && unchanged(e`ports, e`subprocessCount, e`units, e`nextOp, e`unitOf, e`partner, e`locked)
      && failed == 0
    ensures description.instantiable ==>
      var op := old(e.nextOp);
      && op !in old(e.ports) && e.nextOp == op + 1
      && e.ports == old(e.ports)[op := PortNames(description.inputs, description.outputs)]
      && e.subprocessCount == WithChain(old(e.subprocessCount), op, description.subprocesses)
      && e.dialogs == old(e.dialogs) + Warning(failed)
      && (old(e.selection == [] || e.selection[0] !in e.unitOf) ==>
            && e.Detached(op) && unchanged(e`unitOf, e`partner, e`locked) && failed == 0
            && e.units == WithUnits(old(e.units), op, description.subprocesses))
      && (old(e.selection != [] && e.selection[0] in e.unitOf) ==>
            var sel := old(e.selection[0]);
            Replaced(old(e.partner), old(e.locked), WithUnits(old(e.units), op, description.subprocesses), old(e.unitOf),
                     WithChain(old(e.subprocessCount), op, description.subprocesses),
                     sel, old(e.Names(sel, Out)), old(e.Names(sel, In)), op, description.outputs, description.inputs,
                     misses, e.partner, e.locked, e.units, e.unitOf, failed))
  {
    var created := e.CreateOperator(description);
    if created.None? {
      e.Show(CannotInstantiate(description.name));
      return 0;
    }
    assert e.Names(created.value, Out) == description.outputs && e.Names(created.value, In) == description.inputs;
    failed := Replace(e, created.value, misses);
  }
}
