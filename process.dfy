/** The in-memory process the replace action edits, and the framework operations
    it calls: operators with named input and output ports, operator chains with
    numbered subprocesses (execution units), each an ordered operator list, the
    connection table, the port lock flags, the GUI selection and the dialogs shown. */
module Process {
  import opened OperatorLists
  import opened Ports

  datatype Option<T> = None | Some(value: T)

  /** Subprocess `index` of the operator chain `owner`. */
  datatype UnitId = UnitId(owner: OpId, index: nat)

  /** What the operator service needs to build an operator: its port names, its
      number of subprocesses if it is a chain, and whether building it succeeds. */
  datatype OperatorDescription = OperatorDescription(
    name: string,
    inputs: seq<string>,
    outputs: seq<string>,
    subprocesses: Option<nat>,
    instantiable: bool)

  /** The input and output port names of an operator. */
  datatype PortNames = PortNames(inputs: seq<string>, outputs: seq<string>)

  /** How many inner connections the framework fails to restore when one
      subprocess steals the operators of another, for the pairs where it fails at all. */
  type StealMisses = map<(UnitId, UnitId), nat>

  /** The messages the replace action can show. */
  datatype Dialog =
    | CannotInstantiate(operatorName: string)
    | ConnectionsNotRestored(count: nat)

  /** The subprocesses are exactly those of the chains; every operator of a
      subprocess list knows it sits there and no other operator claims to, no
      operator sits in one of its own subprocesses, and each list holds an
      operator once. */
  ghost predicate Nested(units: map<UnitId, seq<OpId>>, unitOf: map<OpId, UnitId>, chains: map<OpId, nat>)
  {
    && (forall u :: u in units ==> u.owner in chains && u.index < chains[u.owner])
    && (forall op, i :: op in chains && 0 <= i < chains[op] ==> UnitId(op, i) in units)
    && (forall op :: op in unitOf ==> unitOf[op] in units && op in units[unitOf[op]])
    && (forall op :: op in unitOf ==> unitOf[op].owner != op)
    && (forall u, op :: u in units && op in units[u] ==> op in unitOf && unitOf[op] == u)
    && (forall u :: u in units ==> NoDup(units[u]))
  }

  /** The `count` subprocesses of a newly built chain `op`, all empty. */
  function EmptyUnits(op: OpId, count: nat): (r: map<UnitId, seq<OpId>>)
    ensures forall u :: u in r <==> u.owner == op && u.index < count
    ensures forall u :: u in r ==> r[u] == []
  {
    map i | 0 <= i < count :: UnitId(op, i) := []
  }

  /** The subprocess counts once a newly built operator `op` is registered: a
      chain gets its count, any other operator none. */
  function WithChain(chains: map<OpId, nat>, op: OpId, subprocesses: Option<nat>): map<OpId, nat>
  {
    if subprocesses.Some? then chains[op := subprocesses.value] else chains
  }

  /** The subprocess lists once a newly built operator `op` is registered: a
      chain brings its empty subprocesses, any other operator none. */
  function WithUnits(units: map<UnitId, seq<OpId>>, op: OpId, subprocesses: Option<nat>): map<UnitId, seq<OpId>>
  {
    if subprocesses.Some? then units + EmptyUnits(op, subprocesses.value) else units
  }

  /** Giving a new chain `op` its `count` empty subprocesses keeps the nesting intact. */
  lemma AddEmptyUnits(units: map<UnitId, seq<OpId>>, unitOf: map<OpId, UnitId>, chains: map<OpId, nat>,
                      op: OpId, count: nat)
    requires Nested(units, unitOf, chains) && op !in chains && op !in unitOf
    ensures Nested(units + EmptyUnits(op, count), unitOf, chains[op := count])
    ensures forall u :: u in units + EmptyUnits(op, count) && u.owner == op ==> (units + EmptyUnits(op, count))[u] == []
    ensures forall u :: u in units ==> u in units + EmptyUnits(op, count) && (units + EmptyUnits(op, count))[u] == units[u]
  {
    var newUnits := EmptyUnits(op, count);
    var units' := units + newUnits;
    var chains' := chains[op := count];
    forall o, i | o in chains' && 0 <= i < chains'[o] ensures UnitId(o, i) in units' {
      if o == op {
        assert UnitId(op, i) in newUnits;
      }
    }
    forall u | u in units' ensures NoDup(units'[u]) {
      if u in newUnits {
        assert units'[u] == [];
      } else {
        assert units'[u] == units[u];
      }
    }
    forall u, o | u in units' && o in units'[u] ensures o in unitOf && unitOf[o] == u {
      assert u !in newUnits;
      assert units'[u] == units[u];
    }
  }

  /** Inserting an operator that sits nowhere into a subprocess list keeps the nesting intact. */
  lemma InsertKeepsNesting(units: map<UnitId, seq<OpId>>, unitOf: map<OpId, UnitId>, chains: map<OpId, nat>,
                           op: OpId, u: UnitId, index: nat)
    requires Nested(units, unitOf, chains) && op !in unitOf
    requires u in units && index <= |units[u]| && u.owner != op
    ensures Nested(units[u := InsertAt(units[u], index, op)], unitOf[op := u], chains)
  {
    assert op !in units[u];
    InsertedMembers(units[u], index, op);
  }

  /** Taking an operator out of the list it sits in keeps the nesting intact. */
  lemma RemoveKeepsNesting(units: map<UnitId, seq<OpId>>, unitOf: map<OpId, UnitId>, chains: map<OpId, nat>,
                           op: OpId, i: nat)
    requires Nested(units, unitOf, chains) && op in unitOf
    requires i < |units[unitOf[op]]| && units[unitOf[op]][i] == op
    ensures var u := unitOf[op];
      Nested(units[u := RemoveAt(units[u], i)], unitOf - {op}, chains)
  {
    var u := unitOf[op];
    var r := RemoveAt(units[u], i);
    RemovedMembers(units[u], i);
    var units', unitOf' := units[u := r], unitOf - {op};
    forall o | o in unitOf' ensures unitOf'[o] in units' && o in units'[unitOf'[o]] {
      assert o in units[unitOf[o]];
    }
    forall v, o | v in units' && o in units'[v] ensures o in unitOf' && unitOf'[o] == v {
      assert o in units[v];
    }
  }

  /** getExecutionUnit() after the operators of `from` moved to `into`. */
  function Moved(unitOf: map<OpId, UnitId>, from: UnitId, into: UnitId): (r: map<OpId, UnitId>)
    ensures r.Keys == unitOf.Keys
    ensures forall op :: op in r ==> r[op] == if unitOf[op] == from then into else unitOf[op]
  {
    map op | op in unitOf :: if unitOf[op] == from then into else unitOf[op]
  }

  /** Appending the operators of `from` to `into` and emptying `from` keeps the
      nesting intact, provided the owner of `into` is not among them. */
  lemma StealKeepsNesting(units: map<UnitId, seq<OpId>>, unitOf: map<OpId, UnitId>, chains: map<OpId, nat>,
                          into: UnitId, from: UnitId)
    requires Nested(units, unitOf, chains) && into in units && from in units && into != from
    requires into.owner !in units[from]
    ensures Nested(units[into := units[into] + units[from]][from := []], Moved(unitOf, from, into), chains)
  {
    forall x | x in units[into] ensures x !in units[from] {
      assert unitOf[x] == into;
    }
    AppendedMembers(units[into], units[from]);
  }

  /** Every operator has an identity below `nextOp`; chains and operators that sit
      in a subprocess are operators. */
  ghost predicate Registered(ports: map<OpId, PortNames>, chains: map<OpId, nat>, unitOf: map<OpId, UnitId>, nextOp: OpId)
  {
    && (forall op :: op in ports ==> op < nextOp)
    && chains.Keys <= ports.Keys
    && unitOf.Keys <= ports.Keys
  }

  /** Connections pair ports of existing operators. */
  ghost predicate Wired(partner: map<Port, Port>, ports: map<OpId, PortNames>)
  {
    Paired(partner) && forall p :: p in partner ==> p.owner in ports
  }

  /** Re-made connections join the new operator to recorded partners on existing
      operators, so the table still pairs ports of existing operators only. */
  lemma RewiresWired(r: map<Port, Port>, base: map<Port, Port>, newOp: OpId, outs: map<string, Port>, mOut: set<string>,
                     ins: map<string, Port>, mIn: set<string>, ports: map<OpId, PortNames>)
    requires Rewires(r, base, newOp, outs, mOut, ins, mIn) && newOp in ports
    requires forall p :: p in base ==> p.owner in ports
    requires forall n :: n in outs ==> outs[n].owner in ports
    requires forall n :: n in ins ==> ins[n].owner in ports
    ensures Wired(r, ports)
  {
    forall p | p in r ensures p.owner in ports {
      if p !in base && !Rejoining(p, newOp, mOut, mIn) {
        assert r[r[p]] == p;
      }
    }
  }

  /** Cutting an operator's connections keeps the table pairing ports of existing
      operators, and the recorded partners are ports of existing operators. */
  lemma DetachedWired(partner: map<Port, Port>, ports: map<OpId, PortNames>, op: OpId, outNames: seq<string>, inNames: seq<string>)
    requires Wired(partner, ports)
    ensures Wired(Detach(partner, op, outNames, inNames), ports)
    ensures forall n :: n in Recorded(partner, op, Out, outNames) ==> Recorded(partner, op, Out, outNames)[n].owner in ports
    ensures forall n :: n in Recorded(partner, op, In, inNames) ==> Recorded(partner, op, In, inNames)[n].owner in ports
  {
    IsolateFrees(partner, op, Out, outNames);
    IsolateFrees(Isolate(partner, op, Out, outNames), op, In, inNames);
    RecordedPartners(partner, op, Out, outNames);
    RecordedPartners(partner, op, In, inNames);
  }

  /** How many connections inside the moved operators stealOperatorsFrom reports
      it could not restore: framework code outside this model, supplied by `misses`. */
  function StealFailures(misses: StealMisses, into: UnitId, from: UnitId): nat
  {
    if (into, from) in misses then misses[(into, from)] else 0
  }

  class ProcessEditor {
    /** The input and output port names of every operator object. */
    var ports: map<OpId, PortNames>
    /** Number of subprocesses of every operator chain; other operators are absent. */
    var subprocessCount: map<OpId, nat>
    /** The ordered operator list of every subprocess. */
    var units: map<UnitId, seq<OpId>>
    /** The subprocess an operator sits in; absent for the root and for removed operators. */
    var unitOf: map<OpId, UnitId>
    /** The connection table. */
    var partner: map<Port, Port>
    /** The ports currently locked. */
    var locked: set<Port>
    /** The operators selected in the GUI, first one first. */
    var selection: seq<OpId>
    /** Every message shown to the user, oldest first. */
    var dialogs: seq<Dialog>
    /** The identity the next operator built will get. */
    var nextOp: OpId

    ghost predicate Valid()
      reads this`ports, this`subprocessCount, this`units, this`unitOf, this`partner, this`nextOp
    {
      && Registered(ports, subprocessCount, unitOf, nextOp)
      && Nested(units, unitOf, subprocessCount)
      && Wired(partner, ports)
    }

    /** An operator that exists but is not yet part of the process: it sits in no
        subprocess, none of its ports is connected and its own subprocesses are empty. */
    ghost predicate Detached(op: OpId)
      reads this`ports, this`unitOf, this`partner, this`units
    {
      && op in ports && op !in unitOf
      && (forall p :: p in partner ==> p.owner != op)
      && (forall u :: u in units && u.owner == op ==> units[u] == [])
    }

    /** Port names of one kind on an operator. */
    function Names(op: OpId, dir: Direction): seq<string>
      reads this`ports
      requires op in ports
    {
      if dir == In then ports[op].inputs else ports[op].outputs
    }

    /** Ports.getPortByName: the port of that kind and name on `op`, if it has one. */
    function PortByName(op: OpId, dir: Direction, name: string): (r: Option<Port>)
      reads this`ports
      requires op in ports
      ensures r.Some? <==> name in Names(op, dir)
      ensures r.Some? ==> r.value == Port(op, dir, name)
    {
      if name in Names(op, dir) then Some(Port(op, dir, name)) else None
    }

    /** OperatorService.createOperator: a fresh, detached operator with the described
        ports and subprocesses, or None when the description cannot be instantiated. */
    method CreateOperator(description: OperatorDescription) returns (created: Option<OpId>)
      requires Valid()
      modifies this`ports, this`subprocessCount, this`units, this`nextOp
      ensures Valid()
      ensures created.None? <==> !description.instantiable
      ensures created.None? ==> unchanged(this)
      ensures unchanged(this`unitOf, this`partner, this`locked, this`dialogs, this`selection)
      ensures created.Some? ==>
        && created.value == old(nextOp) && created.value !in old(ports) && nextOp == old(nextOp) + 1
        && Detached(created.value)
        && ports == old(ports)[created.value := PortNames(description.inputs, description.outputs)]
        && subprocessCount == WithChain(old(subprocessCount), created.value, description.subprocesses)
        && units == WithUnits(old(units), created.value, description.subprocesses)
    {
      if !description.instantiable {
        return None;
      }
      var op := nextOp;
      assert op !in ports && op !in subprocessCount && op !in unitOf;
      if description.subprocesses.Some? {
        AddEmptyUnits(units, unitOf, subprocessCount, op, description.subprocesses.value);
      }
      ports := ports[op := PortNames(description.inputs, description.outputs)];
      subprocessCount := WithChain(subprocessCount, op, description.subprocesses);
      units := WithUnits(units, op, description.subprocesses);
      nextOp := nextOp + 1;
      created := Some(op);
    }

    /** Port.lock() */
    method Lock(p: Port)
      modifies this`locked
      ensures locked == old(locked) + {p}
      ensures unchanged(this`ports, this`subprocessCount, this`units, this`unitOf, this`partner, this`dialogs, this`nextOp)
    {
      locked := locked + {p};
    }

    /** Port.unlock() */
    method Unlock(p: Port)
      modifies this`locked
      ensures locked == old(locked) - {p}
      ensures unchanged(this`ports, this`subprocessCount, this`units, this`unitOf, this`partner, this`dialogs, this`nextOp)
    {
      locked := locked - {p};
    }

    /** OutputPort.connectTo(InputPort), on two free ports. */
    method ConnectTo(source: Port, dest: Port)
      requires source.dir == Out && dest.dir == In
      requires source !in partner && dest !in partner
      modifies this`partner
      ensures partner == Connect(old(partner), source, dest)
      ensures unchanged(this`ports, this`subprocessCount, this`units, this`unitOf, this`locked, this`dialogs, this`nextOp)
    {
      partner := Connect(partner, source, dest);
    }

    /** Ports.disconnectAll() on the ports of one kind of `op`. */
    method DisconnectAll(op: OpId, dir: Direction)
      requires op in ports
      modifies this`partner
      ensures partner == Isolate(old(partner), op, dir, Names(op, dir))
      ensures unchanged(this`ports, this`subprocessCount, this`units, this`unitOf, this`locked, this`dialogs, this`nextOp)
    {
      partner := Isolate(partner, op, dir, Names(op, dir));
    }

    /** Operator.remove(): the operator leaves the list of the subprocess it sits
        in, from the first position that holds it, and no longer has a subprocess. */
    method RemoveOperator(op: OpId)
      requires op in unitOf && unitOf[op] in units && op in units[unitOf[op]]
      modifies this`units, this`unitOf
      ensures units == old(units)[old(unitOf)[op] := RemoveAt(old(units)[old(unitOf)[op]], IndexOf(old(units)[old(unitOf)[op]], op))]
      ensures unitOf == old(unitOf) - {op}
      ensures unchanged(this`ports, this`subprocessCount, this`partner, this`locked, this`dialogs, this`nextOp)
    {
      var u := unitOf[op];
      units := units[u := RemoveAt(units[u], IndexOf(units[u], op))];
      unitOf := unitOf - {op};
    }

    /** ExecutionUnit.addOperator(op, index): `op` is inserted into subprocess `u` at `index`. */
    method AddOperator(op: OpId, u: UnitId, index: nat)
      requires u in units && index <= |units[u]|
      modifies this`units, this`unitOf
      ensures units == old(units)[u := InsertAt(old(units)[u], index, op)]
      ensures unitOf == old(unitOf)[op := u]
      ensures unchanged(this`ports, this`subprocessCount, this`partner, this`locked, this`dialogs, this`nextOp)
    {
      units := units[u := InsertAt(units[u], index, op)];
      unitOf := unitOf[op := u];
    }

    /** ExecutionUnit.stealOperatorsFrom: the operators of `from` move, in order, to
        the end of `into`. How many inner connections the framework then fails to
        restore is not visible here; `misses` supplies that number. */
    method StealOperatorsFrom(into: UnitId, from: UnitId, misses: StealMisses) returns (failed: nat)
      requires into in units && from in units && into != from
      modifies this`units, this`unitOf
      ensures units == old(units)[into := old(units)[into] + old(units)[from]][from := []]
      ensures unitOf == Moved(old(unitOf), from, into)
      ensures failed == StealFailures(misses, into, from)
      ensures unchanged(this`ports, this`subprocessCount, this`partner, this`locked, this`dialogs, this`nextOp)
    {
      units := units[into := units[into] + units[from]][from := []];
      unitOf := Moved(unitOf, from, into);
      failed := StealFailures(misses, into, from);
    }

    /** SwingTools.showVerySimpleErrorMessage / showSimpleErrorMessage. */
    method Show(dialog: Dialog)
      modifies this`dialogs
      ensures dialogs == old(dialogs) + [dialog]
      ensures unchanged(this`ports, this`subprocessCount, this`units, this`unitOf, this`partner, this`locked, this`nextOp)
    {
      dialogs := dialogs + [dialog];
    }
  }
}
