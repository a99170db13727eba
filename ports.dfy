/** Ports and the connections between them, as `replace` sees them: a port is
    named, belongs to one operator and is an input or an output; a connected
    port has exactly one partner of the opposite kind. */
module Ports {
  import opened OperatorLists

  datatype Direction = In | Out

  /** A port is identified by its operator, its kind and its name. */
  datatype Port = Port(owner: OpId, dir: Direction, name: string)

  /** The connection table: each connected port maps to its partner, which is of
      the other kind and maps back. */
  predicate Paired(partner: map<Port, Port>)
  {
    forall p :: p in partner ==> partner[p] in partner && partner[partner[p]] == p && partner[p].dir != p.dir
  }

  /** OutputPort.connectTo(InputPort): the two ports become each other's partner. */
  function Connect(partner: map<Port, Port>, source: Port, dest: Port): map<Port, Port>
  {
    partner[source := dest][dest := source]
  }

  /** Connecting two free ports of opposite kinds keeps the table paired. */
  lemma ConnectKeepsPairing(partner: map<Port, Port>, a: Port, b: Port)
    requires Paired(partner) && a.dir != b.dir
    requires a !in partner && b !in partner
    ensures Paired(Connect(partner, a, b))
  {
    var r := Connect(partner, a, b);
    forall p | p in r ensures r[p] in r && r[r[p]] == p && r[p].dir != p.dir {
      if p != a && p != b {
        assert r[p] == partner[p];
        assert partner[p] != a && partner[p] != b;
      }
    }
  }

  /** Connecting two free ports adds exactly those two entries. */
  lemma ConnectAdds(r: map<Port, Port>, a: Port, b: Port)
    requires a != b && a !in r && b !in r
    ensures var c := Connect(r, a, b);
      && a in c && c[a] == b && b in c && c[b] == a
      && (forall p :: p in r ==> p in c && c[p] == r[p])
      && (forall p :: p in c ==> p in r || p == a || p == b)
  {
  }

  /** Whether `p` is one of the ports of kind `dir` named in `names` on operator `op`. */
  predicate OnPorts(p: Port, op: OpId, dir: Direction, names: seq<string>)
  {
    p.owner == op && p.dir == dir && p.name in names
  }

  /** Ports.disconnectAll(): every connection with an end among the listed ports of `op` is dropped. */
  function Isolate(partner: map<Port, Port>, op: OpId, dir: Direction, names: seq<string>): map<Port, Port>
  {
    map p | p in partner && !OnPorts(p, op, dir, names) && !OnPorts(partner[p], op, dir, names) :: partner[p]
  }

  /** After disconnectAll, every listed port of `op` is free and so is every port
      it was connected to; every other connection is kept, and the table stays paired. */
  lemma IsolateFrees(partner: map<Port, Port>, op: OpId, dir: Direction, names: seq<string>)
    requires Paired(partner)
    ensures var r := Isolate(partner, op, dir, names);
      && Paired(r)
      && (forall n :: n in names ==> Port(op, dir, n) !in r)
      && (forall n :: n in names && Port(op, dir, n) in partner ==> partner[Port(op, dir, n)] !in r)
      && (forall p :: p in r ==> p in partner && r[p] == partner[p])
      && (forall p :: p in partner ==> (p in r <==> !OnPorts(p, op, dir, names) && !OnPorts(partner[p], op, dir, names)))
  {
  }

  /** Both disconnectAll calls of `replace`: first the outputs of `op`, then its inputs. */
  function Detach(partner: map<Port, Port>, op: OpId, outNames: seq<string>, inNames: seq<string>): map<Port, Port>
  {
    Isolate(Isolate(partner, op, Out, outNames), op, In, inNames)
  }

  /** The snapshot `replace` takes of one side of an operator: the name of each
      connected port among `names`, mapped to the port at the other end. */
  function Recorded(partner: map<Port, Port>, op: OpId, dir: Direction, names: seq<string>): (rec: map<string, Port>)
    ensures forall n :: n in rec <==> n in names && Port(op, dir, n) in partner
    ensures forall n :: n in rec ==> rec[n] == partner[Port(op, dir, n)]
  {
    if names == [] then map[]
    else
      var last := names[|names| - 1];
      var rec, port := Recorded(partner, op, dir, names[..|names| - 1]), Port(op, dir, last);
      assert names == names[..|names| - 1] + [last];
      if port in partner then rec[last := partner[port]] else rec
  }

  /** The snapshot records exactly the connected ports among `names`; each recorded
      port is connected back to the port of that name, is of the other kind, and no
      two names share one. */
  lemma RecordedPartners(partner: map<Port, Port>, op: OpId, dir: Direction, names: seq<string>)
    requires Paired(partner)
    ensures var rec := Recorded(partner, op, dir, names);
      && (forall n :: n in rec <==> n in names && Port(op, dir, n) in partner)
      && (forall n :: n in rec ==> rec[n] in partner && partner[rec[n]] == Port(op, dir, n) && rec[n].dir != dir)
      && (forall m, n :: m in rec && n in rec && m != n ==> rec[m] != rec[n])
  {
    var rec := Recorded(partner, op, dir, names);
    forall m, n | m in rec && n in rec && m != n ensures rec[m] != rec[n] {
      assert partner[rec[m]] == Port(op, dir, m);
    }
  }

  /** Both ends of every recorded connection: the ports the snapshot locks. */
  function Ends(op: OpId, dir: Direction, rec: map<string, Port>): set<Port>
  {
    (set n | n in rec :: Port(op, dir, n)) + rec.Values
  }

  /** Taking one more port name into the snapshot: the name is recorded, with its
      partner, exactly when that port is connected. */
  lemma RecordedStep(partner: map<Port, Port>, op: OpId, dir: Direction, names: seq<string>, k: nat)
    requires k < |names|
    ensures var port := Port(op, dir, names[k]);
      Recorded(partner, op, dir, names[..k + 1]) ==
        if port in partner then Recorded(partner, op, dir, names[..k])[names[k] := partner[port]]
        else Recorded(partner, op, dir, names[..k])
  {
    assert names[..k + 1] == names[..k] + [names[k]];
    assert forall n :: n in names[..k + 1] <==> n in names[..k] || n == names[k];
  }

  /** Locking both ends of one more recorded connection. */
  lemma EndsStep(op: OpId, dir: Direction, rec: map<string, Port>, n: string, other: Port)
    requires n in rec ==> rec[n] == other
    ensures Ends(op, dir, rec[n := other]) == Ends(op, dir, rec) + {Port(op, dir, n), other}
  {
    var rec' := rec[n := other];
    assert rec'.Values == rec.Values + {other} by {
      forall q | q in rec'.Values ensures q in rec.Values + {other} {
        var m :| m in rec' && rec'[m] == q;
        if m != n {
          assert rec[m] == q;
        }
      }
      forall q | q in rec.Values ensures q in rec'.Values {
        var m :| m in rec && rec[m] == q;
        assert rec'[if m == n then n else m] == q;
      }
      assert rec'[n] == other;
    }
  }

  /** The ports the snapshot loop has locked after visiting `names`, in order:
      each connected port and its partner. */
  function Locked(partner: map<Port, Port>, op: OpId, dir: Direction, names: seq<string>): set<Port>
  {
    if names == [] then {}
    else
      var port := Port(op, dir, names[|names| - 1]);
      Locked(partner, op, dir, names[..|names| - 1]) + (if port in partner then {port, partner[port]} else {})
  }

  /** The ports the loop locks are exactly both ends of the connections it records. */
  lemma {:induction false} LockedEnds(partner: map<Port, Port>, op: OpId, dir: Direction, names: seq<string>)
    ensures Locked(partner, op, dir, names) == Ends(op, dir, Recorded(partner, op, dir, names))
  {
    if names != [] {
      var k := |names| - 1;
      assert names[..k + 1] == names;
      LockedEnds(partner, op, dir, names[..k]);
      RecordedStep(partner, op, dir, names, k);
      var port := Port(op, dir, names[k]);
      if port in partner {
        EndsStep(op, dir, Recorded(partner, op, dir, names[..k]), names[k], partner[port]);
      }
    }
  }

  /** The recorded names that also name a port of the replacement: the connections
      the rewiring re-makes. */
  function Matched(rec: map<string, Port>, names: seq<string>): (m: set<string>)
    ensures m <= rec.Keys
    ensures forall n :: n in rec ==> (n in m <==> n in names)
  {
    set n | n in rec && n in names
  }

  /** Both ends of every recorded connection named in `matched`, once re-made on
      `newOp`: the ports connected, and unlocked, by the rewiring. */
  function Rejoined(rec: map<string, Port>, newOp: OpId, dir: Direction, matched: set<string>): set<Port>
    requires matched <= rec.Keys
  {
    (set n | n in matched :: Port(newOp, dir, n)) + (set n | n in matched :: rec[n])
  }

  /** Re-making one more recorded connection unlocks both of its ends. */
  lemma RejoinedStep(rec: map<string, Port>, newOp: OpId, dir: Direction, matched: set<string>, n: string)
    requires matched <= rec.Keys && n in rec
    ensures Rejoined(rec, newOp, dir, matched + {n}) == Rejoined(rec, newOp, dir, matched) + {Port(newOp, dir, n), rec[n]}
  {
  }

  /** What the rewiring needs of one side's snapshot: the ports of `newOp` and the
      recorded partners are free, the partners are of the other kind and not on
      `newOp`, and no two names share a partner. */
  predicate Attachable(partner: map<Port, Port>, rec: map<string, Port>, newOp: OpId, dir: Direction)
  {
    && (forall n :: n in rec ==> Port(newOp, dir, n) !in partner && rec[n] !in partner)
    && (forall n :: n in rec ==> rec[n].dir != dir && rec[n].owner != newOp)
    && (forall m, n :: m in rec && n in rec && m != n ==> rec[m] != rec[n])
  }

  /** Whether `p` is a port of `newOp` whose name is among the re-made names of its side. */
  predicate Rejoining(p: Port, newOp: OpId, mOut: set<string>, mIn: set<string>)
  {
    p.owner == newOp && (if p.dir == Out then p.name in mOut else p.name in mIn)
  }

  /** `r` is the connection table `base` to which exactly these connections were
      added: for each name in `mOut`, the output port of that name on `newOp` to
      outs[name]; for each name in `mIn`, the input port of that name on `newOp` to
      ins[name]. */
  predicate Rewires(r: map<Port, Port>, base: map<Port, Port>, newOp: OpId,
                    outs: map<string, Port>, mOut: set<string>, ins: map<string, Port>, mIn: set<string>)
  {
    && mOut <= outs.Keys && mIn <= ins.Keys
    && Paired(r)
    && (forall p :: p in base ==> p in r && r[p] == base[p])
    && (forall n :: n in mOut ==> Port(newOp, Out, n) in r && r[Port(newOp, Out, n)] == outs[n])
    && (forall n :: n in mIn ==> Port(newOp, In, n) in r && r[Port(newOp, In, n)] == ins[n])
    && (forall p :: p in r && p !in base ==> Rejoining(p, newOp, mOut, mIn) || Rejoining(r[p], newOp, mOut, mIn))
  }

  /** What both sides of the rewiring need of the table they start from. */
  predicate Rejoinable(base: map<Port, Port>, newOp: OpId, outs: map<string, Port>, ins: map<string, Port>)
  {
    Paired(base) && Attachable(base, outs, newOp, Out) && Attachable(base, ins, newOp, In)
  }

  /** Before anything is re-made, the table is the one the rewiring starts from. */
  lemma RewiresNothing(base: map<Port, Port>, newOp: OpId, outs: map<string, Port>, ins: map<string, Port>)
    requires Paired(base)
    ensures Rewires(base, base, newOp, outs, {}, ins, {})
  {
  }

  /** A port of `newOp` or a recorded partner that is not yet re-made is still free. */
  lemma NotYetRejoined(r: map<Port, Port>, base: map<Port, Port>, newOp: OpId,
                       outs: map<string, Port>, mOut: set<string>, ins: map<string, Port>, mIn: set<string>,
                       dir: Direction, n: string)
    requires Rejoinable(base, newOp, outs, ins) && Rewires(r, base, newOp, outs, mOut, ins, mIn)
    requires if dir == Out then n in outs && n !in mOut else n in ins && n !in mIn
    ensures Port(newOp, dir, n) !in r
    ensures (if dir == Out then outs[n] else ins[n]) !in r
  {
  }

  /** Re-making the output connection of one more recorded name is one call of
      connectTo from the new operator's output port to the recorded input port, and
      keeps the table a rewiring of `base`. */
  lemma RejoinOutput(r: map<Port, Port>, base: map<Port, Port>, newOp: OpId,
                     outs: map<string, Port>, mOut: set<string>, ins: map<string, Port>, mIn: set<string>, n: string)
    requires Rejoinable(base, newOp, outs, ins) && Rewires(r, base, newOp, outs, mOut, ins, mIn)
    requires n in outs && n !in mOut
    ensures Port(newOp, Out, n) !in r && outs[n] !in r
    ensures Rewires(Connect(r, Port(newOp, Out, n), outs[n]), base, newOp, outs, mOut + {n}, ins, mIn)
  {
    NotYetRejoined(r, base, newOp, outs, mOut, ins, mIn, Out, n);
    var mine := Port(newOp, Out, n);
    ConnectKeepsPairing(r, mine, outs[n]);
    ConnectAdds(r, mine, outs[n]);
    var r' := Connect(r, mine, outs[n]);
    forall p | p in r' && p !in base
      ensures Rejoining(p, newOp, mOut + {n}, mIn) || Rejoining(r'[p], newOp, mOut + {n}, mIn)
    {
      if p != mine && p != outs[n] {
        assert Rejoining(p, newOp, mOut, mIn) || Rejoining(r[p], newOp, mOut, mIn);
      }
    }
  }

  /** Re-making the input connection of one more recorded name is one call of
      connectTo from the recorded output port to the new operator's input port, and
      keeps the table a rewiring of `base`. */
  lemma RejoinInput(r: map<Port, Port>, base: map<Port, Port>, newOp: OpId,
                    outs: map<string, Port>, mOut: set<string>, ins: map<string, Port>, mIn: set<string>, n: string)
    requires Rejoinable(base, newOp, outs, ins) && Rewires(r, base, newOp, outs, mOut, ins, mIn)
    requires n in ins && n !in mIn
    ensures Port(newOp, In, n) !in r && ins[n] !in r
    ensures Rewires(Connect(r, ins[n], Port(newOp, In, n)), base, newOp, outs, mOut, ins, mIn + {n})
  {
    NotYetRejoined(r, base, newOp, outs, mOut, ins, mIn, In, n);
    var mine := Port(newOp, In, n);
    ConnectKeepsPairing(r, ins[n], mine);
    ConnectAdds(r, ins[n], mine);
    var r' := Connect(r, ins[n], mine);
    forall p | p in r' && p !in base
      ensures Rejoining(p, newOp, mOut, mIn + {n}) || Rejoining(r'[p], newOp, mOut, mIn + {n})
    {
      if p != mine && p != ins[n] {
        assert Rejoining(p, newOp, mOut, mIn) || Rejoining(r[p], newOp, mOut, mIn);
      }
    }
  }

  /** No name is visited twice. */
  predicate Distinct(order: seq<string>)
  {
    forall i, j :: 0 <= i < j < |order| ==> order[i] != order[j]
  }

  /** `order` visits every name of `keys` once: one iteration order of a HashMap's entry set. */
  ghost predicate Lists(order: seq<string>, keys: set<string>)
  {
    Distinct(order) && forall n :: n in order <==> n in keys
  }

  /** The connection table after the rewiring loop of side `dir` has visited the
      recorded names of `order`: each visited name that is also a port name of
      `newOp` is reconnected to its recorded partner, the new operator's port
      being the source on the output side and the destination on the input side. */
  function Rejoin(partner: map<Port, Port>, newOp: OpId, dir: Direction, rec: map<string, Port>,
                  names: seq<string>, order: seq<string>): map<Port, Port>
  {
    if order == [] then partner
    else
      var n := order[|order| - 1];
      var t := Rejoin(partner, newOp, dir, rec, names, order[..|order| - 1]);
      if n in rec && n in names then
        if dir == Out then Connect(t, Port(newOp, Out, n), rec[n]) else Connect(t, rec[n], Port(newOp, In, n))
      else t
  }

  /** The ports the same loop unlocks: both ends of each connection it re-makes. */
  function Reopened(newOp: OpId, dir: Direction, rec: map<string, Port>, names: seq<string>, order: seq<string>): set<Port>
  {
    if order == [] then {}
    else
      var n := order[|order| - 1];
      Reopened(newOp, dir, rec, names, order[..|order| - 1])
        + (if n in rec && n in names then {Port(newOp, dir, n), rec[n]} else {})
  }

  /** The failures the same loop counts: one per visited name `newOp` has no port for. */
  function Misses(rec: map<string, Port>, names: seq<string>, order: seq<string>): nat
  {
    if order == [] then 0
    else
      var n := order[|order| - 1];
      Misses(rec, names, order[..|order| - 1]) + (if n in rec && n !in names then 1 else 0)
  }

  /** The visited names whose connection is re-made. */
  function Taken(rec: map<string, Port>, names: seq<string>, order: seq<string>): set<string>
  {
    set n | n in order && n in rec && n in names
  }

  /** The visited names whose connection is lost. */
  function Dropped(rec: map<string, Port>, names: seq<string>, order: seq<string>): set<string>
  {
    set n | n in order && n in rec && n !in names
  }

  /** A visit order without repeats stays without repeats when cut short, and its
      last name is not among the earlier ones. */
  lemma DistinctPrefix(order: seq<string>)
    requires Distinct(order) && order != []
    ensures Distinct(order[..|order| - 1])
    ensures order[|order| - 1] !in order[..|order| - 1]
  {
    var k := |order| - 1;
    forall i | 0 <= i < k ensures order[..k][i] != order[k] {
      assert order[..k][i] == order[i];
    }
  }

  /** Visiting one more name adds it to the re-made or to the lost names, as the
      port names of `newOp` decide. */
  lemma VisitStep(rec: map<string, Port>, names: seq<string>, order: seq<string>)
    requires order != []
    ensures var n, prefix := order[|order| - 1], order[..|order| - 1];
      && Taken(rec, names, order) == Taken(rec, names, prefix) + (if n in rec && n in names then {n} else {})
      && Dropped(rec, names, order) == Dropped(rec, names, prefix) + (if n in rec && n !in names then {n} else {})
  {
    var k := |order| - 1;
    assert order == order[..k] + [order[k]];
    assert forall m :: m in order <==> m in order[..k] || m == order[k];
  }

  /** The output loop, over any visit order without repeats, adds to `base` exactly
      the output connections of the names it has re-made. */
  lemma {:induction false} RejoinedOutputs(base: map<Port, Port>, newOp: OpId, outs: map<string, Port>,
                                           ins: map<string, Port>, names: seq<string>, order: seq<string>)
    requires Rejoinable(base, newOp, outs, ins) && Distinct(order)
    ensures Rewires(Rejoin(base, newOp, Out, outs, names, order), base, newOp, outs, Taken(outs, names, order), ins, {})
  {
    if order == [] {
      RewiresNothing(base, newOp, outs, ins);
    } else {
      DistinctPrefix(order);
      RejoinedOutputs(base, newOp, outs, ins, names, order[..|order| - 1]);
      RejoinedOutputStep(base, newOp, outs, ins, names, order);
    }
  }

  /** One more visit of the output loop keeps the table a rewiring of `base`. */
  lemma RejoinedOutputStep(base: map<Port, Port>, newOp: OpId, outs: map<string, Port>,
                           ins: map<string, Port>, names: seq<string>, order: seq<string>)
    requires Rejoinable(base, newOp, outs, ins) && Distinct(order) && order != []
    requires var prefix := order[..|order| - 1];
      Rewires(Rejoin(base, newOp, Out, outs, names, prefix), base, newOp, outs, Taken(outs, names, prefix), ins, {})
    ensures Rewires(Rejoin(base, newOp, Out, outs, names, order), base, newOp, outs, Taken(outs, names, order), ins, {})
  {
    var k := |order| - 1;
    var n, prefix := order[k], order[..k];
    DistinctPrefix(order);
    VisitStep(outs, names, order);
    var r0, m0 := Rejoin(base, newOp, Out, outs, names, prefix), Taken(outs, names, prefix);
    if n in outs && n in names {
      RejoinOutput(r0, base, newOp, outs, m0, ins, {}, n);
      assert Rejoin(base, newOp, Out, outs, names, order) == Connect(r0, Port(newOp, Out, n), outs[n]);
      assert Taken(outs, names, order) == m0 + {n};
    } else {
      assert Rejoin(base, newOp, Out, outs, names, order) == r0;
      assert Taken(outs, names, order) == m0;
    }
  }

  /** The input loop, run on a table to which output connections `mOut` were
      added, adds to it exactly the input connections of the names it has re-made. */
  lemma {:induction false} RejoinedInputs(r: map<Port, Port>, base: map<Port, Port>, newOp: OpId,
                                          outs: map<string, Port>, mOut: set<string>, ins: map<string, Port>,
                                          names: seq<string>, order: seq<string>)
    requires Rejoinable(base, newOp, outs, ins) && Rewires(r, base, newOp, outs, mOut, ins, {}) && Distinct(order)
    ensures Rewires(Rejoin(r, newOp, In, ins, names, order), base, newOp, outs, mOut, ins, Taken(ins, names, order))
  {
    if order == [] {
      assert Taken(ins, names, order) == {};
    } else {
      DistinctPrefix(order);
      RejoinedInputs(r, base, newOp, outs, mOut, ins, names, order[..|order| - 1]);
      RejoinedInputStep(r, base, newOp, outs, mOut, ins, names, order);
    }
  }

  /** One more visit of the input loop keeps the table a rewiring of `base`. */
  lemma RejoinedInputStep(r: map<Port, Port>, base: map<Port, Port>, newOp: OpId,
                          outs: map<string, Port>, mOut: set<string>, ins: map<string, Port>,
                          names: seq<string>, order: seq<string>)
    requires Rejoinable(base, newOp, outs, ins) && Distinct(order) && order != []
    requires var prefix := order[..|order| - 1];
      Rewires(Rejoin(r, newOp, In, ins, names, prefix), base, newOp, outs, mOut, ins, Taken(ins, names, prefix))
    ensures Rewires(Rejoin(r, newOp, In, ins, names, order), base, newOp, outs, mOut, ins, Taken(ins, names, order))
  {
    var k := |order| - 1;
    var n, prefix := order[k], order[..k];
    DistinctPrefix(order);
    VisitStep(ins, names, order);
    var r0, m0 := Rejoin(r, newOp, In, ins, names, prefix), Taken(ins, names, prefix);
    if n in ins && n in names {
      RejoinInput(r0, base, newOp, outs, mOut, ins, m0, n);
      assert Rejoin(r, newOp, In, ins, names, order) == Connect(r0, ins[n], Port(newOp, In, n));
      assert Taken(ins, names, order) == m0 + {n};
    } else {
      assert Rejoin(r, newOp, In, ins, names, order) == r0;
      assert Taken(ins, names, order) == m0;
    }
  }

  /** While the output loop has not visited `n`, the output port `n` of `newOp`
      and its recorded partner, an input port, are both free: connectTo may join them. */
  lemma OutputStillFree(base: map<Port, Port>, newOp: OpId, outs: map<string, Port>, ins: map<string, Port>,
                        names: seq<string>, order: seq<string>, n: string)
    requires Rejoinable(base, newOp, outs, ins) && Distinct(order) && n in outs && n !in order
    ensures var r := Rejoin(base, newOp, Out, outs, names, order);
      Port(newOp, Out, n) !in r && outs[n] !in r && outs[n].dir == In
  {
    RejoinedOutputs(base, newOp, outs, ins, names, order);
    var r := Rejoin(base, newOp, Out, outs, names, order);
    NotYetRejoined(r, base, newOp, outs, Taken(outs, names, order), ins, {}, Out, n);
  }

  /** While the input loop, run after the output loop, has not visited `n`, the
      recorded partner of input `n`, an output port, and the input port `n` of
      `newOp` are both free. */
  lemma InputStillFree(base: map<Port, Port>, newOp: OpId, outs: map<string, Port>, ins: map<string, Port>,
                       outNames: seq<string>, outOrder: seq<string>, inNames: seq<string>, inOrder: seq<string>, n: string)
    requires Rejoinable(base, newOp, outs, ins) && Distinct(outOrder) && Distinct(inOrder)
    requires n in ins && n !in inOrder
    ensures var r := Rejoin(Rejoin(base, newOp, Out, outs, outNames, outOrder), newOp, In, ins, inNames, inOrder);
      Port(newOp, In, n) !in r && ins[n] !in r && ins[n].dir == Out
  {
    var mOut := Taken(outs, outNames, outOrder);
    var r0 := Rejoin(base, newOp, Out, outs, outNames, outOrder);
    RejoinedOutputs(base, newOp, outs, ins, outNames, outOrder);
    RejoinedInputs(r0, base, newOp, outs, mOut, ins, inNames, inOrder);
    var r := Rejoin(r0, newOp, In, ins, inNames, inOrder);
    NotYetRejoined(r, base, newOp, outs, mOut, ins, Taken(ins, inNames, inOrder), In, n);
  }

  /** The ports a loop unlocks are both ends of the connections it re-makes. */
  lemma {:induction false} ReopenedRejoined(newOp: OpId, dir: Direction, rec: map<string, Port>,
                                            names: seq<string>, order: seq<string>)
    ensures Taken(rec, names, order) <= rec.Keys
    ensures Reopened(newOp, dir, rec, names, order) == Rejoined(rec, newOp, dir, Taken(rec, names, order))
  {
    if order != [] {
      var k := |order| - 1;
      var n, prefix := order[k], order[..k];
      VisitStep(rec, names, order);
      ReopenedRejoined(newOp, dir, rec, names, prefix);
      if n in rec && n in names {
        RejoinedStep(rec, newOp, dir, Taken(rec, names, prefix), n);
      }
    }
  }

  /** A loop without repeated visits counts each lost name once. */
  lemma {:induction false} MissesCounted(rec: map<string, Port>, names: seq<string>, order: seq<string>)
    requires Distinct(order)
    ensures Misses(rec, names, order) == |Dropped(rec, names, order)|
  {
    if order != [] {
      var k := |order| - 1;
      var n, prefix := order[k], order[..k];
      DistinctPrefix(order);
      VisitStep(rec, names, order);
      MissesCounted(rec, names, prefix);
      assert n !in Dropped(rec, names, prefix);
    }
  }

  /** Once a loop has visited every recorded name, it has re-made exactly the
      matched names and lost exactly the others, whatever the order. */
  lemma ListedOutcome(rec: map<string, Port>, names: seq<string>, order: seq<string>)
    requires Lists(order, rec.Keys)
    ensures Taken(rec, names, order) == Matched(rec, names)
    ensures Dropped(rec, names, order) == rec.Keys - Matched(rec, names)
  {
  }

  /** A table is determined by the connections added to `base`: two tables that
      both add exactly these connections are the same. */
  lemma RewiresUnique(r1: map<Port, Port>, r2: map<Port, Port>, base: map<Port, Port>, newOp: OpId,
                      outs: map<string, Port>, mOut: set<string>, ins: map<string, Port>, mIn: set<string>)
    requires Rewires(r1, base, newOp, outs, mOut, ins, mIn) && Rewires(r2, base, newOp, outs, mOut, ins, mIn)
    ensures r1 == r2
  {
    forall p | p in r1 ensures p in r2 && r2[p] == r1[p] {
      Included(r1, r2, base, newOp, outs, mOut, ins, mIn, p);
    }
    forall p | p in r2 ensures p in r1 {
      Included(r2, r1, base, newOp, outs, mOut, ins, mIn, p);
    }
  }

  lemma Included(r1: map<Port, Port>, r2: map<Port, Port>, base: map<Port, Port>, newOp: OpId,
                 outs: map<string, Port>, mOut: set<string>, ins: map<string, Port>, mIn: set<string>, p: Port)
    requires Rewires(r1, base, newOp, outs, mOut, ins, mIn) && Rewires(r2, base, newOp, outs, mOut, ins, mIn)
    requires p in r1
    ensures p in r2 && r2[p] == r1[p]
  {
    if p !in base && !Rejoining(p, newOp, mOut, mIn) {
      var q := r1[p];
      assert Rejoining(q, newOp, mOut, mIn);
      assert r1[q] == p && r2[q] == p;
    }
  }

  /** After both sides of `op` are recorded and disconnected, the rewiring may
      start: the recorded partners are free, and so are the ports of an operator
      `newOp` that had no connection. */
  lemma DetachedRejoinable(partner: map<Port, Port>, op: OpId, newOp: OpId, outNames: seq<string>, inNames: seq<string>)
    requires Paired(partner) && op != newOp
    requires forall p :: p in partner ==> p.owner != newOp
    ensures Rejoinable(Detach(partner, op, outNames, inNames), newOp,
                       Recorded(partner, op, Out, outNames), Recorded(partner, op, In, inNames))
  {
    var half := Isolate(partner, op, Out, outNames);
    var base := Detach(partner, op, outNames, inNames);
    IsolateFrees(partner, op, Out, outNames);
    IsolateFrees(half, op, In, inNames);
    var outs, ins := Recorded(partner, op, Out, outNames), Recorded(partner, op, In, inNames);
    RecordedPartners(partner, op, Out, outNames);
    RecordedPartners(partner, op, In, inNames);
    forall n | n in ins ensures ins[n] !in base {
      var mine := Port(op, In, n);
      if mine in half {
        assert half[mine] == ins[n];
      } else {
        assert OnPorts(ins[n], op, Out, outNames);
      }
    }
  }

  /** Both rewiring loops, run to the end in any HashMap order: the table gains
      exactly the connections of the matched names, both ends of those are
      unlocked, and each unmatched name is counted once. */
  lemma RewiringOutcome(base: map<Port, Port>, newOp: OpId, outs: map<string, Port>, ins: map<string, Port>,
                        outNames: seq<string>, outOrder: seq<string>, inNames: seq<string>, inOrder: seq<string>)
    requires Rejoinable(base, newOp, outs, ins) && Lists(outOrder, outs.Keys) && Lists(inOrder, ins.Keys)
    ensures var mOut, mIn := Matched(outs, outNames), Matched(ins, inNames);
      && Rewires(Rejoin(Rejoin(base, newOp, Out, outs, outNames, outOrder), newOp, In, ins, inNames, inOrder),
                 base, newOp, outs, mOut, ins, mIn)
      && Reopened(newOp, Out, outs, outNames, outOrder) == Rejoined(outs, newOp, Out, mOut)
      && Reopened(newOp, In, ins, inNames, inOrder) == Rejoined(ins, newOp, In, mIn)
      && Misses(outs, outNames, outOrder) == |outs.Keys - mOut|
      && Misses(ins, inNames, inOrder) == |ins.Keys - mIn|
  {
    ListedOutcome(outs, outNames, outOrder);
    ListedOutcome(ins, inNames, inOrder);
    RejoinedOutputs(base, newOp, outs, ins, outNames, outOrder);
    RejoinedInputs(Rejoin(base, newOp, Out, outs, outNames, outOrder), base, newOp, outs, Matched(outs, outNames),
                   ins, inNames, inOrder);
    ReopenedRejoined(newOp, Out, outs, outNames, outOrder);
    ReopenedRejoined(newOp, In, ins, inNames, inOrder);
    MissesCounted(outs, outNames, outOrder);
    MissesCounted(ins, inNames, inOrder);
  }

  /** The order in which the HashMaps hand out their entries does not change the
      resulting connection table. */
  lemma OrderIrrelevant(base: map<Port, Port>, newOp: OpId, outs: map<string, Port>, ins: map<string, Port>,
                        outNames: seq<string>, inNames: seq<string>,
                        outOrder1: seq<string>, inOrder1: seq<string>, outOrder2: seq<string>, inOrder2: seq<string>)
    requires Rejoinable(base, newOp, outs, ins)
    requires Lists(outOrder1, outs.Keys) && Lists(inOrder1, ins.Keys)
    requires Lists(outOrder2, outs.Keys) && Lists(inOrder2, ins.Keys)
    ensures Rejoin(Rejoin(base, newOp, Out, outs, outNames, outOrder1), newOp, In, ins, inNames, inOrder1)
         == Rejoin(Rejoin(base, newOp, Out, outs, outNames, outOrder2), newOp, In, ins, inNames, inOrder2)
  {
    RewiringOutcome(base, newOp, outs, ins, outNames, outOrder1, inNames, inOrder1);
    RewiringOutcome(base, newOp, outs, ins, outNames, outOrder2, inNames, inOrder2);
    RewiresUnique(Rejoin(Rejoin(base, newOp, Out, outs, outNames, outOrder1), newOp, In, ins, inNames, inOrder1),
                  Rejoin(Rejoin(base, newOp, Out, outs, outNames, outOrder2), newOp, In, ins, inNames, inOrder2),
                  base, newOp, outs, Matched(outs, outNames), ins, Matched(ins, inNames));
  }

  /** The partner of an unmatched name is not among the ports the rewiring
      unlocks: it stays locked. */
  lemma UnmatchedStaysLocked(base: map<Port, Port>, newOp: OpId, outs: map<string, Port>, ins: map<string, Port>,
                             mOut: set<string>, mIn: set<string>)
    requires Rejoinable(base, newOp, outs, ins) && mOut <= outs.Keys && mIn <= ins.Keys
    ensures forall n :: n in outs && n !in mOut ==>
      outs[n] !in Rejoined(outs, newOp, Out, mOut) && outs[n] !in Rejoined(ins, newOp, In, mIn)
    ensures forall n :: n in ins && n !in mIn ==>
      ins[n] !in Rejoined(outs, newOp, Out, mOut) && ins[n] !in Rejoined(ins, newOp, In, mIn)
  {
  }

  /** When the replacement has a port of every name the replaced operator has, on
      both sides, every recorded connection is re-made and the rewiring counts no
      failure. */
  lemma SharedNamesAllMatched(partner: map<Port, Port>, op: OpId, outNames: seq<string>, inNames: seq<string>,
                              newOuts: seq<string>, newIns: seq<string>)
    requires (forall n :: n in outNames ==> n in newOuts) && (forall n :: n in inNames ==> n in newIns)
    ensures var outs, ins := Recorded(partner, op, Out, outNames), Recorded(partner, op, In, inNames);
      && Matched(outs, newOuts) == outs.Keys && Matched(ins, newIns) == ins.Keys
      && |outs.Keys - Matched(outs, newOuts)| + |ins.Keys - Matched(ins, newIns)| == 0
  {
    var outs, ins := Recorded(partner, op, Out, outNames), Recorded(partner, op, In, inNames);
    assert outs.Keys - Matched(outs, newOuts) == {};
    assert ins.Keys - Matched(ins, newIns) == {};
  }
}
