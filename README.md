# Replace operator: a Dafny model

This project models the "replace operator" action of RapidMiner Studio's
operator context menu (`ReplaceOperatorMenu.performAction` and `replace`).
The action builds a new operator from an operator description and swaps it
for the first selected operator. The new operator takes the old one's place
in the same subprocess. Each connection of the old operator is re-made, by
port name, on the new operator. When both operators are chains, the new
chain's subprocesses take over the children of the old one's. The
connections that could not be restored are counted and reported in one
warning.

Four modules:

- `OperatorLists` holds the `List.indexOf`, `remove(index)` and `add(index, x)`
  operations on a subprocess's operator list, with lemmas about replacing
  one element in place.
- `Ports` holds ports and the connection table, a symmetric map from each
  connected port to its partner. It defines the snapshot the action takes
  (`Recorded`), the disconnection (`Detach`) and the rewiring loops as
  recursive functions (`Rejoin`, `Reopened`, `Misses`). Its lemmas state
  their outcome (`Rewires`, `Rejoined`) independently of the order in which
  a HashMap hands out its entries.
- `Process` holds the class `ProcessEditor`. Its fields are the process
  the action edits: port names, subprocess counts, subprocess lists, where
  each operator sits, connections, locked ports, selection, dialogs shown
  and the next operator identity. Its methods are the framework calls that
  `replace` makes (`lock`, `unlock`, `connectTo`, `disconnectAll`,
  `remove`, `addOperator`, `stealOperatorsFrom`, `createOperator`, the
  dialogs). `Valid()` is the process invariant: operators are registered,
  subprocess lists and `getExecutionUnit` agree, no list holds an operator
  twice, and connections pair ports of opposite kinds on existing operators.
- `ReplaceOperatorMenu` holds the action itself as methods with loops. Each
  method is proved against the functions of `Ports` and `ReplaceOperatorMenu`.
  `Replace` states the whole final state in terms of the initial one and
  keeps `Valid()`.

Three behaviours of the code a reader may not expect:

- Ports whose connection cannot be re-made are not unlocked. Only both ends
  of each re-made connection are unlocked (`UnmatchedStaysLocked`).
- An empty selection and a selected operator without a parent (the root)
  both return silently, with no dialog.
- The children of old subprocesses beyond the common count are not
  discarded. They stay in the old chain, which leaves the process with them.

## Model

| member | source | states |
|---|---|---|
| OperatorLists.IndexOf | src/main/java/com/rapidminer/gui/operatormenu/ReplaceOperatorMenu.java:112 | the index returned holds the operator, and no earlier index does (`List.indexOf`) |
| OperatorLists.RemoveAt | src/main/java/com/rapidminer/gui/operatormenu/ReplaceOperatorMenu.java:113 | removing at an index drops exactly that element and shifts the later ones down |
| OperatorLists.InsertAt | src/main/java/com/rapidminer/gui/operatormenu/ReplaceOperatorMenu.java:114 | inserting at an index puts the operator there and shifts the later ones up |
| OperatorLists.ReplacedInPlace | src/main/java/com/rapidminer/gui/operatormenu/ReplaceOperatorMenu.java:112-114 | remove at the old position, then insert at the same position, is overwriting that one position |
| OperatorLists.ReplacedKeepsOrder | src/main/java/com/rapidminer/gui/operatormenu/ReplaceOperatorMenu.java:112-114 | after that replacement the other operators of the subprocess are in their old order |
| OperatorLists.OverwrittenMembers | src/main/java/com/rapidminer/gui/operatormenu/ReplaceOperatorMenu.java:112-114 | the replaced list still holds each operator once |
| OperatorLists.RemovedMembers | src/main/java/com/rapidminer/gui/operatormenu/ReplaceOperatorMenu.java:113 | after `remove` the list holds exactly the other operators, each once |
| OperatorLists.InsertedMembers | src/main/java/com/rapidminer/gui/operatormenu/ReplaceOperatorMenu.java:114 | after `addOperator` the list holds the old operators and the new one, each once |
| OperatorLists.AppendedMembers | src/main/java/com/rapidminer/gui/operatormenu/ReplaceOperatorMenu.java:109 | appending the stolen operators to a subprocess keeps every operator once |
| Ports.Connect | src/main/java/com/rapidminer/gui/operatormenu/ReplaceOperatorMenu.java:120-131 | `connectTo` makes the two ports each other's partner; `ConnectKeepsPairing` and `ConnectAdds` state what that keeps |
| Ports.ConnectKeepsPairing | src/main/java/com/rapidminer/gui/operatormenu/ReplaceOperatorMenu.java:120 | `connectTo` on two free ports of opposite kinds keeps the table symmetric |
| Ports.ConnectAdds | src/main/java/com/rapidminer/gui/operatormenu/ReplaceOperatorMenu.java:120-131 | `connectTo` adds exactly the two new entries and keeps every other one |
| Ports.Isolate | src/main/java/com/rapidminer/gui/operatormenu/ReplaceOperatorMenu.java:96 | `disconnectAll` on one kind of ports of an operator: drops every connection with an end among them; `IsolateFrees` states the result |
| Ports.Detach | src/main/java/com/rapidminer/gui/operatormenu/ReplaceOperatorMenu.java:96-97 | the two `disconnectAll` calls, outputs first; `DetachedWired` and `DetachedRejoinable` state the result |
| Ports.IsolateFrees | src/main/java/com/rapidminer/gui/operatormenu/ReplaceOperatorMenu.java:96-97 | after `disconnectAll` the operator's ports and their old partners are free, and every other connection is kept |
| Ports.Recorded | src/main/java/com/rapidminer/gui/operatormenu/ReplaceOperatorMenu.java:80-95 | the snapshot holds exactly the connected port names, each mapped to its partner |
| Ports.RecordedPartners | src/main/java/com/rapidminer/gui/operatormenu/ReplaceOperatorMenu.java:82-95 | each recorded partner is connected back to the port of that name, is of the other kind, and no two names share one |
| Ports.Locked | src/main/java/com/rapidminer/gui/operatormenu/ReplaceOperatorMenu.java:85-93 | the ports the snapshot loops lock, one connected port and its partner at a time; `LockedEnds` equates them with both ends of the recorded connections |
| Ports.LockedEnds | src/main/java/com/rapidminer/gui/operatormenu/ReplaceOperatorMenu.java:82-95 | the ports the snapshot loops lock are exactly both ends of the recorded connections |
| Ports.Matched | src/main/java/com/rapidminer/gui/operatormenu/ReplaceOperatorMenu.java:118 | a recorded name is re-made exactly when the new operator has a port of that name |
| Ports.DetachedRejoinable | src/main/java/com/rapidminer/gui/operatormenu/ReplaceOperatorMenu.java:79-97 | after recording and disconnecting, the recorded partners and the new operator's ports are free, of the right kind, and distinct |
| Ports.RejoinOutput | src/main/java/com/rapidminer/gui/operatormenu/ReplaceOperatorMenu.java:118-122 | re-making one output connection adds exactly that connection |
| Ports.RejoinInput | src/main/java/com/rapidminer/gui/operatormenu/ReplaceOperatorMenu.java:129-133 | re-making one input connection adds exactly that connection |
| Ports.Rejoin | src/main/java/com/rapidminer/gui/operatormenu/ReplaceOperatorMenu.java:117-137 | the connection table after a rewiring loop has visited the names of a given order; `RejoinedOutputs`, `RejoinedInputs` and `OrderIrrelevant` state its outcome |
| Ports.Reopened | src/main/java/com/rapidminer/gui/operatormenu/ReplaceOperatorMenu.java:121-122 | the ports the same loop unlocks; `ReopenedRejoined` equates them with both ends of the re-made connections |
| Ports.Misses | src/main/java/com/rapidminer/gui/operatormenu/ReplaceOperatorMenu.java:124 | the failures the same loop counts; `MissesCounted` equates them with the visited names the new operator lacks |
| Ports.RejoinedOutputs | src/main/java/com/rapidminer/gui/operatormenu/ReplaceOperatorMenu.java:117-126 | the output loop, in any visit order, adds exactly the connections of the visited names the new operator has |
| Ports.RejoinedInputs | src/main/java/com/rapidminer/gui/operatormenu/ReplaceOperatorMenu.java:128-137 | the input loop does the same on the input side, after the output loop |
| Ports.ReopenedRejoined | src/main/java/com/rapidminer/gui/operatormenu/ReplaceOperatorMenu.java:121-122 | the ports unlocked are exactly both ends of the re-made connections |
| Ports.MissesCounted | src/main/java/com/rapidminer/gui/operatormenu/ReplaceOperatorMenu.java:124 | the failure counter of a loop equals the number of visited names the new operator lacks |
| Ports.ListedOutcome | src/main/java/com/rapidminer/gui/operatormenu/ReplaceOperatorMenu.java:117 | once every entry of the map is visited, the re-made names are the matched ones and the lost names are the rest |
| Ports.RewiringOutcome | src/main/java/com/rapidminer/gui/operatormenu/ReplaceOperatorMenu.java:116-137 | both loops together yield the table `Rewires` describes, unlock `Rejoined`, and count the unmatched names of both sides |
| Ports.OrderIrrelevant | src/main/java/com/rapidminer/gui/operatormenu/ReplaceOperatorMenu.java:117-137 | the resulting connections do not depend on the HashMap iteration order of either map |
| Ports.RewiresUnique | src/main/java/com/rapidminer/gui/operatormenu/ReplaceOperatorMenu.java:116-137 | `Rewires` pins the resulting connection table down uniquely |
| Ports.UnmatchedStaysLocked | src/main/java/com/rapidminer/gui/operatormenu/ReplaceOperatorMenu.java:123-125 | the partner of a connection that cannot be re-made is not unlocked by either loop |
| Ports.SharedNamesAllMatched | src/main/java/com/rapidminer/gui/operatormenu/ReplaceOperatorMenu.java:117-137 | when the new operator has every port name of the old one, every connection is re-made and no port failure is counted |
| Process.EmptyUnits | src/main/java/com/rapidminer/gui/operatormenu/ReplaceOperatorMenu.java:59 | a newly built chain has exactly its subprocesses, all empty |
| Process.WithChain | src/main/java/com/rapidminer/gui/operatormenu/ReplaceOperatorMenu.java:59 | the subprocess counts once a newly built operator is registered: its own count if it is a chain, no entry otherwise |
| Process.WithUnits | src/main/java/com/rapidminer/gui/operatormenu/ReplaceOperatorMenu.java:59 | the subprocess lists once a newly built operator is registered: its empty subprocesses if it is a chain, nothing otherwise |
| Process.AddEmptyUnits | src/main/java/com/rapidminer/gui/operatormenu/ReplaceOperatorMenu.java:59 | adding a new chain's empty subprocesses keeps the process invariant |
| Process.InsertKeepsNesting | src/main/java/com/rapidminer/gui/operatormenu/ReplaceOperatorMenu.java:114 | inserting an operator that sits nowhere keeps the process invariant |
| Process.RemoveKeepsNesting | src/main/java/com/rapidminer/gui/operatormenu/ReplaceOperatorMenu.java:113 | removing an operator from its subprocess keeps the process invariant |
| Process.Moved | src/main/java/com/rapidminer/gui/operatormenu/ReplaceOperatorMenu.java:109 | after a steal, operators of the source subprocess sit in the target and all others stay put |
| Process.StealKeepsNesting | src/main/java/com/rapidminer/gui/operatormenu/ReplaceOperatorMenu.java:109 | a steal keeps the process invariant when the target's owner is not among the moved operators |
| Process.RewiresWired | src/main/java/com/rapidminer/gui/operatormenu/ReplaceOperatorMenu.java:116-137 | after rewiring, connections still join ports of existing operators |
| Process.DetachedWired | src/main/java/com/rapidminer/gui/operatormenu/ReplaceOperatorMenu.java:96-97 | after disconnecting, connections still join ports of existing operators, and recorded partners belong to existing operators |
| Process.ProcessEditor.PortByName | src/main/java/com/rapidminer/gui/operatormenu/ReplaceOperatorMenu.java:118 | `getPortByName` finds a port exactly when the operator has one of that kind and name |
| Process.ProcessEditor.CreateOperator | src/main/java/com/rapidminer/gui/operatormenu/ReplaceOperatorMenu.java:59 | `createOperator` yields a fresh, detached operator with the described ports; the subprocess counts and lists gain exactly its own entries (`WithChain`, `WithUnits`: its empty subprocesses when it is a chain) and nothing else; or it fails and changes nothing |
| Process.ProcessEditor.Lock | src/main/java/com/rapidminer/gui/operatormenu/ReplaceOperatorMenu.java:85-86 | `lock` adds the port to the locked ones and changes nothing else |
| Process.ProcessEditor.Unlock | src/main/java/com/rapidminer/gui/operatormenu/ReplaceOperatorMenu.java:121-122 | `unlock` removes the port from the locked ones and changes nothing else |
| Process.ProcessEditor.ConnectTo | src/main/java/com/rapidminer/gui/operatormenu/ReplaceOperatorMenu.java:120 | `connectTo` pairs the two ports and changes nothing else |
| Process.ProcessEditor.DisconnectAll | src/main/java/com/rapidminer/gui/operatormenu/ReplaceOperatorMenu.java:96-97 | `disconnectAll` drops every connection of the operator's ports of one kind |
| Process.ProcessEditor.RemoveOperator | src/main/java/com/rapidminer/gui/operatormenu/ReplaceOperatorMenu.java:113 | `remove` takes the operator out of its subprocess's list and off `getExecutionUnit` |
| Process.ProcessEditor.AddOperator | src/main/java/com/rapidminer/gui/operatormenu/ReplaceOperatorMenu.java:114 | `addOperator` inserts the operator into the subprocess at the index |
| Process.ProcessEditor.StealOperatorsFrom | src/main/java/com/rapidminer/gui/operatormenu/ReplaceOperatorMenu.java:109 | `stealOperatorsFrom` appends the source's operators to the target, in order, and empties the source |
| Process.ProcessEditor.Show | src/main/java/com/rapidminer/gui/operatormenu/ReplaceOperatorMenu.java:148 | a dialog is appended to those shown |
| ReplaceOperatorMenu.RecordConnections | src/main/java/com/rapidminer/gui/operatormenu/ReplaceOperatorMenu.java:80-95 | one snapshot loop returns the recorded connections and locks both ends of each, changing no connection |
| ReplaceOperatorMenu.Snapshot | src/main/java/com/rapidminer/gui/operatormenu/ReplaceOperatorMenu.java:79-97 | both sides are recorded and locked, then disconnected, and the process invariant holds |
| ReplaceOperatorMenu.CommonSubprocesses | src/main/java/com/rapidminer/gui/operatormenu/ReplaceOperatorMenu.java:102-105 | the number of subprocesses transferred is the smaller subprocess count when both operators are chains, and 0 otherwise |
| ReplaceOperatorMenu.Transferred | src/main/java/com/rapidminer/gui/operatormenu/ReplaceOperatorMenu.java:106-110 | the subprocess lists after the first n steals; `TransferredPair`, `TransferredUntouched`, `TransferredElsewhere` and `TransferredKeeps` state what they hold |
| ReplaceOperatorMenu.MovedAll | src/main/java/com/rapidminer/gui/operatormenu/ReplaceOperatorMenu.java:106-110 | `getExecutionUnit` after the same steals, defined for exactly the operators placed before; `MovedAllContents` states where each sits |
| ReplaceOperatorMenu.StealTotal | src/main/java/com/rapidminer/gui/operatormenu/ReplaceOperatorMenu.java:109 | the failures of the first n steals added up, as `failedReconnects +=` does; `TransferChildren` returns it |
| ReplaceOperatorMenu.TransferredPair | src/main/java/com/rapidminer/gui/operatormenu/ReplaceOperatorMenu.java:106-110 | after the transfer, new subprocess i holds its own operators followed by old subprocess i's, and old subprocess i is empty |
| ReplaceOperatorMenu.TransferredUntouched | src/main/java/com/rapidminer/gui/operatormenu/ReplaceOperatorMenu.java:106 | subprocesses at or beyond the common count are untouched |
| ReplaceOperatorMenu.TransferredElsewhere | src/main/java/com/rapidminer/gui/operatormenu/ReplaceOperatorMenu.java:106-110 | subprocesses of other operators are untouched by the transfer |
| ReplaceOperatorMenu.TransferredKeeps | src/main/java/com/rapidminer/gui/operatormenu/ReplaceOperatorMenu.java:106-110 | the transfer removes no subprocess |
| ReplaceOperatorMenu.MovedAllContents | src/main/java/com/rapidminer/gui/operatormenu/ReplaceOperatorMenu.java:106-110 | after the transfer, the operators of old subprocess i below the common count sit in new subprocess i, and every other operator sits where it sat |
| ReplaceOperatorMenu.MovedAllElsewhere | src/main/java/com/rapidminer/gui/operatormenu/ReplaceOperatorMenu.java:106-110 | an operator outside the old chain keeps its subprocess |
| ReplaceOperatorMenu.StealNextKeepsNesting | src/main/java/com/rapidminer/gui/operatormenu/ReplaceOperatorMenu.java:107-109 | each steal of the loop keeps the process invariant and puts nothing into the new chain itself |
| ReplaceOperatorMenu.StealNext | src/main/java/com/rapidminer/gui/operatormenu/ReplaceOperatorMenu.java:107-109 | one iteration performs the i-th steal and adds its failures |
| ReplaceOperatorMenu.TransferChildren | src/main/java/com/rapidminer/gui/operatormenu/ReplaceOperatorMenu.java:101-111 | the children move per `Transferred`/`MovedAll`, the failures are summed, and the process invariant holds |
| ReplaceOperatorMenu.PutInPlace | src/main/java/com/rapidminer/gui/operatormenu/ReplaceOperatorMenu.java:112-114 | the new operator takes the old one's index in the same subprocess, the other entries unchanged, and the old one leaves |
| ReplaceOperatorMenu.Reposition | src/main/java/com/rapidminer/gui/operatormenu/ReplaceOperatorMenu.java:101-114 | children are transferred, then the new operator takes the old one's place |
| ReplaceOperatorMenu.RestoreOutput | src/main/java/com/rapidminer/gui/operatormenu/ReplaceOperatorMenu.java:118-125 | one output entry is re-made and both ends unlocked, or one failure is counted |
| ReplaceOperatorMenu.RestoreInput | src/main/java/com/rapidminer/gui/operatormenu/ReplaceOperatorMenu.java:129-136 | one input entry is re-made and both ends unlocked, or one failure is counted |
| ReplaceOperatorMenu.ReconnectOutputs | src/main/java/com/rapidminer/gui/operatormenu/ReplaceOperatorMenu.java:117-126 | the output loop visits every recorded name once, and its result is `Rejoin`/`Reopened`/`Misses` for that order |
| ReplaceOperatorMenu.ReconnectInputs | src/main/java/com/rapidminer/gui/operatormenu/ReplaceOperatorMenu.java:128-137 | the same for the input loop |
| ReplaceOperatorMenu.Rewire | src/main/java/com/rapidminer/gui/operatormenu/ReplaceOperatorMenu.java:116-137 | exactly the matched connections are re-made, their ends unlocked, and the unmatched names counted |
| ReplaceOperatorMenu.Warning | src/main/java/com/rapidminer/gui/operatormenu/ReplaceOperatorMenu.java:147-149 | a warning is shown if and only if the count is positive, and it carries the count |
| ReplaceOperatorMenu.Report | src/main/java/com/rapidminer/gui/operatormenu/ReplaceOperatorMenu.java:147-149 | the dialogs gain exactly `Warning(failed)` |
| ReplaceOperatorMenu.ReplaceDetached | src/main/java/com/rapidminer/gui/operatormenu/ReplaceOperatorMenu.java:99-150 | placement, transfer, rewiring and report together, with failures from children and ports summed |
| ReplaceOperatorMenu.Replaced | src/main/java/com/rapidminer/gui/operatormenu/ReplaceOperatorMenu.java:79-137 | the whole outcome of `replace` on plain values: connections, locks, subprocess lists, placement and failure count as functions of the state before |
| ReplaceOperatorMenu.ReplacedPosition | src/main/java/com/rapidminer/gui/operatormenu/ReplaceOperatorMenu.java:112-114 | after `replace` the new operator holds the selected one's index in its subprocess, the other entries unchanged, and the selected one sits nowhere |
| ReplaceOperatorMenu.Replace | src/main/java/com/rapidminer/gui/operatormenu/ReplaceOperatorMenu.java:67-151 | no change without a selection or a parent; otherwise `Replaced` holds of the state before and after: the full final connections, locks, subprocesses, positions and failure count; the warning is shown iff the count is positive, and nothing is rolled back |
| ReplaceOperatorMenu.PerformAction | src/main/java/com/rapidminer/gui/operatormenu/ReplaceOperatorMenu.java:57-64 | if the operator cannot be built, only the "cannot_instantiate" dialog is added; otherwise the operator gets the next identity, its ports and its subprocess count (`WithChain`); with nothing replaceable selected the lists gain only its empty subprocesses (`WithUnits`) and nothing else changes; and, when something replaceable is selected, `Replaced` holds of the state `createOperator` left and the final one |

## Left out

- Positioning the new operator on the canvas and selecting it (lines 139-145) is GUI rendering. It is not modelled.
- Dialogs are modelled as a log of messages. Their display, and the exception passed to `showSimpleErrorMessage`, are not modelled.
- `OperatorService.createOperator` is modelled by the description's `instantiable` flag. Any exception it throws becomes `None`.
- Exceptions thrown inside `replace` itself are not modelled. The model's framework calls never fail, so `PerformAction` catches only the construction failure.
- Process.ProcessEditor.StealOperatorsFrom: `stealOperatorsFrom` belongs to the framework and is not part of this model. It is modelled as appending the operators in order. The number of inner connections it reports as lost is a parameter (`StealMisses`, a table per pair of subprocesses). The inner source and sink ports of subprocesses are not modelled, and the steal leaves the connection table unchanged. So the connections the framework moves, re-makes or loses with the children are not represented, only their count. In particular, `Replace` keeps every connection among the moved children as it was, even when the count says some were lost.
- The order of HashMap entry sets is unspecified. It is chosen nondeterministically by the loops and exposed as ghost outputs. `OrderIrrelevant` shows that the result does not depend on it.
- Port names are not required to be unique per operator and kind. The algorithm works on names, and nothing here needs uniqueness.
- `connectTo`'s own checks (same subprocess, ports not already connected) belong to framework code outside this model. A connection of the replaced operator to itself is therefore re-made to the removed operator's ports, as the code would attempt.
- The GUI selection is read, never changed.
- Locks are modelled as a set of locked ports. How the process renderer reacts to a locked port is not modelled.
- ConfigureDataView, ManagementService, SinusClassificationFunction, LogSearchAction and GuiLauncher are not part of this model. They do not take part in replacing an operator.
