# SimScenario: host population and epidemic seeding

A Dafny model of the core of `SimScenario`, the scenario builder of the
PandemicFlu variant of the ONE opportunistic-network simulator. The model covers:

- how the builder checks the device-class (operating system) table;
- how it creates the hosts of every group and labels each host with a device
  class by weighted sampling (`setOS`);
- how it picks one patient zero per device class (`infectOne`);
- how it keeps its five listener registries, including the replay of
  `initialLocation` to a late movement listener;
- how the lazily created singleton is handled (`getInstance` / `reset`).

Files:

- `options.dfy`: the `Option` type.
- `host.dfy`: `Host` (address, group number, group id, OS label, location,
  infected flag) and `Coord`.
- `os_assignment.dfy` (module `OSAssignment`):
  - the exact running sum of the weights;
  - the specification `Pick` of the weighted picker and the method `SetOS`
    that implements it;
  - `CheckSumProb`, and the weight range check `CheckWeights`.
- `seeding.dfy` (module `Seeding`):
  - the per-name scan `FirstWithLabelFrom`, and `InfectStep`, one round of
    the seeding loop;
  - the declarative result of seeding, `Seeded`: a host is infected when its
    label is listed and no earlier host in the shuffled list carries that
    label;
  - lemmas about `Seeded`: it picks the first match, there is at most one
    patient zero per class, the number of new infections is bounded, and it
    says which classes get a warning.
- `scenario.dfy` (module `SimScenario`):
  - the settings as plain values;
  - the error taxonomy `ConfigError`;
  - the specifications `OSTableError`, `GroupErrorFrom`, `HostsError`,
    `BuildError`, `Population` and `Hotspots`;
  - the class `Scenario` (constructor, `Create`, `CreateHosts` with its
    parts `ValidateOSTable`, `CreateGroups`, `AddGroupHosts`, `InfectOne`
    with its parts `ScanFor` and `SeedEachClass`, listener methods);
  - the class `ScenarioSlot` for the static `myinstance`.

Inputs that the source obtains from outside are parameters:

- the values of the settings store;
- the stream of `Random.nextDouble` draws, `draw(k)` for the k-th host
  created;
- the initial location the movement model gives the k-th host, `location(k)`;
- `Collections.shuffle`, as any function that returns a permutation (same
  multiset) of its argument.

Every exit or settings error of the modelled checks becomes a `ConfigError` value, and the warning of
`infectOne` becomes the list of absent class names that it returns.

Four behaviours of the source are easy to misread; the model follows the
code:

- The weights must sum to exactly 1: line 518 tests `sum != 1`, with no
  tolerance. Weights and draws are exact reals, so that test is modelled
  exactly.
- `setOS` has no fallback to the last category. A draw above the total would
  index past the array (lines 535-538), so `SetOS` and `Pick` require
  `draw <= Sum(w)`. Draws lie in [0, 1) and an accepted table sums to 1, so
  the builder always meets that requirement.
- A draw of 0 makes `setOS` return index 0 whatever that category's weight
  (line 539); `Pick` states this case.
- `addMovementListener` replays `initialLocation` in the current order of
  the host list. `infectOne` has shuffled that list, so the replay follows
  the shuffled order and not creation order.

## Model

| member | source | states |
|---|---|---|
| `OSAssignment.PickFrom` | Project_PandemicFlu/Simulator/src/core/SimScenario.java:535-538 | the walk from category i stops at an index in range whose running total reaches the draw, and every category it passed had a running total below the draw |
| `OSAssignment.Pick` | Project_PandemicFlu/Simulator/src/core/SimScenario.java:530-540 | a draw of 0 or less gives 0; a positive draw gives the smallest index whose running total reaches the draw; for a non-empty table the index is in range |
| `OSAssignment.PickIsUnique` | Project_PandemicFlu/Simulator/src/core/SimScenario.java:535-539 | any index that reaches the draw, with all earlier running totals below it, is the picked one |
| `OSAssignment.PickHasPositiveWeight` | Project_PandemicFlu/Simulator/src/core/SimScenario.java:535-539 | a positive draw never selects a category whose weight is 0 or less |
| `OSAssignment.PickInRange` | Project_PandemicFlu/Simulator/src/core/SimScenario.java:441-442 | with weights summing to 1 and a draw in [0, 1) the index is a valid category, so `OS_Names[idx]` is in bounds |
| `OSAssignment.SetOS` | Project_PandemicFlu/Simulator/src/core/SimScenario.java:530-540 | the loop over `check` and `index` returns exactly `Pick(w, draw)` |
| `OSAssignment.CheckSumProb` | Project_PandemicFlu/Simulator/src/core/SimScenario.java:512-522 | the accumulated sum accepts the table exactly when the weights sum to 1 |
| `OSAssignment.FirstOutOfRange` | Project_PandemicFlu/Simulator/src/core/SimScenario.java:344-350 | None exactly when every weight lies in [0, 1]; otherwise the index of the first weight outside it |
| `OSAssignment.CheckWeights` | Project_PandemicFlu/Simulator/src/core/SimScenario.java:344-350 | the reading loop stops at the first weight outside [0, 1], or reports none |
| `SimScenario.OSTableError` | Project_PandemicFlu/Simulator/src/core/SimScenario.java:333-352 | no error exactly when both counts are non-negative, all weights lie in [0, 1] and they sum to 1; the count error exactly when `nrOfPois` or `nrOfOS` is negative (zero passes that check) |
| `SimScenario.ValidateOSTable` | Project_PandemicFlu/Simulator/src/core/SimScenario.java:330-352 | the checks run in the source's order and report the first failure |
| `SimScenario.EmptyTableRejected` | Project_PandemicFlu/Simulator/src/core/SimScenario.java:512-521 | a table with `nrOfOS` = 0 always fails, because the empty sum is 0 |
| `SimScenario.UnnormalisedTableRejected` | Project_PandemicFlu/Simulator/src/core/SimScenario.java:512-521 | weights 0.5 and 0.4 are rejected with the sum error before any group is read |
| `SimScenario.GroupErrorFrom` | Project_PandemicFlu/Simulator/src/core/SimScenario.java:354-374 | None exactly when every group from the given one on has positive host and interface counts; otherwise the check of the first group that fails |
| `SimScenario.AcceptedBuildHasHosts` | Project_PandemicFlu/Simulator/src/core/SimScenario.java:447-450 | a construction that passes every check has at least one device class and no more classes than hosts |
| `OSAssignment.SumBounds` | Project_PandemicFlu/Simulator/src/core/SimScenario.java:512-516 | weights that each lie in [0, 1] add up to a total between 0 and their number |
| `SimScenario.CheckGroup` | Project_PandemicFlu/Simulator/src/core/SimScenario.java:372-374 | a group passes exactly when its host and interface counts are positive; a failure names the group number, and the host count is checked first |
| `SimScenario.TotalHosts` | Project_PandemicFlu/Simulator/src/core/SimScenario.java:354-446 | groups that all pass their checks declare at least one host each |
| `SimScenario.HostsError` | Project_PandemicFlu/Simulator/src/core/SimScenario.java:333-450 | `createHosts` succeeds exactly when the table is accepted, every group passes and there are no more device classes than hosts; a rejected table reports the table's error; an accepted table with a failing group reports that group's check; the too-many-classes error is reported exactly when only that check fails |
| `SimScenario.BuildError` | Project_PandemicFlu/Simulator/src/core/SimScenario.java:147-149 | construction succeeds exactly when the group count, end time and update interval are positive and `createHosts` succeeds; a positive-value error names one of those three settings; once those three pass, the error is that of `createHosts` |
| `SimScenario.Hotspots` | Project_PandemicFlu/Simulator/src/core/SimScenario.java:376-382 | every collected hotspot is a point of interest of some flu-routine group, and every point of interest of every flu-routine group is collected |
| `SimScenario.NewHost` | Project_PandemicFlu/Simulator/src/core/SimScenario.java:431-445 | the new host has its creation number as address, its group's number and id, the location for that number, and is not infected |
| `SimScenario.Block` | Project_PandemicFlu/Simulator/src/core/SimScenario.java:431-445 | a group contributes exactly its declared number of hosts, numbered on from `start`, all in that group and uninfected |
| `SimScenario.GroupsPrefixStep` | Project_PandemicFlu/Simulator/src/core/SimScenario.java:354-446 | reading one more group appends exactly that group's hotspots and that group's block of hosts |
| `SimScenario.ScanFor` | Project_PandemicFlu/Simulator/src/core/SimScenario.java:483-493 | the do-while scan returns the position of the first host carrying the name, or the list length when there is none |
| `SimScenario.Scenario.SeedEachClass` | Project_PandemicFlu/Simulator/src/core/SimScenario.java:481-504 | the loop over the names leaves the list equal to `Seeded` of the list it started from and returns exactly the names no host carries |
| `Seeding.Seeded` | Project_PandemicFlu/Simulator/src/core/SimScenario.java:481-499 | keeps the length and every field but the infected flag; a host ends up infected exactly when it already was, or its label is listed and the scan for that label finds it |
| `Seeding.InfectStep` | Project_PandemicFlu/Simulator/src/core/SimScenario.java:481-503 | one round of the name loop, scanning the partly seeded list, gives the seeding of one more name and adds a warning exactly when nothing is found |
| `Seeding.SameLabelsSameScan` | Project_PandemicFlu/Simulator/src/core/SimScenario.java:483-493 | the scan depends on labels only, so infecting hosts does not change what later scans find |
| `Seeding.AbsentClassesBound` | Project_PandemicFlu/Simulator/src/core/SimScenario.java:500-503 | there is at most one warning per listed name |
| `SimScenario.Population` | Project_PandemicFlu/Simulator/src/core/SimScenario.java:354-446 | the population has exactly the sum of the groups' host counts |
| `SimScenario.PopulationShape` | Project_PandemicFlu/Simulator/src/core/SimScenario.java:430-445 | host k has address k; it is uninfected; its label is `OS_Names[setOS]` for the k-th draw, which is one of the names; its location is the k-th location; it belongs to the group whose range of creation numbers contains k, which puts the groups in order |
| `SimScenario.OffsetStep` | Project_PandemicFlu/Simulator/src/core/SimScenario.java:431-445 | each group adds exactly its declared host count to the running total |
| `SimScenario.SeededPopulation` | Project_PandemicFlu/Simulator/src/core/SimScenario.java:441-451 | after shuffling and seeding, the population has the declared size, every label is a declared name, and at most `nrOfOS` hosts are infected |
| `SimScenario.ShuffleKeepsHosts` | Project_PandemicFlu/Simulator/src/core/SimScenario.java:478 | a permutation of uninfected, correctly labelled hosts has the same length and keeps both properties |
| `SimScenario.Scenario.constructor` | Project_PandemicFlu/Simulator/src/core/SimScenario.java:138-165 | fields are taken from the settings, `maxHostRange` is 1, and every list starts empty |
| `SimScenario.Scenario.Create` | Project_PandemicFlu/Simulator/src/core/SimScenario.java:138-172 | fails with exactly the first failing check of the constructor and `createHosts`; on success the new scenario is `Built`: its fields come from the settings, `maxHostRange` is 1, the hosts are the seeded, shuffled population, the hotspots are those of the flu-routine groups, and no listener is registered |
| `SimScenario.Scenario.CreateHosts` | Project_PandemicFlu/Simulator/src/core/SimScenario.java:326-452 | the outcome is the first failing check; a table error leaves no host and no hotspot; too many device classes leaves the unseeded population; success gives the seeded, shuffled population and the collected hotspots |
| `SimScenario.Scenario.CreateGroups` | Project_PandemicFlu/Simulator/src/core/SimScenario.java:354-446 | reports the first group whose counts are not positive; otherwise appends the whole population in group order and the flu-routine hotspots |
| `SimScenario.Scenario.AddGroupHosts` | Project_PandemicFlu/Simulator/src/core/SimScenario.java:431-445 | appends the group's block of hosts, numbered on from the current list length |
| `SimScenario.Scenario.InfectOne` | Project_PandemicFlu/Simulator/src/core/SimScenario.java:474-505 | an empty list is left alone; otherwise the list becomes `Seeded` of its shuffle, and the names with no host are returned as warnings |
| `SimScenario.Scenario.AddConnectionListener` | Project_PandemicFlu/Simulator/src/core/SimScenario.java:264-266 | appends to the connection listeners only |
| `SimScenario.Scenario.AddMessageListener` | Project_PandemicFlu/Simulator/src/core/SimScenario.java:272-274 | appends to the message listeners only |
| `SimScenario.Scenario.AddMovementListener` | Project_PandemicFlu/Simulator/src/core/SimScenario.java:280-289 | appends to the movement listeners and records exactly one `initialLocation(host, location)` call per present host, in list order, after the earlier calls |
| `SimScenario.Scenario.AddUpdateListener` | Project_PandemicFlu/Simulator/src/core/SimScenario.java:295-297 | appends to the update listeners only |
| `SimScenario.Scenario.AddApplicationListener` | Project_PandemicFlu/Simulator/src/core/SimScenario.java:311-313 | appends to the application listeners only |
| `SimScenario.ScenarioSlot.constructor` | Project_PandemicFlu/Simulator/src/core/SimScenario.java:126-129 | the static initialiser leaves the slot empty |
| `SimScenario.ScenarioSlot.Reset` | Project_PandemicFlu/Simulator/src/core/SimScenario.java:131-133 | empties the slot |
| `SimScenario.ScenarioSlot.GetInstance` | Project_PandemicFlu/Simulator/src/core/SimScenario.java:177-182 | an existing instance is returned unchanged; otherwise a new scenario in the `Built` state of `Create` is stored and returned, or the construction error is returned and the slot stays empty |
| `Seeding.FirstWithLabelFrom` | Project_PandemicFlu/Simulator/src/core/SimScenario.java:483-493 | the do-while scan finds the first host from position j with the given label, or reports that none exists |
| `Seeding.SeededChangesOnlyPatientZeros` | Project_PandemicFlu/Simulator/src/core/SimScenario.java:495-496 | seeding keeps order and every field except the infected flag, which it sets exactly on patient zeros |
| `Seeding.ScanFindsPatientZero` | Project_PandemicFlu/Simulator/src/core/SimScenario.java:481-503 | for each name, the host the scan finds is that class's patient zero and becomes infected, and no other host with that label is picked; when the scan finds none, no host carries the name |
| `Seeding.PatientZeroIsScanned` | Project_PandemicFlu/Simulator/src/core/SimScenario.java:485-496 | every patient zero is the host the scan finds for its own label |
| `Seeding.OnePatientZeroPerClass` | Project_PandemicFlu/Simulator/src/core/SimScenario.java:481-496 | two patient zeros never share a device class |
| `Seeding.SeedingBound` | Project_PandemicFlu/Simulator/src/core/SimScenario.java:481-504 | the newly infected hosts are patient zeros, and there are no more of them than device-class names |
| `Seeding.SeededStep` | Project_PandemicFlu/Simulator/src/core/SimScenario.java:481-499 | scanning one more name infects exactly the host the scan finds, on top of the earlier names' effect |
| `Seeding.AbsentClassesExact` | Project_PandemicFlu/Simulator/src/core/SimScenario.java:500-503 | a warning is issued for a name exactly when it is listed and no host carries it |

## Left out

- The settings store (`Settings`, `getCsvInts`, `valueFillString`): the model takes the values it would return. Missing keys and parse errors are not modelled.
- Reflection-based creation of movement models, routers, interfaces and applications (`createIntializedObject`), `setClisteners`, `setGroupSettings`, `setAppListeners` and `addApplication`: these are foreign classes. Their failures and side effects are not modelled. A group's movement model shows up only as its reported name and its points of interest.
- `MapBasedMovement` / `SimMap` extraction (lines 426-428): foreign classes.
- `DTNSim.registerForReset` in the static initialiser (line 127): the reset registry of the simulator is outside this model; the slot's constructor only performs the `reset` that follows.
- SimScenario.BuildError and SimScenario.GroupErrorFrom: `Settings.java` is not part of this model, so `ensurePositiveValue` (called at lines 147-149 and 373-374, with the comment at line 372 saying it checks that the values are positive) is taken to reject zero as well as negative values. If the settings class only rejected negative values, a zero count would pass there and the model would report an error the source does not.
- `DTNHost` internals (router and movement replication, `ModuleCommunicationBus`, the global address counter): a host is a value whose address is its creation number. Aliasing between the host list and other holders of the same `DTNHost` object is not modelled. The `initialLocation` calls that `DTNHost` makes when it is created are external; at construction time no movement listener is registered.
- `World` and `EventQueueHandler` construction (lines 159, 169-171), the getters (plain field reads; the model's fields are public) and `Serializable`.
- `java.util.Random` and `Collections.shuffle`: replaced by the draw stream and by any permutation. The model proves its properties for every such input and says nothing about their distribution.
- IEEE-754 rounding: weights, draws and sums are exact reals. A table that sums to 1 only after rounding, or one that misses 1 only because of rounding, is judged differently here than by the source.
- `System.exit`, settings errors and the `println` diagnostics: they become `ConfigError` results and the list of absent class names. The hotspot list is a static field in the source; here it belongs to the scenario.
- SimScenario.Scenario.CreateHosts: when a group check fails, it states the error but not the partly built host and hotspot lists. The source stops the process at that point.
