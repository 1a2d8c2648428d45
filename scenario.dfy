/**
 * The scenario builder: the configuration checks of the scenario constructor
 * and of `createHosts`, the host population loop, patient-zero seeding, the
 * listener registries and the lazily created singleton.
 *
 * The settings store is replaced by the values it would return; the random
 * draws of `setOS` and the initial locations chosen by the movement models
 * are streams indexed by the host's creation number; the shuffle of
 * `infectOne` is any function that returns a permutation of its argument.
 */
module SimScenario {
  import opened Options
  import opened Hosts
  import opened OSAssignment
  import opened Seeding

  /** Setting names reported by the positive-value checks. */
  const NROF_GROUPS_S := "nrofHostGroups"
  const END_TIME_S := "endTime"
  const UP_INT_S := "updateInterval"
  const NROF_HOSTS_S := "nrofHosts"
  const NROF_INTERF_S := "nrofInterfaces"

  /** Name of the movement model whose points of interest become hotspots. */
  const FLU_ROUTINE := "PandemicFluRoutine"

  /** The reasons for which the source stops the process during construction. */
  datatype ConfigError =
    | NotPositive(setting: string)
    | GroupNotPositive(group: nat, setting: string)
    | InvalidOSCounts
    | WeightOutOfRange(index: nat)
    | SumNotOne
    | MoreOSThanHosts

  datatype Outcome = Pass | Fail(error: ConfigError)

  datatype Result<T> = Ok(value: T) | Err(error: ConfigError)

  /** Listeners are external objects; only their identity matters here. */
  type ListenerId = nat

  /** One `initialLocation(host, location)` call made on a movement listener. */
  datatype InitialLocation = InitialLocation(listener: ListenerId, host: nat, location: Coord)

  /** Values read from the "Scenario" settings namespace and the world size. */
  datatype ScenarioSettings = ScenarioSettings(
    name: string,
    nrofGroups: int,
    endTime: real,
    updateInterval: real,
    simulateConnections: bool,
    worldSizeX: int,
    worldSizeY: int)

  /** Values read from the "PandemicFlu" namespace: `nrOfPois`, `nrOfOS`, `operatingSystem<i>`, `percOS<i>`. */
  datatype OSSettings = OSSettings(nrOfPois: int, nrOfOS: int, names: seq<string>, weights: seq<real>)

  /**
   * Values read from one "Group<i>" namespace. `movementName` is what the
   * group's movement-model prototype reports as its name and `pois` the points
   * of interest it exposes when it is a flu routine.
   */
  datatype GroupSettings = GroupSettings(
    groupId: string,
    nrofHosts: int,
    nrofInterfaces: int,
    movementName: string,
    pois: seq<Coord>)

  datatype Settings = Settings(scenario: ScenarioSettings, os: OSSettings, groups: seq<GroupSettings>)

  /** One name and one weight are read per declared device class. */
  predicate OSWellFormed(os: OSSettings)
  {
    os.nrOfOS >= 0 ==> |os.names| == os.nrOfOS && |os.weights| == os.nrOfOS
  }

  /** One group namespace is read per declared group. */
  predicate WellFormed(s: Settings)
  {
    OSWellFormed(s.os) &&
    (s.scenario.nrofGroups >= 0 ==> |s.groups| == s.scenario.nrofGroups)
  }

  /** `Random.nextDouble` yields values in [0, 1). */
  ghost predicate ValidDraws(draw: nat -> real)
  {
    forall k :: 0.0 <= draw(k) < 1.0
  }

  /** `Collections.shuffle` only reorders the list. */
  ghost predicate IsShuffle(shuffle: seq<Host> -> seq<Host>)
  {
    forall s :: multiset(shuffle(s)) == multiset(s)
  }

  // ---------------------------------------------------------------------
  // Validation

  /** A device-class table `createHosts` accepts. */
  predicate AcceptedTable(os: OSSettings)
  {
    os.nrOfPois >= 0 && os.nrOfOS >= 0 &&
    (forall i :: 0 <= i < |os.weights| ==> InUnitInterval(os.weights[i])) &&
    Sum(os.weights) == 1.0
  }

  /** The first failing check on the device-class table, in the source's order. */
  function OSTableError(os: OSSettings): (r: Option<ConfigError>)
    ensures r.None? <==> AcceptedTable(os)
    ensures r == Some(InvalidOSCounts) <==> os.nrOfPois < 0 || os.nrOfOS < 0
    ensures r.Some? ==> r.value.InvalidOSCounts? || r.value.WeightOutOfRange? || r.value.SumNotOne?
  {
    if os.nrOfPois < 0 || os.nrOfOS < 0 then Some(InvalidOSCounts)
    else if FirstOutOfRange(os.weights).Some? then Some(WeightOutOfRange(FirstOutOfRange(os.weights).value))
    else if Sum(os.weights) != 1.0 then Some(SumNotOne)
    else None
  }

  /** An empty device-class table sums to 0 and is always rejected. */
  lemma EmptyTableRejected(os: OSSettings)
    requires OSWellFormed(os) && os.nrOfOS == 0
    ensures OSTableError(os).Some?
  {
  }

  /** The per-group positive-value checks (group numbers start at 1). */
  function CheckGroup(g: GroupSettings, number: nat): (r: Option<ConfigError>)
    ensures r.None? <==> GroupOk(g)
    ensures r.Some? ==> r.value.GroupNotPositive? && r.value.group == number
    ensures r.Some? && g.nrofHosts <= 0 ==> r.value.setting == NROF_HOSTS_S
  {
    if g.nrofHosts <= 0 then Some(GroupNotPositive(number, NROF_HOSTS_S))
    else if g.nrofInterfaces <= 0 then Some(GroupNotPositive(number, NROF_INTERF_S))
    else None
  }

  /** Both counts of a group are positive. */
  predicate GroupOk(g: GroupSettings)
  {
    g.nrofHosts > 0 && g.nrofInterfaces > 0
  }

  predicate GroupsOk(groups: seq<GroupSettings>)
  {
    forall i :: 0 <= i < |groups| ==> GroupOk(groups[i])
  }

  /** The first group from position `from` on that fails its checks. */
  function GroupErrorFrom(groups: seq<GroupSettings>, from: nat): (r: Option<ConfigError>)
    ensures r.None? <==> forall i :: from <= i < |groups| ==> GroupOk(groups[i])
    ensures r.Some? ==> exists i :: (from <= i < |groups| && r == CheckGroup(groups[i], i + 1) &&
      !GroupOk(groups[i]) && forall j :: from <= j < i ==> GroupOk(groups[j]))
    decreases |groups| - from
  {
    if from >= |groups| then None
    else if CheckGroup(groups[from], from + 1).Some? then CheckGroup(groups[from], from + 1)
    else GroupErrorFrom(groups, from + 1)
  }

  /** Total number of hosts the groups declare. */
  function TotalHosts(groups: seq<GroupSettings>): (r: int)
    ensures GroupsOk(groups) ==> r >= |groups|
  {
    if groups == [] then 0
    else TotalHosts(groups[..|groups| - 1]) + groups[|groups| - 1].nrofHosts
  }

  /** The first failing check of `createHosts`, or None when it succeeds. */
  function HostsError(os: OSSettings, groups: seq<GroupSettings>): (r: Option<ConfigError>)
    ensures r.None? <==> AcceptedTable(os) && GroupsOk(groups) && os.nrOfOS <= TotalHosts(groups)
    ensures !AcceptedTable(os) ==> r == OSTableError(os)
    ensures AcceptedTable(os) && !GroupsOk(groups) ==> r == GroupErrorFrom(groups, 0)
    ensures r == Some(MoreOSThanHosts) <==>
      AcceptedTable(os) && GroupsOk(groups) && os.nrOfOS > TotalHosts(groups)
  {
    if OSTableError(os).Some? then OSTableError(os)
    else if GroupErrorFrom(groups, 0).Some? then GroupErrorFrom(groups, 0)
    else if os.nrOfOS > TotalHosts(groups) then Some(MoreOSThanHosts)
    else None
  }

  /** The first failing check of the scenario constructor, or None when it succeeds. */
  function BuildError(s: Settings): (r: Option<ConfigError>)
    ensures r.None? <==>
      s.scenario.nrofGroups > 0 && s.scenario.endTime > 0.0 && s.scenario.updateInterval > 0.0 &&
      HostsError(s.os, s.groups).None?
    ensures r.Some? && r.value.NotPositive? ==>
      r.value.setting in {NROF_GROUPS_S, END_TIME_S, UP_INT_S}
    ensures s.scenario.nrofGroups > 0 && s.scenario.endTime > 0.0 && s.scenario.updateInterval > 0.0 ==>
      r == HostsError(s.os, s.groups)
  {
    if s.scenario.nrofGroups <= 0 then Some(NotPositive(NROF_GROUPS_S))
    else if s.scenario.endTime <= 0.0 then Some(NotPositive(END_TIME_S))
    else if s.scenario.updateInterval <= 0.0 then Some(NotPositive(UP_INT_S))
    else HostsError(s.os, s.groups)
  }

  /** A table whose weights sum to 0.9 is refused before any group is read. */
  lemma UnnormalisedTableRejected(groups: seq<GroupSettings>)
    ensures HostsError(OSSettings(0, 2, ["A", "B"], [0.5, 0.4]), groups) == Some(SumNotOne)
  {
    assert [0.5, 0.4][..1] == [0.5];
    assert [0.5][..0] == [];
  }

  /**
   * A successful construction has at least one host per device class and at
   * least one device class.
   */
  lemma AcceptedBuildHasHosts(s: Settings)
    requires WellFormed(s) && BuildError(s) == None
    ensures 1 <= s.os.nrOfOS <= TotalHosts(s.groups)
    ensures |s.groups| == s.scenario.nrofGroups && GroupsOk(s.groups)
  {
  }

  /**
   * The checks `createHosts` makes before reading any group: the two counts,
   * the range of every weight, then the sum of the weights.
   */
  method ValidateOSTable(os: OSSettings) returns (err: Option<ConfigError>)
    ensures err == OSTableError(os)
  {
    if os.nrOfPois < 0 || os.nrOfOS < 0 {
      return Some(InvalidOSCounts);
    }
    var bad := CheckWeights(os.weights);
    if bad.Some? {
      return Some(WeightOutOfRange(bad.value));
    }
    var sumOk := CheckSumProb(os.weights);
    if !sumOk {
      return Some(SumNotOne);
    }
    return None;
  }

  // ---------------------------------------------------------------------
  // Host population

  /** Everything `setOS` needs for every host: an accepted table and draws in [0, 1). */
  ghost predicate CanAssign(os: OSSettings, draw: nat -> real)
  {
    OSWellFormed(os) && AcceptedTable(os) && ValidDraws(draw)
  }

  /** The host with creation number `address`, made by group number `group`. */
  ghost function NewHost(address: nat, group: nat, g: GroupSettings, os: OSSettings,
                         draw: nat -> real, location: nat -> Coord): (r: Host)
    requires CanAssign(os, draw)
    ensures r.address == address && r.group == group && r.groupId == g.groupId
    ensures !r.infected && r.location == location(address)
  {
    Host(address, group, g.groupId, os.names[Pick(os.weights, draw(address))], location(address), false)
  }

  /** The hosts of group number `group`, numbered from `start`. */
  ghost function Block(g: GroupSettings, group: nat, start: nat, os: OSSettings,
                       draw: nat -> real, location: nat -> Coord): (r: seq<Host>)
    requires CanAssign(os, draw) && GroupOk(g)
    ensures |r| == g.nrofHosts
    ensures forall j :: 0 <= j < |r| ==>
      r[j].address == start + j && r[j].group == group && !r[j].infected
  {
    var r := seq(g.nrofHosts, j requires 0 <= j < g.nrofHosts => NewHost(start + j, group, g, os, draw, location));
    assert forall j :: 0 <= j < |r| ==> r[j] == NewHost(start + j, group, g, os, draw, location);
    r
  }

  /** Host j of a block is the host with creation number `start + j`. */
  lemma {:induction false} BlockAt(g: GroupSettings, group: nat, start: nat, os: OSSettings,
                draw: nat -> real, location: nat -> Coord, j: nat)
    requires CanAssign(os, draw) && GroupOk(g) && j < g.nrofHosts
    ensures Block(g, group, start, os, draw, location)[j] == NewHost(start + j, group, g, os, draw, location)
  {
  }

  /** The hosts `createHosts` appends, group after group, before seeding. */
  ghost function Population(groups: seq<GroupSettings>, os: OSSettings,
                            draw: nat -> real, location: nat -> Coord): (r: seq<Host>)
    requires CanAssign(os, draw) && GroupsOk(groups)
    ensures |r| == TotalHosts(groups)
  {
    if groups == [] then []
    else
      var before := Population(groups[..|groups| - 1], os, draw, location);
      before + Block(groups[|groups| - 1], |groups|, |before|, os, draw, location)
  }

  /** Hosts of the groups before position g: where group number g + 1 starts. */
  function Offset(groups: seq<GroupSettings>, g: nat): int
    requires g <= |groups|
  {
    TotalHosts(groups[..g])
  }

  /** The points of interest collected from the flu-routine groups, in group order. */
  function Hotspots(groups: seq<GroupSettings>): (r: seq<Coord>)
    ensures forall c :: c in r ==>
      exists i :: 0 <= i < |groups| && groups[i].movementName == FLU_ROUTINE && c in groups[i].pois
    ensures forall i, c :: 0 <= i < |groups| && groups[i].movementName == FLU_ROUTINE && c in groups[i].pois ==>
      c in r
  {
    if groups == [] then []
    else
      var last := groups[|groups| - 1];
      Hotspots(groups[..|groups| - 1]) + (if last.movementName == FLU_ROUTINE then last.pois else [])
  }

  /**
   * Host h is the k-th created: uninfected, labelled with the device class
   * `setOS` picks for the k-th draw, placed at the k-th location, and made by
   * the group whose range of creation numbers contains k.
   */
  ghost predicate Placed(groups: seq<GroupSettings>, os: OSSettings, draw: nat -> real,
                         location: nat -> Coord, h: Host, k: nat)
    requires CanAssign(os, draw)
  {
    h.address == k && !h.infected &&
    h.os == os.names[Pick(os.weights, draw(k))] && h.os in os.names &&
    h.location == location(k) &&
    1 <= h.group <= |groups| &&
    h.groupId == groups[h.group - 1].groupId &&
    Offset(groups, h.group - 1) <= k < Offset(groups, h.group)
  }

  /**
   * The population: host k is the k-th created, uninfected, labelled with the
   * device class `setOS` picks for the k-th draw, and belongs to the group
   * whose range of creation numbers contains k, so groups appear in order and
   * group g contributes exactly its declared count.
   */
  lemma {:induction false} PopulationShape(groups: seq<GroupSettings>, os: OSSettings,
                                           draw: nat -> real, location: nat -> Coord,
                                           r: seq<Host>)
    requires CanAssign(os, draw) && GroupsOk(groups)
    requires r == Population(groups, os, draw, location)
    ensures forall k :: 0 <= k < |r| ==> Placed(groups, os, draw, location, r[k], k)
  {
    if groups != [] {
      var n := |groups|;
      var init := groups[..n - 1];
      var p := Population(init, os, draw, location);
      PopulationShape(init, os, draw, location, p);
      forall k | 0 <= k < |r|
        ensures Placed(groups, os, draw, location, r[k], k)
      {
        if k < |p| {
          assert r[k] == p[k];
          PlacedInPrefix(groups, os, draw, location, p[k], k);
        } else {
          PlacedInLastBlock(groups, os, draw, location, p, r, k);
        }
      }
    }
  }

  /** A host placed among the first groups stays placed when a group is added. */
  lemma {:induction false} PlacedInPrefix(groups: seq<GroupSettings>, os: OSSettings, draw: nat -> real,
                       location: nat -> Coord, h: Host, k: nat)
    requires CanAssign(os, draw) && groups != []
    requires Placed(groups[..|groups| - 1], os, draw, location, h, k)
    ensures Placed(groups, os, draw, location, h, k)
  {
    var init := groups[..|groups| - 1];
    assert groups[..h.group - 1] == init[..h.group - 1];
    assert groups[..h.group] == init[..h.group];
  }

  /** The hosts of the last group are placed in that group's range. */
  lemma {:induction false} PlacedInLastBlock(groups: seq<GroupSettings>, os: OSSettings, draw: nat -> real,
                          location: nat -> Coord, p: seq<Host>, r: seq<Host>, k: nat)
    requires CanAssign(os, draw) && GroupsOk(groups) && groups != []
    requires p == Population(groups[..|groups| - 1], os, draw, location)
    requires r == Population(groups, os, draw, location)
    requires |p| <= k < |r|
    ensures Placed(groups, os, draw, location, r[k], k)
  {
    var n := |groups|;
    LastBlockHost(groups, os, draw, location, p, r, k);
    assert Offset(groups, n - 1) <= k < Offset(groups, n) by {
      assert groups[..n] == groups;
    }
    NewHostPlaced(groups, os, draw, location, k);
  }

  /** Past the earlier groups' hosts, the population holds the last group's block. */
  lemma {:induction false} LastBlockHost(groups: seq<GroupSettings>, os: OSSettings, draw: nat -> real,
                      location: nat -> Coord, p: seq<Host>, r: seq<Host>, k: nat)
    requires CanAssign(os, draw) && GroupsOk(groups) && groups != []
    requires p == Population(groups[..|groups| - 1], os, draw, location)
    requires r == Population(groups, os, draw, location)
    requires |p| <= k < |r|
    ensures r[k] == NewHost(k, |groups|, groups[|groups| - 1], os, draw, location)
  {
    var n := |groups|;
    var block := Block(groups[n - 1], n, |p|, os, draw, location);
    assert r == p + block;
    assert r[k] == block[k - |p|];
    BlockAt(groups[n - 1], n, |p|, os, draw, location, k - |p|);
  }

  /** A host of the last group whose number lies in that group's range is placed. */
  lemma {:induction false} NewHostPlaced(groups: seq<GroupSettings>, os: OSSettings, draw: nat -> real,
                      location: nat -> Coord, k: nat)
    requires CanAssign(os, draw) && groups != []
    requires Offset(groups, |groups| - 1) <= k < Offset(groups, |groups|)
    ensures Placed(groups, os, draw, location, NewHost(k, |groups|, groups[|groups| - 1], os, draw, location), k)
  {
  }

  /** Reading group number i extends the population and the hotspots by that group's share. */
  lemma {:induction false} GroupsPrefixStep(groups: seq<GroupSettings>, i: nat)
    requires 1 <= i <= |groups|
    ensures groups[..i][..i - 1] == groups[..i - 1] && groups[..i][i - 1] == groups[i - 1]
    ensures Hotspots(groups[..i]) ==
      Hotspots(groups[..i - 1]) +
      (if groups[i - 1].movementName == FLU_ROUTINE then groups[i - 1].pois else [])
    ensures forall os, draw, location ::
      CanAssign(os, draw) && GroupsOk(groups[..i]) ==>
      Population(groups[..i], os, draw, location) ==
        Population(groups[..i - 1], os, draw, location) +
        Block(groups[i - 1], i, |Population(groups[..i - 1], os, draw, location)|, os, draw, location)
  {
    assert groups[..i][..i - 1] == groups[..i - 1];
  }

  /** Adding one group adds its declared count to the running offset. */
  lemma OffsetStep(groups: seq<GroupSettings>, g: nat)
    requires g < |groups|
    ensures Offset(groups, g + 1) == Offset(groups, g) + groups[g].nrofHosts
  {
    assert groups[..g + 1][..g] == groups[..g];
  }

  /**
   * After a successful construction the population has the declared size,
   * every host carries one of the declared device classes, and at most one
   * host per device class is infected.
   */
  lemma {:induction false} SeededPopulation(groups: seq<GroupSettings>, os: OSSettings,
                                            draw: nat -> real, location: nat -> Coord,
                                            shuffle: seq<Host> -> seq<Host>)
    requires CanAssign(os, draw) && GroupsOk(groups) && IsShuffle(shuffle)
    ensures var h := Seeded(shuffle(Population(groups, os, draw, location)), os.names);
      |h| == TotalHosts(groups) &&
      (forall k :: 0 <= k < |h| ==> h[k].os in os.names) &&
      |set k: nat | k < |h| && h[k].infected| <= os.nrOfOS
  {
    var p := Population(groups, os, draw, location);
    var sh := shuffle(p);
    var h := Seeded(sh, os.names);
    PopulationShape(groups, os, draw, location, p);
    ShuffleKeepsHosts(p, sh, os.names);
    SeededChangesOnlyPatientZeros(sh, os.names);
    assert (set k: nat | k < |h| && h[k].infected) == NewlyInfected(sh, h);
    SeedingBound(sh, os.names);
  }

  /** A reordering of uninfected hosts labelled from `names` is again such a list. */
  lemma ShuffleKeepsHosts(p: seq<Host>, sh: seq<Host>, names: seq<string>)
    requires multiset(sh) == multiset(p)
    requires forall k :: 0 <= k < |p| ==> !p[k].infected && p[k].os in names
    ensures |sh| == |p|
    ensures forall k :: 0 <= k < |sh| ==> !sh[k].infected && sh[k].os in names
  {
    assert |multiset(sh)| == |multiset(p)|;
    forall k | 0 <= k < |sh|
      ensures !sh[k].infected && sh[k].os in names
    {
      assert sh[k] in multiset(sh);
      assert sh[k] in p;
    }
  }

  /**
   * The scan of `infectOne` for one name: the position of the first host
   * carrying it, or the list length when there is none. Seeding changes only
   * infection flags, so the scan of the partly seeded list finds what the scan
   * of the shuffled list finds.
   */
  method ScanFor(h: seq<Host>, name: string) returns (j: nat)
    ensures j <= |h|
    ensures FirstWithLabel(h, name) == if j < |h| then Some(j) else None
  {
    j := 0;
    while j < |h| && h[j].os != name
      invariant 0 <= j <= |h|
      invariant forall m :: 0 <= m < j ==> h[m].os != name
    {
      j := j + 1;
    }
  }

  // ---------------------------------------------------------------------
  // The scenario object

  /**
   * The state of a freshly constructed scenario: the settings' fields,
   * `maxHostRange` 1, the seeded and shuffled population, the flu-routine
   * hotspots, and no listener yet.
   */
  ghost predicate Built(sc: Scenario, s: Settings, draw: nat -> real, location: nat -> Coord,
                        shuffle: seq<Host> -> seq<Host>)
    reads sc
  {
    WellFormed(s) && ValidDraws(draw) && BuildError(s) == None &&
    sc.name == s.scenario.name && sc.nrofGroups == s.scenario.nrofGroups &&
    sc.endTime == s.scenario.endTime && sc.updateInterval == s.scenario.updateInterval &&
    sc.simulateConnections == s.scenario.simulateConnections &&
    sc.worldSizeX == s.scenario.worldSizeX && sc.worldSizeY == s.scenario.worldSizeY &&
    sc.maxHostRange == 1.0 &&
    sc.hosts == Seeded(shuffle(Population(s.groups, s.os, draw, location)), s.os.names) &&
    sc.hotspots == Hotspots(s.groups) &&
    sc.connectionListeners == [] && sc.messageListeners == [] && sc.movementListeners == [] &&
    sc.updateListeners == [] && sc.appListeners == [] && sc.initialLocations == []
  }

  class Scenario {
    var name: string
    var nrofGroups: int
    var endTime: real
    var updateInterval: real
    var simulateConnections: bool
    var worldSizeX: int
    var worldSizeY: int
    var maxHostRange: real
    var hosts: seq<Host>
    /** A static list in the source; here it belongs to the scenario. */
    var hotspots: seq<Coord>
    var connectionListeners: seq<ListenerId>
    var messageListeners: seq<ListenerId>
    var movementListeners: seq<ListenerId>
    var updateListeners: seq<ListenerId>
    var appListeners: seq<ListenerId>
    /** The `initialLocation` calls made on movement listeners, in order. */
    var initialLocations: seq<InitialLocation>

    /** Field initialisation of the constructor, before `createHosts`. */
    constructor (sc: ScenarioSettings)
      ensures name == sc.name && nrofGroups == sc.nrofGroups
      ensures endTime == sc.endTime && updateInterval == sc.updateInterval
      ensures simulateConnections == sc.simulateConnections
      ensures worldSizeX == sc.worldSizeX && worldSizeY == sc.worldSizeY
      ensures maxHostRange == 1.0
      ensures hosts == [] && hotspots == []
      ensures connectionListeners == [] && messageListeners == [] && movementListeners == []
      ensures updateListeners == [] && appListeners == [] && initialLocations == []
    {
      name, nrofGroups := sc.name, sc.nrofGroups;
      endTime, updateInterval := sc.endTime, sc.updateInterval;
      simulateConnections := sc.simulateConnections;
      worldSizeX, worldSizeY := sc.worldSizeX, sc.worldSizeY;
      maxHostRange := 1.0;
      hosts, hotspots := [], [];
      connectionListeners, messageListeners, movementListeners := [], [], [];
      updateListeners, appListeners, initialLocations := [], [], [];
    }

    /**
     * The whole constructor: the positive-value checks on the scenario
     * settings, field initialisation and `createHosts`. A failing check
     * yields the error the source stops the process for.
     */
    static method Create(s: Settings, draw: nat -> real, location: nat -> Coord,
                         shuffle: seq<Host> -> seq<Host>) returns (r: Result<Scenario>)
      requires WellFormed(s) && ValidDraws(draw) && IsShuffle(shuffle)
      ensures r.Err? <==> BuildError(s).Some?
      ensures r.Err? ==> r.error == BuildError(s).value
      ensures r.Ok? ==> fresh(r.value) && BuildError(s) == None
      ensures r.Ok? ==> Built(r.value, s, draw, location, shuffle)
    {
      var sc := s.scenario;
      if sc.nrofGroups <= 0 {
        return Err(NotPositive(NROF_GROUPS_S));
      }
      if sc.endTime <= 0.0 {
        return Err(NotPositive(END_TIME_S));
      }
      if sc.updateInterval <= 0.0 {
        return Err(NotPositive(UP_INT_S));
      }
      var scenario := new Scenario(sc);
      var outcome := scenario.CreateHosts(s.os, s.groups, draw, location, shuffle);
      if outcome.Fail? {
        return Err(outcome.error);
      }
      return Ok(scenario);
    }

    /**
     * `createHosts`: checks the device-class table, builds the groups' hosts
     * in order, checks there are enough hosts for the device classes and
     * seeds the infection once.
     */
    method CreateHosts(os: OSSettings, groups: seq<GroupSettings>, draw: nat -> real,
                       location: nat -> Coord, shuffle: seq<Host> -> seq<Host>)
      returns (outcome: Outcome)
      requires OSWellFormed(os) && ValidDraws(draw) && IsShuffle(shuffle)
      requires |groups| == nrofGroups
      modifies this`hosts, this`hotspots
      ensures outcome == (match HostsError(os, groups) case None => Pass case Some(e) => Fail(e))
      ensures OSTableError(os).Some? ==> hosts == [] && hotspots == []
      ensures HostsError(os, groups) == Some(MoreOSThanHosts) ==>
        OSTableError(os) == None && GroupsOk(groups) &&
        hosts == Population(groups, os, draw, location)
      ensures outcome == Pass ==>
        CanAssign(os, draw) && GroupsOk(groups) &&
        hosts == Seeded(shuffle(Population(groups, os, draw, location)), os.names) &&
        hotspots == Hotspots(groups)
    {
      hosts := [];
      hotspots := [];
      var tableError := ValidateOSTable(os);
      if tableError.Some? {
        return Fail(tableError.value);
      }
      var groupError := CreateGroups(groups, os, draw, location);
      if groupError.Some? {
        return Fail(groupError.value);
      }
      assert HostsError(os, groups) ==
        if os.nrOfOS > TotalHosts(groups) then Some(MoreOSThanHosts) else None;
      if os.nrOfOS > |hosts| {
        return Fail(MoreOSThanHosts);
      }
      var absent := InfectOne(os.names, shuffle);
      return Pass;
    }

    /**
     * The group loop of `createHosts`: for groups 1..nrofGroups, check the
     * group's counts, collect its hotspots and append its hosts.
     */
    method CreateGroups(groups: seq<GroupSettings>, os: OSSettings, draw: nat -> real,
                        location: nat -> Coord) returns (err: Option<ConfigError>)
      requires CanAssign(os, draw) && |groups| == nrofGroups
      requires hosts == [] && hotspots == []
      modifies this`hosts, this`hotspots
      ensures err == GroupErrorFrom(groups, 0)
      ensures err == None ==>
        GroupsOk(groups) &&
        hosts == Population(groups, os, draw, location) &&
        hotspots == Hotspots(groups)
    {
      assert groups[..0] == [];
      var i := 1;
      while i <= nrofGroups
        invariant 1 <= i <= nrofGroups + 1
        invariant GroupsOk(groups[..i - 1])
        invariant GroupErrorFrom(groups, 0) == GroupErrorFrom(groups, i - 1)
        invariant hosts == Population(groups[..i - 1], os, draw, location)
        invariant hotspots == Hotspots(groups[..i - 1])
      {
        var g := groups[i - 1];
        assert GroupErrorFrom(groups, i - 1) ==
          if CheckGroup(g, i).Some? then CheckGroup(g, i) else GroupErrorFrom(groups, i);
        if g.nrofHosts <= 0 {
          return Some(GroupNotPositive(i, NROF_HOSTS_S));
        }
        if g.nrofInterfaces <= 0 {
          return Some(GroupNotPositive(i, NROF_INTERF_S));
        }
        GroupsPrefixStep(groups, i);
        if g.movementName == FLU_ROUTINE {
          hotspots := hotspots + g.pois;
        }
        AddGroupHosts(g, i, os, draw, location);
        i := i + 1;
      }
      assert groups[..nrofGroups] == groups;
      return None;
    }

    /** The inner loop of `createHosts`: append group number `group`'s hosts. */
    method AddGroupHosts(g: GroupSettings, group: nat, os: OSSettings,
                         draw: nat -> real, location: nat -> Coord)
      requires CanAssign(os, draw) && GroupOk(g)
      modifies this`hosts
      ensures hosts == old(hosts) + Block(g, group, |old(hosts)|, os, draw, location)
    {
      ghost var block := Block(g, group, |hosts|, os, draw, location);
      var start := |hosts|;
      for j := 0 to g.nrofHosts
        invariant |hosts| == start + j
        invariant hosts == old(hosts) + block[..j]
      {
        var idx := SetOS(os.weights, draw(|hosts|));
        var host := Host(|hosts|, group, g.groupId, os.names[idx], location(|hosts|), false);
        assert host == NewHost(start + j, group, g, os, draw, location);
        assert block[j] == host;
        hosts := hosts + [host];
        assert block[..j + 1] == block[..j] + [host];
      }
      assert block[..g.nrofHosts] == block;
    }

    /**
     * `infectOne`: shuffle the hosts once, then for each device-class name
     * infect the first host carrying it. Returns the names no host carries,
     * for which the source only prints a warning.
     */
    method InfectOne(names: seq<string>, shuffle: seq<Host> -> seq<Host>) returns (absent: seq<string>)
      requires IsShuffle(shuffle)
      modifies this`hosts
      ensures old(hosts) == [] ==> hosts == [] && absent == []
      ensures old(hosts) != [] ==>
        hosts == Seeded(shuffle(old(hosts)), names) &&
        absent == AbsentClasses(shuffle(old(hosts)), names)
    {
      absent := [];
      if |hosts| < 1 {
        return;
      }
      hosts := shuffle(hosts);
      absent := SeedEachClass(names);
    }

    /**
     * The loop of `infectOne` over the device-class names, on the already
     * shuffled list: mark the first host carrying each name, and collect the
     * names no host carries.
     */
    method SeedEachClass(names: seq<string>) returns (absent: seq<string>)
      modifies this`hosts
      ensures hosts == Seeded(old(hosts), names)
      ensures absent == AbsentClasses(old(hosts), names)
    {
      absent := [];
      ghost var shuffled := hosts;
      assert names[..0] == [];
      for i := 0 to |names|
        invariant |hosts| == |shuffled|
        invariant hosts == Seeded(shuffled, names[..i])
        invariant absent == AbsentClasses(shuffled, names[..i])
      {
        var j := ScanFor(hosts, names[i]);
        InfectStep(shuffled, names, i, hosts, j);
        if j < |hosts| {
          hosts := hosts[j := hosts[j].(infected := true)];
        } else {
          absent := absent + [names[i]];
        }
      }
      assert names[..|names|] == names;
    }

    method AddConnectionListener(l: ListenerId)
      modifies this`connectionListeners
      ensures connectionListeners == old(connectionListeners) + [l]
    {
      connectionListeners := connectionListeners + [l];
    }

    method AddMessageListener(l: ListenerId)
      modifies this`messageListeners
      ensures messageListeners == old(messageListeners) + [l]
    {
      messageListeners := messageListeners + [l];
    }

    /**
     * Registers a movement listener and calls its `initialLocation` once for
     * every host already present, in the order of the host list.
     */
    method AddMovementListener(l: ListenerId)
      modifies this`movementListeners, this`initialLocations
      ensures movementListeners == old(movementListeners) + [l]
      ensures |initialLocations| == |old(initialLocations)| + |hosts|
      ensures initialLocations[..|old(initialLocations)|] == old(initialLocations)
      ensures forall k :: 0 <= k < |hosts| ==>
        initialLocations[|old(initialLocations)| + k] ==
        InitialLocation(l, hosts[k].address, hosts[k].location)
    {
      movementListeners := movementListeners + [l];
      for k := 0 to |hosts|
        invariant movementListeners == old(movementListeners) + [l]
        invariant |initialLocations| == |old(initialLocations)| + k
        invariant initialLocations[..|old(initialLocations)|] == old(initialLocations)
        invariant forall m :: 0 <= m < k ==>
          initialLocations[|old(initialLocations)| + m] ==
          InitialLocation(l, hosts[m].address, hosts[m].location)
      {
        initialLocations := initialLocations + [InitialLocation(l, hosts[k].address, hosts[k].location)];
      }
    }

    method AddUpdateListener(l: ListenerId)
      modifies this`updateListeners
      ensures updateListeners == old(updateListeners) + [l]
    {
      updateListeners := updateListeners + [l];
    }

    method AddApplicationListener(l: ListenerId)
      modifies this`appListeners
      ensures appListeners == old(appListeners) + [l]
    {
      appListeners := appListeners + [l];
    }
  }

  /**
   * The process-wide `myinstance` slot: `getInstance` creates the scenario
   * on first use and `reset` empties the slot.
   */
  class ScenarioSlot {
    var instance: Scenario?

    /** The static initialiser calls `reset`. */
    constructor ()
      ensures instance == null
    {
      instance := null;
    }

    method Reset()
      modifies this
      ensures instance == null
    {
      instance := null;
    }

    method GetInstance(s: Settings, draw: nat -> real, location: nat -> Coord,
                       shuffle: seq<Host> -> seq<Host>) returns (r: Result<Scenario>)
      requires WellFormed(s) && ValidDraws(draw) && IsShuffle(shuffle)
      modifies this
      ensures old(instance) != null ==> r.Ok? && r.value == old(instance) && instance == old(instance)
      ensures old(instance) == null && r.Ok? ==>
        fresh(r.value) && instance == r.value && BuildError(s) == None &&
        Built(r.value, s, draw, location, shuffle)
      ensures old(instance) == null && r.Err? ==>
        instance == null && BuildError(s) == Some(r.error)
      ensures old(instance) == null ==> (r.Err? <==> BuildError(s).Some?)
    {
      if instance == null {
        r := Scenario.Create(s, draw, location, shuffle);
        if r.Ok? {
          instance := r.value;
        }
      } else {
        r := Ok(instance);
      }
    }
  }
}
