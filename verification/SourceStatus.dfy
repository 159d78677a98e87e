/** The status page: every data plane, and the latest run of every source connection under the plane that ran it. */
module SourceStatus {
  import opened Types
  import opened Cursors

  datatype DataPlane = DataPlane(id: string, name: string, lastSeen: Option<int>)

  /** What a run reports of itself: entities seen, created and tombstoned, and an error summary. */
  datatype Figures = Figures(seen: int, created: int, tombstoned: int, errorSummary: Option<string>)

  datatype ConnectorRun = ConnectorRun(
    source: string, dataPlane: string, status: string, started: int, completed: Option<int>, figures: Figures)

  datatype Connection = Connection(source: string, status: string, started: int, completed: Option<int>, figures: Figures)

  datatype Group = Group(id: string, name: Option<string>, lastSeen: Option<int>, connections: seq<Connection>)

  /** As the query orders them: the runs of one source from the latest to the earliest. */
  ghost predicate LatestFirst(runs: seq<ConnectorRun>) {
    forall i, j :: 0 <= i < j < |runs| && runs[i].source == runs[j].source ==> runs[i].started >= runs[j].started
  }

  predicate HasSource(runs: seq<ConnectorRun>, source: string) {
    exists i :: 0 <= i < |runs| && runs[i].source == source
  }

  /** `setdefault` over the runs: the first run of every source. */
  function FirstRuns(runs: seq<ConnectorRun>): seq<ConnectorRun> {
    if runs == [] then []
    else
      var front := FirstRuns(runs[..|runs| - 1]);
      if HasSource(front, runs[|runs| - 1].source) then front else front + [runs[|runs| - 1]]
  }

  function ConnectionOf(run: ConnectorRun): Connection {
    Connection(run.source, run.status, run.started, run.completed, run.figures)
  }

  /** The connections of one data plane, in order. */
  function Under(latest: seq<ConnectorRun>, plane: string): seq<Connection> {
    if latest == [] then []
    else
      Under(latest[..|latest| - 1], plane) +
      if latest[|latest| - 1].dataPlane == plane then [ConnectionOf(latest[|latest| - 1])] else []
  }

  function PlaneIds(planes: seq<DataPlane>): seq<string> {
    seq(|planes|, i requires 0 <= i < |planes| => planes[i].id)
  }

  /** The registered planes, then any other plane a latest run names. */
  function GroupIds(planes: seq<DataPlane>, latest: seq<ConnectorRun>): seq<string> {
    if latest == [] then PlaneIds(planes)
    else
      var front := GroupIds(planes, latest[..|latest| - 1]);
      if latest[|latest| - 1].dataPlane in front then front else front + [latest[|latest| - 1].dataPlane]
  }

  predicate IsGroup(planes: seq<DataPlane>, latest: seq<ConnectorRun>, id: string, g: Group) {
    && g.id == id && g.connections == Under(latest, id)
    && (forall p :: p in planes && p.id == id ==> g.name == Some(p.name) && g.lastSeen == p.lastSeen)
    && (id !in PlaneIds(planes) ==> g.name == None && g.lastSeen == None)
  }

  ghost predicate IsStatus(planes: seq<DataPlane>, runs: seq<ConnectorRun>, groups: seq<Group>) {
    var ids := GroupIds(planes, FirstRuns(runs));
    |groups| == |ids| && forall i :: 0 <= i < |ids| ==> IsGroup(planes, FirstRuns(runs), ids[i], groups[i])
  }

  lemma UnderOneMore(latest: seq<ConnectorRun>, run: ConnectorRun, plane: string)
    ensures Under(latest + [run], plane) == Under(latest, plane) + if run.dataPlane == plane then [ConnectionOf(run)] else []
  {
    assert (latest + [run])[..|latest|] == latest;
  }

  lemma {:induction false} GroupIdsCover(planes: seq<DataPlane>, latest: seq<ConnectorRun>)
    requires NoDuplicates(PlaneIds(planes))
    ensures NoDuplicates(GroupIds(planes, latest))
    ensures forall id :: id in GroupIds(planes, latest) <==> id in PlaneIds(planes) || exists i :: 0 <= i < |latest| && latest[i].dataPlane == id
  {
    if latest != [] {
      var front, last := latest[..|latest| - 1], latest[|latest| - 1];
      GroupIdsCover(planes, front);
      forall id ensures id in GroupIds(planes, latest) <==> id in PlaneIds(planes) || exists i :: 0 <= i < |latest| && latest[i].dataPlane == id {
        if i :| 0 <= i < |front| && front[i].dataPlane == id {
          assert latest[i].dataPlane == id;
        }
        assert latest[|latest| - 1].dataPlane == last.dataPlane;
        if i :| 0 <= i < |latest| && latest[i].dataPlane == id {
          assert i < |front| ==> front[i].dataPlane == id;
        }
      }
    }
  }

  lemma {:induction false} NothingUnderStranger(latest: seq<ConnectorRun>, plane: string)
    requires forall i :: 0 <= i < |latest| ==> latest[i].dataPlane != plane
    ensures Under(latest, plane) == []
  {
    if latest != [] {
      NothingUnderStranger(latest[..|latest| - 1], plane);
    }
  }

  /** `list_sources_status`, for one tenant's planes and ordered runs. */
  method ListSourcesStatus(planes: seq<DataPlane>, runs: seq<ConnectorRun>) returns (status: seq<Group>)
    requires NoDuplicates(PlaneIds(planes))
    ensures IsStatus(planes, runs, status)
  {
    hide IsGroup, GroupIds, FirstRuns, PlaneIds;
    var latest := LatestRuns(runs);
    var order, sources := RegisterPlanes(planes);
    assert latest[..0] == [];
    for i := 0 to |latest|
      invariant Grouped(planes, latest[..i], order, sources)
    {
      assert latest[..i + 1] == latest[..i] + [latest[i]];
      order, sources := AddRun(planes, latest[..i], latest[i], order, sources);
    }
    assert latest[..|latest|] == latest;
    status := [];
    for i := 0 to |order|
      invariant |status| == i && forall k :: 0 <= k < i ==> IsGroup(planes, latest, order[k], status[k])
    {
      status := status + [sources[order[i]]];
    }
  }

  /** The dictionary of groups, with its keys in order, once these latest runs have been added. */
  ghost predicate Grouped(planes: seq<DataPlane>, latest: seq<ConnectorRun>, order: seq<string>,
      sources: map<string, Group>)
  {
    && order == GroupIds(planes, latest) && (forall id :: id in sources <==> id in order)
    && forall id :: id in sources ==> IsGroup(planes, latest, id, sources[id])
  }

  method RegisterPlanes(planes: seq<DataPlane>) returns (order: seq<string>, sources: map<string, Group>)
    requires NoDuplicates(PlaneIds(planes))
    ensures Grouped(planes, [], order, sources)
  {
    hide Registered, IsGroup, GroupIds;
    NothingRegistered(planes);
    order, sources := [], map[];
    for i := 0 to |planes|
      invariant order == PlaneIds(planes)[..i] && (forall id :: id in sources <==> id in order)
      invariant Registered(planes, sources, i)
    {
      assert PlaneIds(planes)[i] == planes[i].id;
      RegisterOneMore(planes, sources, i);
      order := order + [planes[i].id];
      sources := sources[planes[i].id := Group(planes[i].id, Some(planes[i].name), planes[i].lastSeen, [])];
    }
    RegisteredGroups(planes, sources, order);
  }

  method AddRun(planes: seq<DataPlane>, ghost latest: seq<ConnectorRun>, run: ConnectorRun, order: seq<string>,
      sources: map<string, Group>)
    returns (order': seq<string>, sources': map<string, Group>)
    requires NoDuplicates(PlaneIds(planes)) && Grouped(planes, latest, order, sources)
    ensures Grouped(planes, latest + [run], order', sources')
  {
    assert (latest + [run])[..|latest|] == latest;
    if run.dataPlane in sources {
      var group := sources[run.dataPlane];
      order', sources' := order, sources[run.dataPlane := group.(connections := group.connections + [ConnectionOf(run)])];
    } else {
      order', sources' := order + [run.dataPlane], sources[run.dataPlane := Group(run.dataPlane, None, None, [ConnectionOf(run)])];
    }
    GroupIdsCover(planes, latest);
    hide IsGroup, PlaneIds;
    forall id | id in sources' ensures IsGroup(planes, latest + [run], id, sources'[id]) {
      GroupAfterRun(planes, latest, run, id, sources, sources'[id]);
    }
  }

  /** The first n planes have their groups, still without connections. */
  predicate Registered(planes: seq<DataPlane>, sources: map<string, Group>, n: nat) {
    n <= |planes| &&
    forall k :: 0 <= k < n ==>
      planes[k].id in sources && sources[planes[k].id] == Group(planes[k].id, Some(planes[k].name),
          planes[k].lastSeen, [])
  }

  lemma NothingRegistered(planes: seq<DataPlane>)
    ensures Registered(planes, map[], 0)
  {
  }

  lemma RegisterOneMore(planes: seq<DataPlane>, sources: map<string, Group>, i: nat)
    requires NoDuplicates(PlaneIds(planes)) && i < |planes| && Registered(planes, sources, i)
    ensures Registered(planes, sources[planes[i].id := Group(planes[i].id, Some(planes[i].name), planes[i].lastSeen,
              [])], i + 1)
  {
    forall k | 0 <= k < i ensures planes[k].id != planes[i].id {
      assert PlaneIds(planes)[k] != PlaneIds(planes)[i];
    }
  }

  lemma RegisteredGroups(planes: seq<DataPlane>, sources: map<string, Group>, order: seq<string>)
    requires NoDuplicates(PlaneIds(planes)) && order == PlaneIds(planes) && forall id :: id in sources <==> id in order
    requires Registered(planes, sources, |planes|)
    ensures GroupIds(planes, []) == PlaneIds(planes)
    ensures forall id :: id in sources ==> IsGroup(planes, [], id, sources[id])
  {
    forall id | id in sources ensures IsGroup(planes, [], id, sources[id]) {
      var k :| 0 <= k < |order| && order[k] == id;
      forall p | p in planes && p.id == id ensures sources[id].name == Some(p.name) && sources[id].lastSeen == p.lastSeen {
        var j :| 0 <= j < |planes| && planes[j] == p;
      }
    }
  }

  lemma GroupAfterRun(planes: seq<DataPlane>, latest: seq<ConnectorRun>, run: ConnectorRun, id: string,
      before: map<string, Group>, g: Group)
    requires forall x :: x in before <==> x in GroupIds(planes, latest)
    requires forall x :: x in GroupIds(planes, latest) <==> x in PlaneIds(planes) || exists i :: 0 <= i < |latest| && latest[i].dataPlane == x
    requires id in before ==> IsGroup(planes, latest, id, before[id])
    requires g == if id != run.dataPlane && id in before then before[id]
                  else if id in before then before[id].(connections := before[id].connections + [ConnectionOf(run)])
                  else Group(run.dataPlane, None, None, [ConnectionOf(run)])
    requires id in before || id == run.dataPlane
    ensures IsGroup(planes, latest + [run], id, g)
  {
    UnderOneMore(latest, run, id);
    hide GroupIds;
    if id !in before {
      NothingUnderStranger(latest, id);
      forall p | p in planes ensures p.id in PlaneIds(planes) {
        var k :| 0 <= k < |planes| && planes[k] == p;
        assert PlaneIds(planes)[k] == p.id;
      }
    }
  }

  method LatestRuns(runs: seq<ConnectorRun>) returns (latest: seq<ConnectorRun>)
    ensures latest == FirstRuns(runs)
  {
    latest := [];
    var seen: set<string> := {};
    for i := 0 to |runs|
      invariant latest == FirstRuns(runs[..i])
      invariant forall source :: source in seen <==> HasSource(latest, source)
    {
      assert runs[..i + 1][..i] == runs[..i];
      if runs[i].source !in seen {
        seen := seen + {runs[i].source};
        SourcesOneMore(latest, runs[i]);
        latest := latest + [runs[i]];
      }
    }
    assert runs[..|runs|] == runs;
  }

  lemma SourcesOneMore(latest: seq<ConnectorRun>, run: ConnectorRun)
    ensures forall source :: HasSource(latest + [run], source) <==> HasSource(latest, source) || source == run.source
  {
    forall source ensures HasSource(latest + [run], source) <==> HasSource(latest, source) || source == run.source {
      if i :| 0 <= i < |latest| && latest[i].source == source {
        assert (latest + [run])[i].source == source;
      }
      assert (latest + [run])[|latest|] == run;
    }
  }

  // ---------------------------------------------------------------- what the page promises

  ghost predicate IsLatest(runs: seq<ConnectorRun>, run: ConnectorRun) {
    run in runs && forall q :: q in runs && q.source == run.source ==> q.started <= run.started
  }

  /** The runs kept are one per source, and each is a latest one. */
  lemma {:induction false} FirstRunsAreLatest(runs: seq<ConnectorRun>)
    requires LatestFirst(runs)
    ensures forall source :: HasSource(FirstRuns(runs), source) <==> HasSource(runs, source)
    ensures forall i, j :: 0 <= i < j < |FirstRuns(runs)| ==> FirstRuns(runs)[i].source != FirstRuns(runs)[j].source
    ensures forall i :: 0 <= i < |FirstRuns(runs)| ==> IsLatest(runs, FirstRuns(runs)[i])
  {
    if runs != [] {
      var front, last := runs[..|runs| - 1], runs[|runs| - 1];
      assert runs == front + [last];
      FirstRunsAreLatest(front);
      SourcesOneMore(front, last);
      SourcesOneMore(FirstRuns(front), last);
      forall i | 0 <= i < |FirstRuns(runs)| ensures IsLatest(runs, FirstRuns(runs)[i]) {
        LatestStays(front, last, FirstRuns(runs)[i]);
      }
    }
  }

  lemma MemberHasSource(runs: seq<ConnectorRun>, q: ConnectorRun)
    ensures q in runs ==> HasSource(runs, q.source)
  {
    if q in runs {
      var k :| 0 <= k < |runs| && runs[k] == q;
    }
  }

  lemma LatestStays(front: seq<ConnectorRun>, last: ConnectorRun, run: ConnectorRun)
    requires LatestFirst(front + [last])
    requires IsLatest(front, run) || (run == last && !HasSource(front, last.source))
    ensures IsLatest(front + [last], run)
  {
    var runs := front + [last];
    if run in front {
      var i :| 0 <= i < |front| && front[i] == run;
      assert runs[i] == run && runs[|front|] == last;
    }
    forall q | q in runs && q.source == run.source ensures q.started <= run.started {
      MemberHasSource(front, q);
    }
  }

  predicate HasRun(latest: seq<ConnectorRun>, plane: string, c: Connection) {
    exists i :: 0 <= i < |latest| && latest[i].dataPlane == plane && c == ConnectionOf(latest[i])
  }

  lemma HasRunOneMore(latest: seq<ConnectorRun>, run: ConnectorRun, plane: string, c: Connection)
    ensures HasRun(latest + [run], plane, c) <==> HasRun(latest, plane, c) || (run.dataPlane == plane && c == ConnectionOf(run))
  {
    var more := latest + [run];
    assert more[|latest|] == run;
    if i :| 0 <= i < |latest| && latest[i].dataPlane == plane && c == ConnectionOf(latest[i]) {
      assert more[i] == latest[i];
    }
  }

  lemma {:induction false} UnderMembers(latest: seq<ConnectorRun>, plane: string)
    requires forall i, j :: 0 <= i < j < |latest| ==> latest[i].source != latest[j].source
    ensures forall c :: c in Under(latest, plane) <==> HasRun(latest, plane, c)
    ensures forall i, j :: 0 <= i < j < |Under(latest, plane)| ==> Under(latest, plane)[i].source != Under(latest, plane)[j].source
  {
    if latest != [] {
      var front, last := latest[..|latest| - 1], latest[|latest| - 1];
      assert latest == front + [last];
      UnderMembers(front, plane);
      UnderOneMore(front, last, plane);
      forall i | 0 <= i < |Under(front, plane)| ensures Under(front, plane)[i].source != last.source {
        assert HasRun(front, plane, Under(front, plane)[i]);
      }
      hide Under, HasRun;
      forall c ensures c in Under(latest, plane) <==> HasRun(latest, plane, c) {
        HasRunOneMore(front, last, plane, c);
      }
    }
  }

  /** The group of a registered plane. */
  predicate ShowsPlane(g: Group, p: DataPlane) {
    g.id == p.id && g.name == Some(p.name) && g.lastSeen == p.lastSeen
  }

  /** The connection reports what the run does. */
  predicate ReportsRun(c: Connection, run: ConnectorRun) {
    && c.source == run.source && c.status == run.status && c.started == run.started && c.completed == run.completed
    && c.figures == run.figures
  }

  /** Connection k of group i is this source. */
  predicate Lists(groups: seq<Group>, i: int, k: int, source: string) {
    0 <= i < |groups| && 0 <= k < |groups[i].connections| && groups[i].connections[k].source == source
  }

  /** Main result: the groups begin with the registered planes in their order, and any further one is of a plane that some
      latest run names; no plane has two; no source appears twice, within a group or across
      groups; what a group lists are latest runs of this very plane; and every source with a run is listed. */
  lemma StatusIsComplete(planes: seq<DataPlane>, runs: seq<ConnectorRun>, groups: seq<Group>)
    requires NoDuplicates(PlaneIds(planes)) && LatestFirst(runs) && IsStatus(planes, runs, groups)
    ensures forall i, j :: 0 <= i < j < |groups| ==> groups[i].id != groups[j].id
    ensures |planes| <= |groups| && forall i :: 0 <= i < |planes| ==> ShowsPlane(groups[i], planes[i])
    ensures forall i :: |planes| <= i < |groups| ==>
              groups[i].name == None && groups[i].lastSeen == None && groups[i].connections != []
    ensures forall i, c :: 0 <= i < |groups| && c in groups[i].connections ==>
              exists run :: IsLatest(runs, run) && run.dataPlane == groups[i].id && ReportsRun(c, run)
    ensures forall source :: HasSource(runs, source) ==> exists i, k :: Lists(groups, i, k, source)
    ensures forall source, i, j, k, m :: Lists(groups, i, k, source) && Lists(groups, j, m, source) ==> i == j && k == m
  {
    var latest := FirstRuns(runs);
    var ids := GroupIds(planes, latest);
    FirstRunsAreLatest(runs);
    GroupIdsCover(planes, latest);
    hide FirstRuns, GroupIds, LatestFirst, IsLatest;
    PlanesComeFirst(planes, latest);
    forall i | 0 <= i < |planes| ensures ShowsPlane(groups[i], planes[i]) {
      assert IsGroup(planes, latest, ids[i], groups[i]);
      assert planes[i] in planes;
    }
    forall i | |planes| <= i < |groups|
      ensures groups[i].name == None && groups[i].lastSeen == None && groups[i].connections != []
    {
      StrangerHasRuns(planes, latest, i, groups[i]);
    }
    forall i, c | 0 <= i < |groups| && c in groups[i].connections
      ensures exists run :: IsLatest(runs, run) && run.dataPlane == groups[i].id && ReportsRun(c, run)
    {
      UnderMembers(latest, ids[i]);
      var m :| 0 <= m < |latest| && latest[m].dataPlane == ids[i] && c == ConnectionOf(latest[m]);
      assert IsLatest(runs, latest[m]) && ReportsRun(c, latest[m]);
    }
    forall source | HasSource(runs, source) ensures exists i, k :: Lists(groups, i, k, source) {
      assert HasSource(latest, source);
      var m :| 0 <= m < |latest| && latest[m].source == source;
      assert latest[m].dataPlane in ids;
      var i :| 0 <= i < |ids| && ids[i] == latest[m].dataPlane;
      UnderMembers(latest, ids[i]);
      assert ConnectionOf(latest[m]) in groups[i].connections;
      var k :| 0 <= k < |groups[i].connections| && groups[i].connections[k] == ConnectionOf(latest[m]);
      assert Lists(groups, i, k, source);
    }
    forall source, i, j, k, m | Lists(groups, i, k, source) && Lists(groups, j, m, source) ensures i == j && k == m {
      SourceOnce(latest, ids, i, j, k, m);
    }
  }

  lemma {:induction false} PlanesComeFirst(planes: seq<DataPlane>, latest: seq<ConnectorRun>)
    ensures |planes| <= |GroupIds(planes, latest)|
    ensures forall i :: 0 <= i < |planes| ==> GroupIds(planes, latest)[i] == planes[i].id
  {
    if latest != [] {
      PlanesComeFirst(planes, latest[..|latest| - 1]);
    }
  }

  /** The group of a plane that is not registered lists what made it one. */
  lemma StrangerHasRuns(planes: seq<DataPlane>, latest: seq<ConnectorRun>, i: nat, g: Group)
    requires NoDuplicates(PlaneIds(planes)) && |planes| <= i < |GroupIds(planes, latest)|
    requires forall i, j :: 0 <= i < j < |latest| ==> latest[i].source != latest[j].source
    requires IsGroup(planes, latest, GroupIds(planes, latest)[i], g)
    ensures g.name == None && g.lastSeen == None && g.connections != []
  {
    var ids := GroupIds(planes, latest);
    GroupIdsCover(planes, latest);
    PlanesComeFirst(planes, latest);
    UnderMembers(latest, ids[i]);
    hide GroupIds, Under;
    forall k | 0 <= k < |planes| ensures PlaneIds(planes)[k] != ids[i] {
      assert ids[k] != ids[i];
    }
    assert ids[i] in ids && ids[i] !in PlaneIds(planes);
    var m :| 0 <= m < |latest| && latest[m].dataPlane == ids[i];
    assert ConnectionOf(latest[m]) in Under(latest, ids[i]);
  }

  lemma SourceOnce(latest: seq<ConnectorRun>, ids: seq<string>, i: int, j: int, k: int, m: int)
    requires NoDuplicates(ids) && forall a, b :: 0 <= a < b < |latest| ==> latest[a].source != latest[b].source
    requires 0 <= i < |ids| && 0 <= j < |ids| && 0 <= k < |Under(latest, ids[i])| && 0 <= m < |Under(latest, ids[j])|
    requires Under(latest, ids[i])[k].source == Under(latest, ids[j])[m].source
    ensures i == j && k == m
  {
    UnderMembers(latest, ids[i]);
    UnderMembers(latest, ids[j]);
    hide Under;
    assert Under(latest, ids[i])[k] in Under(latest, ids[i]) && Under(latest, ids[j])[m] in Under(latest, ids[j]);
    var a :| 0 <= a < |latest| && latest[a].dataPlane == ids[i] && Under(latest, ids[i])[k] == ConnectionOf(latest[a]);
    var b :| 0 <= b < |latest| && latest[b].dataPlane == ids[j] && Under(latest, ids[j])[m] == ConnectionOf(latest[b]);
    assert a == b;
  }
}
