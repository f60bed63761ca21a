/** The flow-chart store shared by the chat and the editor: the list of charts,
    the id of the active chart and whether the editor is open. */
module FlowChartStore {
  import opened Js
  import opened FlowModel

  /** The index of the first chart whose id is `id`; never found for a missing id. */
  function FindIndex(charts: seq<FlowChart>, id: Option<string>): (r: Option<nat>)
    ensures r.Some? ==>
      (r.value < |charts| && Some(charts[r.value].id) == id
       && forall j :: 0 <= j < r.value ==> Some(charts[j].id) != id)
    ensures r.None? ==> forall j :: 0 <= j < |charts| ==> Some(charts[j].id) != id
    decreases |charts|
  {
    if id.None? || charts == [] then None
    else if charts[0].id == id.value then Some(0)
    else
      match FindIndex(charts[1..], id)
      case Some(k) => Some(k + 1)
      case None => None
  }

  /** `charts.find(chart => chart.id === id)`. */
  function Find(charts: seq<FlowChart>, id: Option<string>): (r: Option<FlowChart>)
    ensures r.Some? ==> r.value in charts && Some(r.value.id) == id
    ensures r.Some? ==> exists k ::
      0 <= k < |charts| && charts[k] == r.value && forall j :: 0 <= j < k ==> Some(charts[j].id) != id
    ensures r.None? <==> forall c :: c in charts ==> Some(c.id) != id
  {
    match FindIndex(charts, id)
    case Some(k) => Some(charts[k])
    case None => None
  }

  /** `prev.map(chart => chart.id === id ? {...chart, ...u, updatedAt: now} : chart)`. */
  function UpdateCharts(charts: seq<FlowChart>, id: string, u: ChartFields, now: string): (r: seq<FlowChart>)
    ensures |r| == |charts|
    ensures forall i :: 0 <= i < |charts| ==>
      r[i] == (if charts[i].id == id then Merge(charts[i], u, now) else charts[i])
  {
    seq(|charts|, i requires 0 <= i < |charts| =>
      if charts[i].id == id then Merge(charts[i], u, now) else charts[i])
  }

  /** Without a chart of that id an update changes nothing; with one, the charts
      of every other id are untouched and each matching chart carries the update. */
  lemma UpdateChartsEffect(charts: seq<FlowChart>, id: string, u: ChartFields, now: string)
    ensures (forall c :: c in charts ==> c.id != id) ==> UpdateCharts(charts, id, u, now) == charts
    ensures forall i :: 0 <= i < |charts| && charts[i].id == id ==>
      UpdateCharts(charts, id, u, now)[i].updatedAt == now
      && (u.nodes.Some? ==> UpdateCharts(charts, id, u, now)[i].nodes == u.nodes)
  {
    if forall c :: c in charts ==> c.id != id {
      forall i | 0 <= i < |charts| ensures UpdateCharts(charts, id, u, now)[i] == charts[i] {
        assert charts[i] in charts;
      }
    }
  }

  function IdIsNot(id: string): FlowChart -> bool {
    (c: FlowChart) => c.id != id
  }

  /** `prev.filter(chart => chart.id !== id)`: every chart with that id goes, the
      others stay in order. */
  function RemoveCharts(charts: seq<FlowChart>, id: string): (r: seq<FlowChart>)
    ensures forall c :: c in r <==> c in charts && c.id != id
    ensures IsSubseq(r, charts)
    ensures forall c :: c in charts ==> multiset(r)[c] == if c.id != id then multiset(charts)[c] else 0
  {
    FilterIsSubseq(charts, IdIsNot(id));
    FilterMultiset(charts, IdIsNot(id));
    Filter(charts, IdIsNot(id))
  }

  /** The active id after deleting `id`: when the active chart was deleted, the
      first remaining chart's id, or none when none remains; otherwise unchanged. */
  function ActiveAfterDelete(charts: seq<FlowChart>, active: Option<string>, id: string): (r: Option<string>)
    ensures active != Some(id) ==> r == active
    ensures active == Some(id) && RemoveCharts(charts, id) == [] ==> r.None?
    ensures active == Some(id) && RemoveCharts(charts, id) != [] ==>
      r == Some(RemoveCharts(charts, id)[0].id) && r != Some(id)
  {
    if active == Some(id) then
      var remaining := RemoveCharts(charts, id);
      if |remaining| > 0 then
        assert remaining[0] in remaining;
        Some(remaining[0].id)
      else None
    else active
  }

  class Store {
    var flowCharts: seq<FlowChart>
    var activeFlowChartId: Option<string>
    var isEditorOpen: bool

    constructor()
      ensures flowCharts == [] && activeFlowChartId == None && !isEditorOpen
    {
      flowCharts, activeFlowChartId, isEditorOpen := [], None, false;
    }

    /** `activeFlowChart`, which `getFlowChartForAI` also returns: the first chart
        whose id is the active id, or none, also when the active id dangles. */
    function ActiveFlowChart(): (r: Option<FlowChart>)
      reads this
      ensures r.Some? ==> r.value in flowCharts && activeFlowChartId == Some(r.value.id)
      ensures r.Some? ==> exists k ::
        0 <= k < |flowCharts| && flowCharts[k] == r.value
        && forall j :: 0 <= j < k ==> activeFlowChartId != Some(flowCharts[j].id)
      ensures r.None? <==> forall c :: c in flowCharts ==> activeFlowChartId != Some(c.id)
    {
      Find(flowCharts, activeFlowChartId)
    }

    /** `createFlowChart`: appends one chart and makes it active. */
    method CreateFlowChart(data: ChartFields, genId: string, now: string) returns (chart: FlowChart)
      modifies this
      ensures chart == NewChart(data, genId, now) && chart.createdAt == chart.updatedAt
      ensures flowCharts == old(flowCharts) + [chart]
      ensures activeFlowChartId == Some(chart.id)
      ensures isEditorOpen == old(isEditorOpen)
    {
      chart := NewChart(data, genId, now);
      flowCharts := flowCharts + [chart];
      activeFlowChartId := Some(chart.id);
    }

    /** `updateFlowChart`. */
    method UpdateFlowChart(id: string, updates: ChartFields, now: string)
      modifies this
      ensures flowCharts == UpdateCharts(old(flowCharts), id, updates, now)
      ensures activeFlowChartId == old(activeFlowChartId) && isEditorOpen == old(isEditorOpen)
    {
      flowCharts := UpdateCharts(flowCharts, id, updates, now);
    }

    /** `updateActiveFlowChart`: a no-op unless the active id is a non-empty string. */
    method UpdateActiveFlowChart(updates: ChartFields, now: string)
      modifies this
      ensures Truthy(old(activeFlowChartId)) ==>
        flowCharts == UpdateCharts(old(flowCharts), old(activeFlowChartId).value, updates, now)
      ensures !Truthy(old(activeFlowChartId)) ==> flowCharts == old(flowCharts)
      ensures activeFlowChartId == old(activeFlowChartId) && isEditorOpen == old(isEditorOpen)
    {
      if Truthy(activeFlowChartId) {
        UpdateFlowChart(activeFlowChartId.value, updates, now);
      }
    }

    /** `deleteFlowChart`. */
    method DeleteFlowChart(id: string)
      modifies this
      ensures flowCharts == RemoveCharts(old(flowCharts), id)
      ensures activeFlowChartId == ActiveAfterDelete(old(flowCharts), old(activeFlowChartId), id)
      ensures isEditorOpen == old(isEditorOpen)
    {
      var remaining := RemoveCharts(flowCharts, id);
      if activeFlowChartId == Some(id) {
        activeFlowChartId := if |remaining| > 0 then Some(remaining[0].id) else None;
      }
      flowCharts := remaining;
    }

    /** `setActiveFlowChart`: takes any id, whether or not a chart has it. */
    method SetActiveFlowChart(id: Option<string>)
      modifies this
      ensures activeFlowChartId == id
      ensures flowCharts == old(flowCharts) && isEditorOpen == old(isEditorOpen)
    {
      activeFlowChartId := id;
    }

    method OpenEditor()
      modifies this
      ensures isEditorOpen
      ensures flowCharts == old(flowCharts) && activeFlowChartId == old(activeFlowChartId)
    {
      isEditorOpen := true;
    }

    method CloseEditor()
      modifies this
      ensures !isEditorOpen
      ensures flowCharts == old(flowCharts) && activeFlowChartId == old(activeFlowChartId)
    {
      isEditorOpen := false;
    }

    /** `handleAIModification`: with an active id the active chart is updated and
        the count is unchanged; without one, a new chart is created and made active. */
    method HandleAIModification(data: ChartFields, genId: string, now: string)
      modifies this
      ensures Truthy(old(activeFlowChartId)) ==>
        flowCharts == UpdateCharts(old(flowCharts), old(activeFlowChartId).value, data, now)
        && |flowCharts| == |old(flowCharts)| && activeFlowChartId == old(activeFlowChartId)
      ensures !Truthy(old(activeFlowChartId)) ==>
        flowCharts == old(flowCharts) + [NewChart(data, genId, now)]
        && activeFlowChartId == Some(NewChart(data, genId, now).id)
      ensures isEditorOpen == old(isEditorOpen)
    {
      if Truthy(activeFlowChartId) {
        UpdateActiveFlowChart(data, now);
      } else {
        var _ := CreateFlowChart(data, genId, now);
      }
    }
  }

  /** A created chart is the one the store then reports as active, unless an
      earlier chart already has the same id (an `id` in the data is kept as given). */
  lemma CreatedChartIsActive(charts: seq<FlowChart>, data: ChartFields, genId: string, now: string)
    requires forall c :: c in charts ==> c.id != NewChart(data, genId, now).id
    ensures var chart := NewChart(data, genId, now);
      Find(charts + [chart], Some(chart.id)) == Some(chart)
  {
    var chart := NewChart(data, genId, now);
    var all := charts + [chart];
    assert all[|charts|] == chart;
    var k := FindIndex(all, Some(chart.id));
    assert k.Some?;
  }

  /** A dangling active id finds nothing. */
  lemma DanglingActiveFindsNothing(charts: seq<FlowChart>, id: string)
    requires forall c :: c in charts ==> c.id != id
    ensures Find(charts, Some(id)).None?
  {
  }
}
