/** The onEvent handler of the opt-in regions custom resource: it starts the
    operation and, for Create and Update, hands the request's `props` back. */
module OptInRegionsOnEvent {
  import opened Wrappers
  import opened CustomResource

  /** `{ IsComplete, Status, Reason?, Props? }` */
  datatype Response<V> = Response(isComplete: bool, status: string, reason: Option<string>, props: Option<V>)

  const SUCCESS := "SUCCESS"

  /** The `switch (event.RequestType)`; a request type other than the three cases falls
      out of the switch and the handler returns `undefined` (None). */
  function Handler<V>(event: Event<V>): (r: Option<Response<V>>)
    ensures r.Some? <==> event.requestType in {"Create", "Update", "Delete"}
    ensures r.Some? ==> r.value.status == SUCCESS && r.value.reason.None?
    ensures r.Some? ==> (r.value.isComplete <==> event.requestType == "Delete")
    ensures r.Some? && event.requestType != "Delete" ==> r.value.props == Property(event, "props")
    ensures event.requestType == "Delete" ==> r.value.props.None?
  {
    if event.requestType == "Create" || event.requestType == "Update" then
      Some(Response(false, SUCCESS, None, Property(event, "props")))
    else if event.requestType == "Delete" then
      Some(Response(true, SUCCESS, None, None))
    else
      None
  }

  /** An Update is answered exactly as a Create with the same properties. */
  lemma UpdateAnsweredAsCreate<V>(properties: map<string, V>)
    ensures Handler(Event("Update", properties)) == Handler(Event("Create", properties))
  {
  }

  /** Create and Update forward `props` untouched. */
  lemma PropsForwardedUnchanged<V>(event: Event<V>, props: V)
    requires event.requestType in {"Create", "Update"}
    requires "props" in event.resourceProperties && event.resourceProperties["props"] == props
    ensures Handler(event) == Some(Response(false, SUCCESS, None, Some(props)))
  {
  }

  /** Delete does nothing and reports completion at once, without props. */
  lemma DeleteCompletesAtOnce<V>(properties: map<string, V>)
    ensures Handler(Event("Delete", properties)) == Some(Response(true, SUCCESS, None, None))
  {
  }
}
