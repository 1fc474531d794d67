/** The CloudFormation custom-resource event both Lambda handlers receive. */
module CustomResource {
  import opened Wrappers

  /** `RequestType` is carried as the string the framework sends; `ResourceProperties`
      is a bag of named values of some type `V`. */
  datatype Event<V> = Event(requestType: string, resourceProperties: map<string, V>)

  /** `event.ResourceProperties[key]`, which is `undefined` when the key is missing. */
  function Property<V>(event: Event<V>, key: string): (r: Option<V>)
    ensures r.Some? <==> key in event.resourceProperties
    ensures r.Some? ==> r.value == event.resourceProperties[key]
  {
    if key in event.resourceProperties then Some(event.resourceProperties[key]) else None
  }
}
