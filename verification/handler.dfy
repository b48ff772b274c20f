/**
  The pipeline lifecycle handler: `validate`, `create`, `update` and `delete`
  of an Elastic Transcoder pipeline custom resource.

  The remote SDK calls are not modelled; each operation receives the
  response the SDK would deliver as an argument and reports, besides the
  callback it completes with, the list of remote calls it made with their
  parameters. `create` and `update` edit the caller's resource-property
  object in place and send that same object, so it is a class whose entries
  the two methods reassign.
 */
module PipelineHandler {
  import opened JsValues
  import opened PipelineIdFormat

  const ServiceToken := "ServiceToken"
  const OutputBucket := "OutputBucket"
  const IdKey := "Id"
  const CodeKey := "code"
  const NotFoundCode := "ResourceNotFoundException"
  const MissingPrefix := "Missing required property "

  /** The properties `validate` demands, in the order it checks them. */
  const Required: seq<string> := ["InputBucket", "Name", "Role"]

  /** The `ResourceProperties` object of a lifecycle event. */
  class PropertyBag {
    var entries: Props

    constructor (entries: Props)
      ensures this.entries == entries
    {
      this.entries := entries;
    }
  }

  /** A lifecycle event. The handler never reads `oldResourceProperties`. */
  datatype Event = Event(
    resourceProperties: PropertyBag,
    oldResourceProperties: Option<Props>,
    physicalResourceId: Value)

  /** What `Pipeline` holds in a create or update response. */
  datatype Pipeline = Pipeline(id: string, arn: string)

  /** What the SDK hands to the create or update callback. */
  datatype PipelineResponse = Failed(error: Value) | Succeeded(pipeline: Pipeline)

  /** A remote call and the parameters it was given. */
  datatype ApiCall =
    | CreatePipeline(params: Props)
    | UpdatePipeline(params: Props)
    | DeletePipeline(params: Props)

  /** `{ physicalResourceId, Arn }` */
  datatype ResultData = ResultData(physicalResourceId: string, arn: string)

  /** The arguments of the completion callback: `callback(error, data)`;
      an argument left out is `undefined`. */
  datatype Reply = Reply(error: Value, data: Option<ResultData>)

  /** The remote calls an operation made, in order, and how it completed. */
  datatype Run = Run(calls: seq<ApiCall>, reply: Reply)

  /** The outcome of `validate`: it returns, or throws an error with a message. */
  datatype Completion = Returned | Threw(message: string)

  /** `p.name` is truthy: the negation of `!event.ResourceProperties.name`. */
  predicate Present(p: Props, name: string) {
    Truthy(Get(p, name))
  }

  /** The property `validate` reports, if any: the first of `Required` that
      is absent or falsy. */
  function MissingRequired(p: Props): (r: Option<string>)
    ensures r.None? <==> forall i :: 0 <= i < |Required| ==> Present(p, Required[i])
    ensures r.Some? ==>
      exists i :: 0 <= i < |Required| && r.value == Required[i] && !Present(p, Required[i])
        && forall j :: 0 <= j < i ==> Present(p, Required[j])
  {
    if !Present(p, Required[0]) then Some(Required[0])
    else if !Present(p, Required[1]) then Some(Required[1])
    else if !Present(p, Required[2]) then Some(Required[2])
    else None
  }

  /** `validate(event)`: reads the event and changes nothing. */
  function Validate(event: Event): (r: Completion)
    reads event.resourceProperties
    ensures r.Returned? <==>
      forall i :: 0 <= i < |Required| ==> Present(event.resourceProperties.entries, Required[i])
    ensures r.Threw? ==>
      exists name :: MissingRequired(event.resourceProperties.entries) == Some(name)
        && r.message == MissingPrefix + name
  {
    match MissingRequired(event.resourceProperties.entries)
    case None => Returned
    case Some(name) => Threw(MissingPrefix + name)
  }

  /** Each missing property is reported with its own message: two events
      on which `validate` throws the same error miss the same property. */
  lemma ValidateMessageIdentifiesProperty(e1: Event, e2: Event)
    requires Validate(e1).Threw? && Validate(e1) == Validate(e2)
    ensures MissingRequired(e1.resourceProperties.entries) == MissingRequired(e2.resourceProperties.entries)
  {
    var m1 := MissingRequired(e1.resourceProperties.entries);
    var m2 := MissingRequired(e2.resourceProperties.entries);
    assert m1.Some? && m2.Some?;
    assert m1.value == (MissingPrefix + m1.value)[|MissingPrefix|..];
    assert m2.value == (MissingPrefix + m2.value)[|MissingPrefix|..];
  }

  /** The parameters `create` sends: the properties without `ServiceToken`. */
  function CreateParams(p: Props): (r: Props)
    ensures forall k :: k in r <==> k in p && k != ServiceToken
    ensures forall k :: k in r ==> r[k] == p[k]
  {
    p - {ServiceToken}
  }

  /** The parameters `update` sends: the properties without `ServiceToken`
      and `OutputBucket`, with `Id` set to the physical resource id. */
  function UpdateParams(p: Props, id: Value): (r: Props)
    ensures forall k :: k in r <==> k == IdKey || (k in p && k != ServiceToken && k != OutputBucket)
    ensures IdKey in r && r[IdKey] == id
    ensures forall k :: k in r && k != IdKey ==> r[k] == p[k]
  {
    (p - {ServiceToken, OutputBucket})[IdKey := id]
  }

  /** The callback `create` and `update` complete with. An SDK failure is
      reported with a truthy error; otherwise the code would read
      `Pipeline` of an undefined response. */
  function PipelineReply(response: PipelineResponse): (r: Reply)
    requires response.Failed? ==> Truthy(response.error)
    ensures Truthy(r.error) <==> r.data.None?
    ensures response.Failed? ==> r.error == response.error
    ensures response.Succeeded? ==>
      r.error == Null && r.data == Some(ResultData(response.pipeline.id, response.pipeline.arn))
  {
    match response
    case Failed(error) => Reply(error, None)
    case Succeeded(pipeline) => Reply(Null, Some(ResultData(pipeline.id, pipeline.arn)))
  }

  /** `create(event, _context, callback)` */
  method Create(event: Event, response: PipelineResponse) returns (run: Run)
    requires response.Failed? ==> Truthy(response.error)
    modifies event.resourceProperties
    ensures event.resourceProperties.entries == CreateParams(old(event.resourceProperties.entries))
    ensures run.calls == [CreatePipeline(event.resourceProperties.entries)]
    ensures run.reply == PipelineReply(response)
  {
    event.resourceProperties.entries := event.resourceProperties.entries - {ServiceToken};
    var params := event.resourceProperties;
    run := Run([CreatePipeline(params.entries)], PipelineReply(response));
  }

  /** `update(event, _context, callback)`. It always calls the SDK: nothing
      compares the new properties with `oldResourceProperties`. */
  method Update(event: Event, response: PipelineResponse) returns (run: Run)
    requires response.Failed? ==> Truthy(response.error)
    modifies event.resourceProperties
    ensures event.resourceProperties.entries ==
      UpdateParams(old(event.resourceProperties.entries), event.physicalResourceId)
    ensures run.calls == [UpdatePipeline(event.resourceProperties.entries)]
    ensures run.reply == PipelineReply(response)
  {
    event.resourceProperties.entries := event.resourceProperties.entries - {ServiceToken};
    event.resourceProperties.entries := event.resourceProperties.entries - {OutputBucket};
    var params := event.resourceProperties;
    params.entries := params.entries[IdKey := event.physicalResourceId];
    run := Run([UpdatePipeline(params.entries)], PipelineReply(response));
  }

  /** The callback of the remote delete: a missing pipeline counts as deleted. */
  function DeleteReply(error: Value): (r: Reply)
    ensures r.data.None?
    ensures Truthy(r.error) <==> Truthy(error) && Property(error, CodeKey) != Str(NotFoundCode)
    ensures Truthy(r.error) ==> r.error == error
    ensures !Truthy(r.error) ==> r.error == Undefined
  {
    if Truthy(error) && Property(error, CodeKey) != Str(NotFoundCode) then Reply(error, None)
    else Reply(Undefined, None)
  }

  /** `delete(event, _context, callback)`. `error` is what the SDK would hand
      to the delete callback; it is ignored when no remote call is made. The
      source calls `match` on the id, so it must be a string. */
  function Delete(event: Event, error: Value): (r: Run)
    requires event.physicalResourceId.Str?
    ensures r.reply.data.None?
    ensures !IsPipelineId(event.physicalResourceId.s) ==> r.calls == [] && r.reply.error == Undefined
    ensures IsPipelineId(event.physicalResourceId.s) ==>
      r.calls == [DeletePipeline(map[IdKey := event.physicalResourceId])]
    ensures Truthy(r.reply.error) <==>
      IsPipelineId(event.physicalResourceId.s) && Truthy(error)
        && Property(error, CodeKey) != Str(NotFoundCode)
    ensures Truthy(r.reply.error) ==> r.reply.error == error
    ensures !Truthy(r.reply.error) ==> r.reply.error == Undefined
  {
    var id := event.physicalResourceId.s;
    RegexIffPipelineId(id);
    if !Matches(id, PipelineIdRegex) then Run([], Reply(Undefined, None))
    else Run([DeletePipeline(map[IdKey := Str(id)])], DeleteReply(error))
  }

  /** Removing `ServiceToken`, `OutputBucket` and setting `Id` never touch a
      required property, so `validate` gives the same verdict on the event
      after `create` or `update` edited it in place. */
  lemma ProjectionsKeepValidation(p: Props, id: Value)
    ensures MissingRequired(CreateParams(p)) == MissingRequired(p)
    ensures MissingRequired(UpdateParams(p, id)) == MissingRequired(p)
  {
    forall i | 0 <= i < |Required|
      ensures Present(CreateParams(p), Required[i]) == Present(p, Required[i])
      ensures Present(UpdateParams(p, id), Required[i]) == Present(p, Required[i])
    {
    }
  }

  /** `create` or `update` run again on the event it already edited sends
      the same parameters. */
  lemma ProjectionsIdempotent(p: Props, id: Value)
    ensures CreateParams(CreateParams(p)) == CreateParams(p)
    ensures UpdateParams(UpdateParams(p, id), id) == UpdateParams(p, id)
  {
  }

  /** What `update` sends does not depend on the `OutputBucket` or the
      `ServiceToken` it is given: no value of either is rejected. */
  lemma UpdateIgnoresDroppedKeys(p: Props, id: Value, bucket: Value, token: Value)
    ensures UpdateParams(p[OutputBucket := bucket], id) == UpdateParams(p, id)
    ensures UpdateParams(p[ServiceToken := token], id) == UpdateParams(p, id)
  {
  }

  /** `update` sends what `create` would send for the same properties, less
      `OutputBucket`, plus `Id`. */
  lemma UpdateNarrowsCreate(p: Props, id: Value)
    ensures UpdateParams(p, id) == (CreateParams(p) - {OutputBucket})[IdKey := id]
  {
  }

  /** Deleting a pipeline the service no longer knows succeeds, so a delete
      can be repeated. */
  lemma DeleteOfMissingPipelineSucceeds(event: Event, error: Value)
    requires event.physicalResourceId.Str?
    requires Property(error, CodeKey) == Str(NotFoundCode)
    ensures Delete(event, error).reply == Reply(Undefined, None)
  {
  }
  /** The property object every unit test of the handler starts from. */
  function TestProperties(): Props {
    map["InputBucket" := Str("InputBucket"), "Name" := Str("Name"), "Role" := Str("Role")]
  }

  /** What a caller of `Validate` can conclude in the unit tests' situations. */
  method ValidateSituations()
  {
    var props := TestProperties();
    var bag := new PropertyBag(props);
    var event := Event(bag, None, Undefined);
    assert Validate(event) == Returned;
    bag.entries := props - {"InputBucket"};
    assert Validate(event) == Threw("Missing required property InputBucket");
    bag.entries := props - {"Name"};
    assert Validate(event) == Threw("Missing required property Name");
    bag.entries := props - {"Role"};
    assert Validate(event) == Threw("Missing required property Role");
  }

  /** What a caller of `Create` and `Update` can conclude from their contracts
      in the unit tests' situations. */
  method CreateUpdateSituations()
  {
    var props := TestProperties();
    var bag := new PropertyBag(props);
    var event := Event(bag, None, Undefined);
    var run := Create(event, Succeeded(Pipeline("Id", "Arn")));
    assert |run.calls| == 1 && run.calls[0].CreatePipeline?;
    assert run.reply == Reply(Null, Some(ResultData("Id", "Arn")));

    bag.entries := props;
    run := Create(event, Failed(Str("createPipeline")));
    assert run.reply == Reply(Str("createPipeline"), None);

    bag.entries := props;
    run := Update(event, Succeeded(Pipeline("Id", "Arn")));
    assert UpdateParams(props, Undefined) == props[IdKey := Undefined];
    assert run.calls == [UpdatePipeline(props[IdKey := Undefined])];
    assert run.reply == Reply(Null, Some(ResultData("Id", "Arn")));
  }

  /** The unit tests' delete situations. Their event carries no id, which
      `delete` cannot handle, so the illustrative id `1234567890123-123456`
      stands in for it. The last clause is an extra case, not one of the
      tests: an id that is not a pipeline id makes no call and succeeds
      whatever error the SDK would have given. */
  lemma DeleteSituations(bag: PropertyBag)
    ensures var e := Event(bag, None, Str("1234567890123-123456"));
      && Delete(e, Undefined) == Run([DeletePipeline(map[IdKey := Str("1234567890123-123456")])], Reply(Undefined, None))
      && Delete(e, Obj(map[CodeKey := Str(NotFoundCode)])).reply == Reply(Undefined, None)
      && Delete(e, Obj(map[CodeKey := Str("deletePipeline")])).reply == Reply(Obj(map[CodeKey := Str("deletePipeline")]), None)
    ensures Delete(Event(bag, None, Str("PhysicalResourceId")), Obj(map[CodeKey := Str("deletePipeline")])) == Run([], Reply(Undefined, None))
  {
    ExampleIdsClassified();
  }
}
