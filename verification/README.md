# Elastic Transcoder pipeline custom resource: the handler's decision logic

This project models the lifecycle handler of a custom resource that manages an
AWS Elastic Transcoder pipeline (`src/index.js`). The handler has four
operations:

- `validate` checks that `InputBucket`, `Name` and `Role` are set, in that
  order.
- `create` removes `ServiceToken` from the event's resource properties and
  sends them to `createPipeline`.
- `update` removes `ServiceToken` and `OutputBucket`, sets `Id` to the physical
  resource id and sends the properties to `updatePipeline`.
- `delete` calls `deletePipeline` only for ids of the form `^\d{13}-\w{6}$`,
  and treats `ResourceNotFoundException` as success.

The SDK calls are not modelled. Each operation takes the response the SDK
would deliver as an argument. It returns a `Run`: the remote calls it made,
with their parameters, and the arguments of the callback it completes with.

Files:

- `js_values.dfy` (module `JsValues`): JavaScript values, truthiness and
  property reads.
- `pipeline_id.dfy` (module `PipelineIdFormat`): the id regular expression as
  a list of fixed-count atoms, an anchored matcher, and a position-by-position
  reference definition proved equivalent to it.
- `handler.dfy` (module `PipelineHandler`): the four operations, the
  parameter projections and the callback mapping, with lemmas about them.

`create` and `update` edit the caller's `ResourceProperties` object in place
and send that same object. So `PropertyBag` is a class and `Create`/`Update`
are methods that reassign its entries. Their contracts state the new entries
and that the parameters sent are those entries. `validate` and `delete` change
nothing and are functions.

`update` has no `OutputBucket` immutability check: it deletes `OutputBucket`,
never reads `OldResourceProperties`, and always calls `updatePipeline`
(`Update`, `UpdateIgnoresDroppedKeys`).

## Model

| member | source | states |
|---|---|---|
| `PipelineHandler.MissingRequired` | src/index.js:9-17 | nothing is reported iff all of InputBucket, Name, Role are present and truthy; otherwise the reported property is the first of them, in that order, that is absent or falsy |
| `PipelineHandler.Validate` | src/index.js:8-18 | returns iff every required property is present and truthy, else throws "Missing required property " followed by the first missing one; it only reads the event |
| `PipelineHandler.ValidateMessageIdentifiesProperty` | src/index.js:8-18 | two events on which validate throws the same error miss the same property, so each missing property has its own message |
| `PipelineHandler.CreateParams` | src/index.js:21-22 | the create parameters hold exactly the original keys other than ServiceToken, each with its original value |
| `PipelineHandler.UpdateParams` | src/index.js:37-40 | the update parameters hold exactly Id plus the original keys other than ServiceToken and OutputBucket; Id is the physical resource id; every other kept key keeps its value |
| `PipelineHandler.PipelineReply` | src/index.js:23-33 | exactly one of error and data is given; an SDK error is passed on unchanged with no data; a success gives a null error and {physicalResourceId: Pipeline.Id, Arn: Pipeline.Arn} |
| `PipelineHandler.Create` | src/index.js:20-34 | the caller's properties lose ServiceToken in place; exactly one createPipeline call is made, with those same edited properties; the callback is PipelineReply of the response |
| `PipelineHandler.Update` | src/index.js:36-52 | the caller's properties become UpdateParams in place; exactly one updatePipeline call is made, with those edited properties, whatever OutputBucket was; the callback is PipelineReply of the response |
| `PipelineHandler.DeleteReply` | src/index.js:62-67 | never gives data; reports an error iff the SDK error is truthy and its code is not ResourceNotFoundException, and then it is that error unchanged; otherwise the error is undefined |
| `PipelineHandler.Delete` | src/index.js:54-68 | an id that is not a pipeline id gives no remote call and success; a pipeline id gives exactly one deletePipeline call with {Id: id}; the callback errs iff the id is a pipeline id and the SDK error is truthy and not ResourceNotFoundException, and then with that error, else the error is undefined; never any data |
| `PipelineHandler.ProjectionsKeepValidation` | src/index.js:8-40 | after create or update edit the properties in place, validate reports exactly what it reported before |
| `PipelineHandler.ProjectionsIdempotent` | src/index.js:21-40 | create or update run again on the properties it already edited sends the same parameters |
| `PipelineHandler.UpdateIgnoresDroppedKeys` | src/index.js:37-40 | the update parameters do not depend on the OutputBucket or ServiceToken values given, so no OutputBucket value is rejected |
| `PipelineHandler.UpdateNarrowsCreate` | src/index.js:21-40 | update sends the create parameters less OutputBucket, with Id set |
| `PipelineHandler.DeleteOfMissingPipelineSucceeds` | src/index.js:62-67 | a delete whose SDK error code is ResourceNotFoundException completes with no error and no data, so deletes can be repeated |
| `PipelineHandler.DeleteSituations` | tests/unit/index-unit-test.js:133-162 | the delete tests' situations, with the id 1234567890123-123456 standing in for the missing one (their event has no PhysicalResourceId, on which the code would throw): a delete makes one call with {Id: id}; it succeeds on no error and on ResourceNotFoundException and passes any other error on; as an extra case beyond the tests, the non-pipeline id "PhysicalResourceId" makes no call and succeeds |
| `PipelineIdFormat.Matches` | src/index.js:55 | an anchored match of the atom list consumes exactly as many characters as the atoms count |
| `PipelineIdFormat.RegexIffPipelineId` | src/index.js:55 | ^\d{13}-\w{6}$ matches a string iff it has length 20, ASCII digits at 0-12, '-' at 13 and [A-Za-z0-9_] at 14-19 |
| `PipelineIdFormat.PipelineIdSplits` | src/index.js:55 | a string matches iff it is 13 digits, '-' and 6 word characters joined |
| `PipelineIdFormat.ExampleIdsClassified` | src/index.js:55 | the illustrative id 1234567890123-123456 matches the pattern and the string PhysicalResourceId does not |

## Left out

- The SDK client and the `createPipeline`, `updatePipeline` and `deletePipeline` network calls. Their responses are arguments; the calls made are recorded as `ApiCall` values.
- The `setImmediate` deferral on the delete path that makes no remote call. The model gives the callback's arguments, not when it runs.
- The callback plumbing and the unused `_context` argument.
- Numbers are integers. `NaN` (falsy) and fractions are not modelled, so a required property set to `NaN` is outside the model.
- Property reads see only an object's own entries. Prototype properties and getters are not modelled.
- `Delete` requires the physical resource id to be a string. The code calls `match` on it unconditionally; any other value would throw a TypeError. An event without a `PhysicalResourceId` therefore falls outside the model.
- `Create`, `Update` and `PipelineReply` require an SDK failure to carry a truthy error. With a falsy error the code would read `Pipeline` of an undefined response and throw.
- A missing `ResourceProperties` object, which would make `validate`, `create` and `update` throw a TypeError. Every `Event` carries a property object.
- JavaScript `===` on objects compares references. The model only compares a `code` property with a string, where reference and value equality agree.
