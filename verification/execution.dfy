/** `execute` and `write`: how a run of the goal ends. Index building, schema
    generation and the file write are external effects; the model takes
    their results as inputs and routes them as the plugin does. */
module Execution {
  import opened Wrappers
  import opened Indexing

  /** The build failures the goal raises, each with its message. */
  datatype Failure = CantComputeIndex | CouldNotGenerateSchema | CantWriteResult {
    function Message(): string {
      match this
      case CantComputeIndex => "Can't compute index"
      case CouldNotGenerateSchema => "Could not generate OpenAPI Schema"
      case CantWriteResult => "Can't write the result"
    }
  }

  /** What schema generation returned: a serialized document, `null`, or an
      I/O failure. */
  datatype Generation = Schema(text: string) | NoSchema | GenerationFailed

  /** How the run ended. */
  datatype Outcome =
    | Warned                                   // no schema: a warning is logged
    | Logged(schema: string)                   // schema printed to the log
    | Written(destination: string, schema: string)
    | Failed(reason: Failure)
    | Crashed                                  // an uncaught NullPointerException ends the build

  /** A destination that is unset or empty means "print to the log". */
  predicate NoDestination(destination: Option<string>) {
    destination.None? || destination.value == ""
  }

  /** `write` as the plugin has it: log the schema when there is no
      destination; otherwise create the destination's parent directory and
      write the file. A destination without a parent directory (a bare file
      name) makes the parent lookup return `null`, and the `mkdirs` call on it
      throws a NullPointerException that no handler catches. */
  function WriteAsWritten(destination: Option<string>, hasParent: bool, schema: string, writeSucceeds: bool): (o: Outcome)
    ensures o.Logged? <==> NoDestination(destination)
    ensures o.Logged? ==> o.schema == schema
    ensures o.Crashed? <==> !NoDestination(destination) && !hasParent
    ensures o.Written? <==> !NoDestination(destination) && hasParent && writeSucceeds
    ensures o.Written? ==> o.destination == destination.value && o.schema == schema
    ensures o.Failed? <==> !NoDestination(destination) && hasParent && !writeSucceeds
    ensures o.Failed? ==> o.reason == CantWriteResult
    ensures !o.Warned?
  {
    if NoDestination(destination) then Logged(schema)
    else if !hasParent then Crashed
    else if writeSucceeds then Written(destination.value, schema)
    else Failed(CantWriteResult)
  }

  /** `write` as intended: log the schema when there is no destination,
      otherwise write it there, creating parent directories only when there
      are any; a write that fails is a build failure. */
  function Write(destination: Option<string>, schema: string, writeSucceeds: bool): (o: Outcome)
    ensures o.Logged? <==> NoDestination(destination)
    ensures o.Logged? ==> o.schema == schema
    ensures o.Written? <==> !NoDestination(destination) && writeSucceeds
    ensures o.Written? ==> o.destination == destination.value && o.schema == schema
    ensures o.Failed? <==> !NoDestination(destination) && !writeSucceeds
    ensures o.Failed? ==> o.reason == CantWriteResult
    ensures !o.Warned? && !o.Crashed?
  {
    if NoDestination(destination) then Logged(schema)
    else if writeSucceeds then Written(destination.value, schema)
    else Failed(CantWriteResult)
  }

  /** The two agree whenever the plugin does not crash: no destination, or a
      destination with a parent directory. */
  lemma WriteAgreesWithoutCrash(destination: Option<string>, hasParent: bool, schema: string, writeSucceeds: bool)
    requires NoDestination(destination) || hasParent
    ensures WriteAsWritten(destination, hasParent, schema, writeSucceeds) == Write(destination, schema, writeSucceeds)
  {
  }

  /** A bare file name as destination: the plugin crashes where the intended
      routing writes the file. */
  lemma BareFileNameDestinationCrashes()
    ensures WriteAsWritten(Some("openapi.yaml"), false, "openapi: 3.0.1", true) == Crashed
    ensures Write(Some("openapi.yaml"), "openapi: 3.0.1", true) == Written("openapi.yaml", "openapi: 3.0.1")
  {
  }

  /** `execute`: build the indexes (failing if the module's classes cannot be
      indexed), generate the schema from them, and route the result through
      the intended `Write`. */
  method Execute(moduleIndex: Option<IndexId>, disableFlag: Option<bool>, artifacts: seq<Artifact>,
                 scopes: seq<string>, kinds: seq<string>, generate: seq<IndexId> -> Generation,
                 destination: Option<string>, writeSucceeds: bool) returns (o: Outcome)
    ensures moduleIndex.None? <==> o == Failed(CantComputeIndex)
    ensures moduleIndex.Some? ==>
              var used := if ScanDependenciesDisable(disableFlag) then [moduleIndex.value]
                          else [moduleIndex.value] + Contributed(artifacts, scopes, kinds);
              match generate(used)
              case GenerationFailed => o == Failed(CouldNotGenerateSchema)
              case NoSchema => o == Warned
              case Schema(text) => o == Write(destination, text, writeSucceeds)
    ensures o.Warned? ==> moduleIndex.Some?
    ensures o.Written? ==> !NoDestination(destination) && writeSucceeds
    ensures !o.Crashed?
  {
    if moduleIndex.None? {
      return Failed(CantComputeIndex);
    }
    var indexes := CreateIndex(moduleIndex.value, disableFlag, artifacts, scopes, kinds);
    var generated := generate(indexes);
    match generated
    case GenerationFailed =>
      o := Failed(CouldNotGenerateSchema);
    case NoSchema =>
      o := Warned;
    case Schema(text) =>
      o := Write(destination, text, writeSucceeds);
  }
}
