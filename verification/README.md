# SmallRye OpenAPI `generate-schema` Maven goal — decision rules in Dafny

The `generate-schema` goal of the SmallRye OpenAPI Maven plugin indexes a
module's compiled classes (and, optionally, its dependency jars), hands the
index and a configuration map to the SmallRye annotation scanner, merges in
a static OpenAPI file if one is found, and writes the resulting YAML to a
destination file or to the build log.

Almost everything the goal does is delegated to the Jandex indexer, the
SmallRye scanner and serializer, or the filesystem. This project models the
decision rules the goal itself owns, as pure functions over immutable data:

- **Configuration map** (`PropertyMap`, `PluginConfig`): the map loaded from
  the optional properties file, with the 26 OpenAPI plugin parameters laid
  over it in a fixed order. A `null` parameter is skipped. A Boolean is
  stored as `"true"`/`"false"`. An empty list is skipped. Any other list is
  joined with `","`.
- **Static file lookup** (`StaticFile`): the first of six fixed relative
  paths that exists under the classes directory, or nothing.
- **Index selection** (`Indexing`): the module index first, then, unless
  dependency scanning is disabled, the index of every artifact whose scope
  and type are allowed and whose indexing succeeds. Only walked paths ending
  in `.class` are indexed from the classes directory.
- **Outcome routing** (`Execution`): a failure to index the module, a failed
  or empty schema generation, logging versus writing, and a failed write.
  A destination without a parent directory crashes the plugin; the model
  records that behaviour and also gives the intended routing (see Findings).

The filesystem is a `ClassesDir(present, files)` value. The loaded
properties file is a map. Library results are opaque `IndexId`s, an
`Option` for a jar index that threw, and a `Generation` value. The string
values of the configuration keys are constants of the MicroProfile OpenAPI
and SmallRye libraries. They are not part of this model, so the key names
are a parameter `name: ConfigKey -> string`. Where precedence depends on
distinct names, it is assumed injective.

## Model

| member | source | states |
|---|---|---|
| PropertyMap.AddToPropertyMap | tools/maven-plugin/src/main/java/io/smallrye/openapi/mavenplugin/GenerateSchemaMojo.java:350-366 | a null value, or a null or empty list, leaves the map unchanged; otherwise exactly the given key is added or replaced with the value's text, and every other entry keeps its value |
| PropertyMap.AddStringStoresText | tools/maven-plugin/src/main/java/io/smallrye/openapi/mavenplugin/GenerateSchemaMojo.java:356-360 | a String parameter is stored verbatim under its key |
| PropertyMap.AddBooleanStoresText | tools/maven-plugin/src/main/java/io/smallrye/openapi/mavenplugin/GenerateSchemaMojo.java:350-354 | a Boolean parameter is stored as "true" exactly when it is true and "false" exactly when it is false |
| PropertyMap.AddListSingleton | tools/maven-plugin/src/main/java/io/smallrye/openapi/mavenplugin/GenerateSchemaMojo.java:362-366 | a one-element list is stored as that element alone, with no separator |
| PropertyMap.AddListRoundTrip | tools/maven-plugin/src/main/java/io/smallrye/openapi/mavenplugin/GenerateSchemaMojo.java:362-366 | the stored list value, split at commas, gives back every element in order, provided no element contains a comma |
| Strings.Join | tools/maven-plugin/src/main/java/io/smallrye/openapi/mavenplugin/GenerateSchemaMojo.java:364 | the joined text starts with the first element, ends with the last, and is as long as the elements plus one separator per gap |
| Strings.SplitJoin | tools/maven-plugin/src/main/java/io/smallrye/openapi/mavenplugin/GenerateSchemaMojo.java:364 | joining with a one-character separator is undone by splitting at it when no element contains the separator |
| Strings.JoinConflatesSeparatorInElement | tools/maven-plugin/src/main/java/io/smallrye/openapi/mavenplugin/GenerateSchemaMojo.java:364 | without that condition the comma join is not injective: ["a,b"] and ["a","b"] are stored alike |
| PropertyMap.Overlay | tools/maven-plugin/src/main/java/io/smallrye/openapi/mavenplugin/GenerateSchemaMojo.java:320-345 | laying the parameters over a map one after another leaves the starting keys plus the keys of the non-skipped parameters, no more and no fewer |
| PropertyMap.OverlayLastWins | tools/maven-plugin/src/main/java/io/smallrye/openapi/mavenplugin/GenerateSchemaMojo.java:320-345 | a key's value is the text of the last non-skipped overlay for it, whatever came earlier or was in the starting map |
| PropertyMap.OverlayKeepsUntouched | tools/maven-plugin/src/main/java/io/smallrye/openapi/mavenplugin/GenerateSchemaMojo.java:320-345 | a key no non-skipped overlay names keeps its starting value, or stays absent |
| PluginConfig.ParameterOverridesFile | tools/maven-plugin/src/main/java/io/smallrye/openapi/mavenplugin/GenerateSchemaMojo.java:307-348 | a set plugin parameter (a non-empty list, for list parameters) decides its key's value over the properties file |
| PluginConfig.FileValueSurvives | tools/maven-plugin/src/main/java/io/smallrye/openapi/mavenplugin/GenerateSchemaMojo.java:307-348 | a properties-file key that no set parameter names keeps the file's value |
| PluginConfig.GetProperties | tools/maven-plugin/src/main/java/io/smallrye/openapi/mavenplugin/GenerateSchemaMojo.java:307-348 | the result's keys are exactly the loaded file's keys plus the names of the set parameters, counting lists only when non-empty; its values are pinned down by ParameterOverridesFile and FileValueSurvives |
| PluginConfig.KeysWithoutFile | tools/maven-plugin/src/main/java/io/smallrye/openapi/mavenplugin/GenerateSchemaMojo.java:309-345 | with no properties file, or one that does not exist, the keys are exactly the names of the set parameters |
| PluginConfig.DisableFlagRecorded | tools/maven-plugin/src/main/java/io/smallrye/openapi/mavenplugin/GenerateSchemaMojo.java:330 | a set dependency-scanning flag is recorded in the configuration as the text of the decision the indexing step takes from it |
| StaticFile.GetStaticFile | tools/maven-plugin/src/main/java/io/smallrye/openapi/mavenplugin/GenerateSchemaMojo.java:268-298 | nothing when the classes directory is missing or no candidate exists; otherwise an existing candidate with no existing candidate before it in the order yaml, WEB-INF yaml, yml, WEB-INF yml, json, WEB-INF json |
| StaticFile.FirstExisting | tools/maven-plugin/src/main/java/io/smallrye/openapi/mavenplugin/GenerateSchemaMojo.java:271-297 | reference search: the first listed path that exists, or nothing exactly when none does |
| StaticFile.GetStaticFileIsFirstMatch | tools/maven-plugin/src/main/java/io/smallrye/openapi/mavenplugin/GenerateSchemaMojo.java:268-298 | the six-step probe equals the first-match search over the six candidates when the directory exists, and nothing otherwise |
| Indexing.ScanDependenciesDisable | tools/maven-plugin/src/main/java/io/smallrye/openapi/mavenplugin/GenerateSchemaMojo.java:205-210 | scanning is disabled exactly when the flag is set and true; a null flag means enabled |
| Indexing.Contributed | tools/maven-plugin/src/main/java/io/smallrye/openapi/mavenplugin/GenerateSchemaMojo.java:186-198 | every dependency index comes from an artifact with an allowed scope and type whose indexing succeeded, and there are no more of them than artifacts |
| Indexing.ContributedComplete | tools/maven-plugin/src/main/java/io/smallrye/openapi/mavenplugin/GenerateSchemaMojo.java:186-198 | every artifact with an allowed scope and type whose indexing succeeded contributes its index |
| Indexing.ContributedAppend | tools/maven-plugin/src/main/java/io/smallrye/openapi/mavenplugin/GenerateSchemaMojo.java:186-198 | selection keeps artifact order: it distributes over concatenation of artifact lists |
| Indexing.CreateIndex | tools/maven-plugin/src/main/java/io/smallrye/openapi/mavenplugin/GenerateSchemaMojo.java:183-202 | the module index comes first; when scanning is disabled it is the only one, otherwise the selected dependency indexes follow in artifact order, and a failed artifact is skipped |
| Indexing.ClassFiles | tools/maven-plugin/src/main/java/io/smallrye/openapi/mavenplugin/GenerateSchemaMojo.java:215-217 | a walked path is indexed exactly when its string form ends in ".class" |
| Indexing.ClassFilesAppend | tools/maven-plugin/src/main/java/io/smallrye/openapi/mavenplugin/GenerateSchemaMojo.java:215-217 | class-file selection keeps the walked paths in order, each as often as walked: it distributes over concatenation |
| Execution.WriteAsWritten | tools/maven-plugin/src/main/java/io/smallrye/openapi/mavenplugin/GenerateSchemaMojo.java:368-385 | as the source behaves: logged exactly when the destination is null or empty; an uncaught NullPointerException exactly when the destination is non-empty and has no parent directory; otherwise written exactly when the write succeeds, and "Can't write the result" exactly when it fails |
| Execution.Write | tools/maven-plugin/src/main/java/io/smallrye/openapi/mavenplugin/GenerateSchemaMojo.java:368-385 | as intended: logged exactly when the destination is null or empty; otherwise written exactly when the write succeeds and "Can't write the result" exactly when it fails; it never crashes |
| Execution.WriteAgreesWithoutCrash | tools/maven-plugin/src/main/java/io/smallrye/openapi/mavenplugin/GenerateSchemaMojo.java:368-385 | the source and the intended routing agree whenever the destination is unset, empty, or has a parent directory |
| Execution.BareFileNameDestinationCrashes | tools/maven-plugin/src/main/java/io/smallrye/openapi/mavenplugin/GenerateSchemaMojo.java:375 | the destination "openapi.yaml" crashes the source, while the intended routing writes it |
| Execution.Execute | tools/maven-plugin/src/main/java/io/smallrye/openapi/mavenplugin/GenerateSchemaMojo.java:160-174 | a module-indexing failure is "Can't compute index"; otherwise generation runs on the selected indexes, and its I/O failure is "Could not generate OpenAPI Schema", a null schema a warning with no write, and a schema goes to the intended write, so the run never crashes |

## Left out

- Index building, scanning, merging, filtering and serialization: Jandex and the SmallRye runtime are external libraries. Their results are inputs: `IndexId`s, a jar index that may be absent, and a `Generation` value.
- The values of the configuration-key constants (`OASConfig`, `OpenApiConstants`): they are defined in external libraries, so the model takes a naming function.
- Properties-file syntax and the I/O errors of loading it: the loaded file is a map. A load failure surfaces as a failed generation, which `Execute` covers through `GenerationFailed`.
- `getFormat`: it uses `Path.endsWith(String)`, which compares path elements rather than string suffixes.
- The join of the classes directory with a candidate path (`Paths.get`): `GetStaticFile` returns the relative candidate.
- The order in which `Files.walk` visits paths, and reading the class files themselves.
- Logging, the directories `mkdirs` creates, and reflection-based model readers and filters (`modelFromReader`, `getFilter`).
- Maven parameter injection and default values, including the defaults `compile,system` and `jar` for the allowed scopes and types. A null scopes or types list, which would throw, is not modelled.
- Indexing.CreateIndex: returns a sequence of indexes. The source returns the module index itself when scanning is disabled and a composite index otherwise; the model does not distinguish the two.
- Execution.Execute: routes a schema through the intended `Write`, so it does not show the crash the source has for a destination without a parent directory; `WriteAsWritten` models that crash (see Findings).
- Execution.WriteAsWritten: whether the destination has a parent directory is an input, because `File.getParentFile` is foreign path semantics.

## Findings

| source | as written | input that shows it | evidently intended | confidence | as-written member | corrected member |
|---|---|---|---|---|---|---|
| tools/maven-plugin/src/main/java/io/smallrye/openapi/mavenplugin/GenerateSchemaMojo.java:375 | `getParentFile()` is dereferenced without a null check: a destination with no parent directory yields `null`, and the `mkdirs` call throws a NullPointerException that neither the IOException handler of `write` nor that of `execute` catches | destination `openapi.yaml` | write the schema to that file in the working directory, creating directories only when there is a parent | high, from the documented `File.getParentFile` behaviour; not executed | Execution.WriteAsWritten, Execution.BareFileNameDestinationCrashes | Execution.Write |
