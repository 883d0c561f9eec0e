/** `getStaticFile`: the search for a hand-written OpenAPI document among the
    compiled classes. */
module StaticFile {
  import opened Wrappers

  /** The compiled-classes directory: whether it exists, and the paths,
      relative to it, of the files it holds. */
  datatype ClassesDir = ClassesDir(present: bool, files: set<string>)

  const MetaInfOpenapiYaml: string := "META-INF/openapi.yaml"
  const WebInfClassesMetaInfOpenapiYaml: string := "WEB-INF/classes/META-INF/openapi.yaml"
  const MetaInfOpenapiYml: string := "META-INF/openapi.yml"
  const WebInfClassesMetaInfOpenapiYml: string := "WEB-INF/classes/META-INF/openapi.yml"
  const MetaInfOpenapiJson: string := "META-INF/openapi.json"
  const WebInfClassesMetaInfOpenapiJson: string := "WEB-INF/classes/META-INF/openapi.json"

  /** The candidates, most preferred first. */
  const Candidates: seq<string> := [
    MetaInfOpenapiYaml, WebInfClassesMetaInfOpenapiYaml,
    MetaInfOpenapiYml, WebInfClassesMetaInfOpenapiYml,
    MetaInfOpenapiJson, WebInfClassesMetaInfOpenapiJson]

  /** The probe sequence of the plugin, one existence test after another. */
  function GetStaticFile(dir: ClassesDir): (r: Option<string>)
    ensures r.Some? ==> dir.present && r.value in dir.files && r.value in Candidates
    ensures r.None? <==> !dir.present || forall i :: 0 <= i < |Candidates| ==> Candidates[i] !in dir.files
    ensures r.Some? ==> exists i :: 0 <= i < |Candidates| && Candidates[i] == r.value
                          && forall j :: 0 <= j < i ==> Candidates[j] !in dir.files
  {
    if dir.present then
      if MetaInfOpenapiYaml in dir.files then Some(MetaInfOpenapiYaml)
      else if WebInfClassesMetaInfOpenapiYaml in dir.files then Some(WebInfClassesMetaInfOpenapiYaml)
      else if MetaInfOpenapiYml in dir.files then Some(MetaInfOpenapiYml)
      else if WebInfClassesMetaInfOpenapiYml in dir.files then Some(WebInfClassesMetaInfOpenapiYml)
      else if MetaInfOpenapiJson in dir.files then Some(MetaInfOpenapiJson)
      else if WebInfClassesMetaInfOpenapiJson in dir.files then Some(WebInfClassesMetaInfOpenapiJson)
      else None
    else None
  }

  /** Reference search: the first of `candidates` that is in `files`. */
  function FirstExisting(candidates: seq<string>, files: set<string>): (r: Option<string>)
    ensures r.None? <==> forall i :: 0 <= i < |candidates| ==> candidates[i] !in files
    ensures r.Some? ==> exists i :: 0 <= i < |candidates| && candidates[i] == r.value && r.value in files
                          && forall j :: 0 <= j < i ==> candidates[j] !in files
    decreases |candidates|
  {
    if |candidates| == 0 then None
    else if candidates[0] in files then Some(candidates[0])
    else
      var r := FirstExisting(candidates[1..], files);
      assert forall i :: 1 <= i < |candidates| ==> candidates[i] == candidates[1..][i - 1];
      r
  }

  /** The probe sequence is the first-match search over the candidate list,
      gated on the classes directory existing. */
  lemma GetStaticFileIsFirstMatch(dir: ClassesDir)
    ensures GetStaticFile(dir) == if dir.present then FirstExisting(Candidates, dir.files) else None
  {
    var r := GetStaticFile(dir);
    var f := FirstExisting(Candidates, dir.files);
    if dir.present && r.Some? && f.Some? {
      var i :| 0 <= i < |Candidates| && Candidates[i] == r.value
               && forall j :: 0 <= j < i ==> Candidates[j] !in dir.files;
      var k :| 0 <= k < |Candidates| && Candidates[k] == f.value && f.value in dir.files
               && forall j :: 0 <= j < k ==> Candidates[j] !in dir.files;
      assert !(i < k) && !(k < i);
    }
  }
}
