/** `getProperties`: the configuration map assembled from the optional
    properties file and the plugin's OpenAPI parameters. */
module PluginConfig {
  import opened Wrappers
  import opened PropertyMap
  import Indexing

  /** The configuration keys the plugin sets, one per parameter. Their string
      values are constants of the MicroProfile OpenAPI and SmallRye libraries;
      the model takes them as a naming function. */
  datatype ConfigKey =
    | ModelReader | Filter | ScanDisable | ScanPackages | ScanClasses
    | ScanExcludePackages | ScanExcludeClasses | Servers | ServersPathPrefix
    | ServersOperationPrefix | ScanDependenciesDisable | ScanDependenciesJars
    | SchemaReferencesEnable | CustomSchemaRegistryClass | AppPathDisable
    | Version | InfoTitle | InfoVersion | InfoDescription | InfoTerms
    | InfoContactEmail | InfoContactName | InfoContactUrl | InfoLicenseName
    | InfoLicenseUrl | OperationIdStrategy

  /** Distinct keys have distinct names, as the library constants do. */
  ghost predicate Injective(name: ConfigKey -> string) {
    forall a, b :: name(a) == name(b) ==> a == b
  }

  /** The plugin's OpenAPI parameters; `None` is a parameter left unset. */
  datatype PluginParameters = PluginParameters(
    modelReader: Option<string>,
    filter: Option<string>,
    scanDisabled: Option<bool>,
    scanPackages: Option<string>,
    scanClasses: Option<string>,
    scanExcludePackages: Option<string>,
    scanExcludeClasses: Option<string>,
    servers: Option<seq<string>>,
    pathServers: Option<seq<string>>,
    operationServers: Option<seq<string>>,
    scanDependenciesDisable: Option<bool>,
    scanDependenciesJars: Option<seq<string>>,
    schemaReferencesEnable: Option<bool>,
    customSchemaRegistryClass: Option<string>,
    applicationPathDisable: Option<bool>,
    openApiVersion: Option<string>,
    infoTitle: Option<string>,
    infoVersion: Option<string>,
    infoDescription: Option<string>,
    infoTermsOfService: Option<string>,
    infoContactEmail: Option<string>,
    infoContactName: Option<string>,
    infoContactUrl: Option<string>,
    infoLicenseName: Option<string>,
    infoLicenseUrl: Option<string>,
    operationIdStrategy: Option<string>)

  /** The properties file parameter: where it points, whether a file exists
      there, and the key/value pairs loading it yields. */
  datatype PropertiesFile = PropertiesFile(present: bool, contents: Properties)

  /** Which overload a parameter goes through follows from its Java type. */
  function OfString(o: Option<string>): ParamValue {
    match o
    case None => Absent
    case Some(t) => Str(t)
  }

  function OfBoolean(o: Option<bool>): ParamValue {
    match o
    case None => Absent
    case Some(b) => Bool(b)
  }

  function OfList(o: Option<seq<string>>): ParamValue {
    match o
    case None => Absent
    case Some(xs) => StrList(xs)
  }

  /** The order in which the parameters are laid over the file's map. */
  const KeyOrder: seq<ConfigKey> := [
    ModelReader, Filter, ScanDisable, ScanPackages, ScanClasses,
    ScanExcludePackages, ScanExcludeClasses, Servers, ServersPathPrefix,
    ServersOperationPrefix, ScanDependenciesDisable, ScanDependenciesJars,
    SchemaReferencesEnable, CustomSchemaRegistryClass, AppPathDisable,
    Version, InfoTitle, InfoVersion, InfoDescription, InfoTerms,
    InfoContactEmail, InfoContactName, InfoContactUrl, InfoLicenseName,
    InfoLicenseUrl, OperationIdStrategy]

  /** The place of each key in `KeyOrder`. */
  function Position(k: ConfigKey): nat {
    match k
    case ModelReader => 0
    case Filter => 1
    case ScanDisable => 2
    case ScanPackages => 3
    case ScanClasses => 4
    case ScanExcludePackages => 5
    case ScanExcludeClasses => 6
    case Servers => 7
    case ServersPathPrefix => 8
    case ServersOperationPrefix => 9
    case ScanDependenciesDisable => 10
    case ScanDependenciesJars => 11
    case SchemaReferencesEnable => 12
    case CustomSchemaRegistryClass => 13
    case AppPathDisable => 14
    case Version => 15
    case InfoTitle => 16
    case InfoVersion => 17
    case InfoDescription => 18
    case InfoTerms => 19
    case InfoContactEmail => 20
    case InfoContactName => 21
    case InfoContactUrl => 22
    case InfoLicenseName => 23
    case InfoLicenseUrl => 24
    case OperationIdStrategy => 25
  }

  lemma OrderOfPosition(k: ConfigKey)
    ensures Position(k) < |KeyOrder| && KeyOrder[Position(k)] == k
  {
  }

  lemma PositionOfOrder(i: int)
    requires 0 <= i < |KeyOrder|
    ensures Position(KeyOrder[i]) == i
  {
    assert i == 0 || i == 1 || i == 2 || i == 3 || i == 4 || i == 5 || i == 6
        || i == 7 || i == 8 || i == 9 || i == 10 || i == 11 || i == 12
        || i == 13 || i == 14 || i == 15 || i == 16 || i == 17 || i == 18
        || i == 19 || i == 20 || i == 21 || i == 22 || i == 23 || i == 24
        || i == 25;
  }

  /** The parameter behind each key, seen through its overload. */
  function ValueOf(p: PluginParameters, k: ConfigKey): ParamValue {
    match k
    case ModelReader => OfString(p.modelReader)
    case Filter => OfString(p.filter)
    case ScanDisable => OfBoolean(p.scanDisabled)
    case ScanPackages => OfString(p.scanPackages)
    case ScanClasses => OfString(p.scanClasses)
    case ScanExcludePackages => OfString(p.scanExcludePackages)
    case ScanExcludeClasses => OfString(p.scanExcludeClasses)
    case Servers => OfList(p.servers)
    case ServersPathPrefix => OfList(p.pathServers)
    case ServersOperationPrefix => OfList(p.operationServers)
    case ScanDependenciesDisable => OfBoolean(p.scanDependenciesDisable)
    case ScanDependenciesJars => OfList(p.scanDependenciesJars)
    case SchemaReferencesEnable => OfBoolean(p.schemaReferencesEnable)
    case CustomSchemaRegistryClass => OfString(p.customSchemaRegistryClass)
    case AppPathDisable => OfBoolean(p.applicationPathDisable)
    case Version => OfString(p.openApiVersion)
    case InfoTitle => OfString(p.infoTitle)
    case InfoVersion => OfString(p.infoVersion)
    case InfoDescription => OfString(p.infoDescription)
    case InfoTerms => OfString(p.infoTermsOfService)
    case InfoContactEmail => OfString(p.infoContactEmail)
    case InfoContactName => OfString(p.infoContactName)
    case InfoContactUrl => OfString(p.infoContactUrl)
    case InfoLicenseName => OfString(p.infoLicenseName)
    case InfoLicenseUrl => OfString(p.infoLicenseUrl)
    case OperationIdStrategy => OfString(p.operationIdStrategy)
  }

  /** The parameters as (key, value) entries, in overlay order. */
  function Overlays(p: PluginParameters, name: ConfigKey -> string): seq<(string, ParamValue)> {
    seq(|KeyOrder|, i requires 0 <= i < |KeyOrder| => (name(KeyOrder[i]), ValueOf(p, KeyOrder[i])))
  }

  /** The map read from the properties file: empty when the parameter is
      unset or names no existing file. */
  function Loaded(file: Option<PropertiesFile>): Properties {
    if file.Some? && file.value.present then file.value.contents else map[]
  }

  /** The overlaid keys are the names of the set parameters (lists only when
      not empty). */
  lemma PresentKeysAreParameterNames(p: PluginParameters, name: ConfigKey -> string)
    ensures forall s :: s in PresentKeys(Overlays(p, name)) <==>
              exists k :: name(k) == s && !Skipped(ValueOf(p, k))
  {
    var ps := Overlays(p, name);
    forall s | s in PresentKeys(ps)
      ensures exists k :: name(k) == s && !Skipped(ValueOf(p, k))
    {
      PresentKeysMembership(ps, s);
      var i :| 0 <= i < |ps| && !Skipped(ps[i].1) && ps[i].0 == s;
      assert name(KeyOrder[i]) == s;
    }
    forall s | exists k :: name(k) == s && !Skipped(ValueOf(p, k))
      ensures s in PresentKeys(ps)
    {
      var k :| name(k) == s && !Skipped(ValueOf(p, k));
      OrderOfPosition(k);
      assert ps[Position(k)].0 == s;
      PresentKeysMembership(ps, s);
    }
  }

  /** `getProperties`: the properties file's map with the parameters laid
      over it. Its keys are the file's keys plus the names of the set
      parameters (lists only when not empty). */
  function GetProperties(file: Option<PropertiesFile>, p: PluginParameters, name: ConfigKey -> string): (r: Properties)
    ensures forall s :: s in r <==> s in Loaded(file) || exists k :: name(k) == s && !Skipped(ValueOf(p, k))
  {
    PresentKeysAreParameterNames(p, name);
    Overlay(Loaded(file), Overlays(p, name))
  }

  /** A parameter that is set (and, for a list, not empty) determines its
      key's value, whatever the properties file says. */
  lemma ParameterOverridesFile(file: Option<PropertiesFile>, p: PluginParameters, name: ConfigKey -> string, k: ConfigKey)
    requires Injective(name)
    requires !Skipped(ValueOf(p, k))
    ensures var r := GetProperties(file, p, name);
            name(k) in r && r[name(k)] == Rendered(ValueOf(p, k))
  {
    var ps := Overlays(p, name);
    OrderOfPosition(k);
    var i := Position(k);
    forall j | i < j < |ps|
      ensures ps[j].0 != name(k) || Skipped(ps[j].1)
    {
      PositionOfOrder(j);
    }
    OverlayLastWins(Loaded(file), ps, name(k), i);
  }

  /** A key of the properties file that no set parameter names keeps the
      file's value. */
  lemma FileValueSurvives(file: Option<PropertiesFile>, p: PluginParameters, name: ConfigKey -> string, key: string)
    requires key in Loaded(file)
    requires forall k :: name(k) == key ==> Skipped(ValueOf(p, k))
    ensures var r := GetProperties(file, p, name);
            key in r && r[key] == Loaded(file)[key]
  {
    var ps := Overlays(p, name);
    forall j | 0 <= j < |ps|
      ensures ps[j].0 != key || Skipped(ps[j].1)
    {
      assert ps[j].0 == name(KeyOrder[j]);
    }
    OverlayKeepsUntouched(Loaded(file), ps, key);
  }

  /** Without a properties file the keys are exactly the names of the set
      parameters. */
  lemma KeysWithoutFile(file: Option<PropertiesFile>, p: PluginParameters, name: ConfigKey -> string)
    requires file.None? || !file.value.present
    ensures forall s :: s in GetProperties(file, p, name) <==> exists k :: name(k) == s && !Skipped(ValueOf(p, k))
  {
  }

  /** When the dependency-scanning flag is set, the configuration records it
      as the text of the decision the indexing step takes from it. */
  lemma DisableFlagRecorded(file: Option<PropertiesFile>, p: PluginParameters, name: ConfigKey -> string)
    requires Injective(name)
    requires p.scanDependenciesDisable.Some?
    ensures var r := GetProperties(file, p, name);
            name(ScanDependenciesDisable) in r
            && r[name(ScanDependenciesDisable)] == BooleanText(Indexing.ScanDependenciesDisable(p.scanDependenciesDisable))
  {
    ParameterOverridesFile(file, p, name, ScanDependenciesDisable);
  }
}
