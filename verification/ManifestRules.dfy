/** What a well-formed manifest is, said without reading, and how one is written down again. */
module ManifestRules {
  import opened Prelude
  import opened ManifestText
  import opened Manifest

  // ---- Well-formed parts ---------------------------------------------------------------

  predicate Within(s: string, max: nat) {
    s != "" && Units(s) <= max
  }

  predicate OptionalWithin(s: Option<string>, max: nat) {
    s.Some? ==> Within(s.value, max)
  }

  predicate Filled(s: Option<string>) {
    s.Some? ==> s.value != ""
  }

  predicate Distinct(keys: seq<string>) {
    forall i, j | 0 <= i < j < |keys| :: keys[i] != keys[j]
  }

  predicate ValidVariable(t: NamedText) {
    Within(t.name, 128) && ValidVariableName(t.name) && OptionalWithin(t.description, 1000) && Units(t.text) <= 20000
  }

  predicate ValidConfig(t: NamedText) {
    Within(t.name, 128) && OptionalWithin(t.description, 1000) && Units(t.text) <= 200000
  }

  predicate ValidSecret(t: SecretText) {
    && Within(t.name, 128) && ValidSecretName(t.name) && OptionalWithin(t.description, 1000)
    && OptionalWithin(t.fileName, 255) && (t.fileName.Some? ==> t.binary)
    && Units(t.text) <= 90000 && (t.binary ==> ValidBase64(t.text)) && SecretBytes(Some(t.binary), t.text) <= 65536
  }

  predicate ValidVariableLink(l: Link) {
    l.source != "" && Within(l.target, 128) && ValidVariableName(l.target)
  }

  predicate ValidSecretLink(l: Link) {
    l.source != "" && Within(l.target, 128) && ValidSecretName(l.target)
  }

  predicate ValidConfigLink(l: Link) {
    l.source != "" && Within(l.target, 512) && SafeFilePath(l.target)
  }

  predicate ValidVolumeLink(l: VolumeLink) {
    l.source != "" && Within(l.mountPath, 255) && l.mountPath[0] == '/'
  }

  predicate ValidEndpoint(e: EndpointSpec) {
    Within(e.name, 63) && ValidName(e.name) && 1 <= e.containerPort <= 65535 && Distinct(e.domains)
  }

  predicate ValidBasics(b: Basics) {
    && Within(b.name, 63) && ValidName(b.name) && OptionalWithin(b.description, 1000)
    && Within(b.image, 512) && OptionalWithin(b.registry, 128) && 0 <= b.desiredReplicas <= 100
  }

  predicate ValidNeeds(n: Needs) {
    0.01 <= n.cpu <= 128.0 && n.memoryBytes >= 134217728 && n.gpu == 0
  }

  predicate ValidOptions(o: Options) {
    && (forall k | k in o.environment.0 :: k in o.environment.1)
    && o.environment.1.Keys == (set k | k in o.environment.0) && PROTO !in o.environment.0
    && Filled(o.entrypoint) && Filled(o.workingDir) && Filled(o.user) && o.stopGracePeriodSeconds >= 0
  }

  predicate ValidLinks(l: Links) {
    && (forall x | x in l.variables :: ValidVariableLink(x)) && Distinct(Targets(l.variables))
    && (forall x | x in l.secrets :: ValidSecretLink(x)) && Distinct(Targets(l.secrets))
    && (forall x | x in l.configs :: ValidConfigLink(x)) && Distinct(Targets(l.configs))
    && (forall x | x in l.volumes :: ValidVolumeLink(x)) && Distinct(MountPaths(l.volumes))
    && (forall x | x in l.endpoints :: ValidEndpoint(x)) && Distinct(EndpointNames(l.endpoints))
  }

  predicate ValidApp(a: AppSpec) {
    ValidBasics(a.basics) && ValidNeeds(a.needs) && ValidOptions(a.options) && ValidLinks(a.links)
  }

  predicate AppClosed(l: Links, m: Manifest) {
    && (forall x | x in l.variables :: x.source in TextNames(m.variables))
    && (forall x | x in l.secrets :: x.source in SecretNames(m.secrets))
    && (forall x | x in l.configs :: x.source in TextNames(m.configs))
  }

  /** Every attachment of an app names something that the manifest defines. */
  predicate Closed(m: Manifest) {
    forall a | a in m.apps :: AppClosed(a.links, m)
  }

  predicate ValidManifest(m: Manifest) {
    && Within(m.name, 63) && ValidName(m.name) && OptionalWithin(m.description, 1000)
    && (forall t | t in m.variables :: ValidVariable(t)) && Distinct(NamesOf(m.variables))
    && (forall t | t in m.secrets :: ValidSecret(t)) && Distinct(NamesOfSecrets(m.secrets))
    && (forall t | t in m.configs :: ValidConfig(t)) && Distinct(NamesOf(m.configs))
    && (forall a | a in m.apps :: ValidApp(a)) && Distinct(AppNames(m.apps))
    && Closed(m)
  }

  // ---- Writing a manifest as raw input ------------------------------------------------------

  /** Fields without a value are left out. */
  function Present(keys: seq<Key>, fields: Fields): seq<Key> {
    if keys == [] then [] else
      var k := keys[|keys| - 1];
      Present(keys[..|keys| - 1], fields) + if At(fields, k) != Undefined then [k] else []
  }

  function Row(keys: seq<Key>, fields: Fields): Value {
    Object(Present(keys, fields), map k | k in fields && fields[k] != Undefined :: fields[k])
  }

  function ListValue<T>(xs: seq<T>, write: T -> Value): Value {
    List(seq(|xs|, i requires 0 <= i < |xs| => write(xs[i])))
  }

  function WriteText(s: string): Value { Text(s) }

  function WriteVariable(t: NamedText): Value {
    Row([Name, Description, ValueField],
        map[Name := Text(t.name), Description := TextOf(t.description), ValueField := Text(t.text)])
  }

  function WriteConfig(t: NamedText): Value {
    Row([Name, Description, ContentField],
        map[Name := Text(t.name), Description := TextOf(t.description), ContentField := Text(t.text)])
  }

  function WriteSecret(t: SecretText): Value {
    Row([Name, Description, TypeField, FileName, ValueField],
        map[Name := Text(t.name), Description := TextOf(t.description),
            TypeField := Text(if t.binary then "Binary" else "Text"), FileName := TextOf(t.fileName), ValueField := Text(t.text)])
  }

  function WriteNameLink(l: Link): Value {
    Row([Source, TargetName], map[Source := Text(l.source), TargetName := Text(l.target)])
  }

  function WriteConfigLink(l: Link): Value {
    Row([Source, TargetPath], map[Source := Text(l.source), TargetPath := Text(l.target)])
  }

  function WriteVolumeLink(l: VolumeLink): Value {
    Row([Source, MountPath, ModeField],
        map[Source := Text(l.source), MountPath := Text(l.mountPath),
            ModeField := Text(if l.readOnly then "ReadOnly" else "ReadWrite")])
  }

  function ProtocolText(p: Protocol): string {
    match p
    case Http => "HTTP"
    case Https => "HTTPS"
    case HttpAndHttps => "HTTP_AND_HTTPS"
    case HttpRedirectToHttps => "HTTP_REDIRECT_TO_HTTPS"
  }

  function WriteEndpoint(e: EndpointSpec): Value {
    Row([Name, ContainerPort, ProtocolMode, Domains],
        map[Name := Text(e.name), ContainerPort := Num(e.containerPort as real),
            ProtocolMode := Text(ProtocolText(e.protocol)), Domains := ListValue(e.domains, WriteText)])
  }

  function WriteState(running: bool): Value {
    Text(if running then "Running" else "Stopped")
  }

  function WriteRecord(r: Option<Record>): Value {
    if r.Some? then Object(r.value.0, r.value.1) else Undefined
  }

  function WriteNeeds(n: Needs): Value {
    Row([Cpu, MemoryBytes, Gpu],
        map[Cpu := Num(n.cpu), MemoryBytes := Num(n.memoryBytes as real), Gpu := Num(n.gpu as real)])
  }

  function WriteEnvironment(e: (seq<Key>, map<Key, string>)): Value {
    Object(e.0, map k | k in e.1 :: Text(e.1[k]))
  }

  function WriteAppField(a: AppSpec, k: Key): Value {
    var (b, o, l) := (a.basics, a.options, a.links);
    match k
    case Name => Text(b.name)
    case Description => TextOf(b.description)
    case Image => Text(b.image)
    case Registry => TextOf(b.registry)
    case DesiredReplicas => Num(b.desiredReplicas as real)
    case RuntimeState => WriteState(b.running)
    case Resources => WriteNeeds(a.needs)
    case Environment => WriteEnvironment(o.environment)
    case HealthCheck => WriteRecord(o.healthCheck)
    case Entrypoint => TextOf(o.entrypoint)
    case Command => ListValue(o.command, WriteText)
    case WorkingDir => TextOf(o.workingDir)
    case User => TextOf(o.user)
    case ReadOnlyRootFilesystem => Bool(o.readOnlyRootFilesystem)
    case StopGracePeriodSeconds => Num(o.stopGracePeriodSeconds as real)
    case RestartPolicy => WriteRecord(o.restartPolicy)
    case UpdatePolicy => WriteRecord(o.updatePolicy)
    case Variables => ListValue(l.variables, WriteNameLink)
    case Secrets => ListValue(l.secrets, WriteNameLink)
    case Configs => ListValue(l.configs, WriteConfigLink)
    case Volumes => ListValue(l.volumes, WriteVolumeLink)
    case HttpEndpoints => ListValue(l.endpoints, WriteEndpoint)
    case _ => Undefined
  }

  function AppFields(a: AppSpec): Fields {
    map k | k in APP_FIELDS :: WriteAppField(a, k)
  }

  const APP_KEYS := [Name, Description, Image, Registry, DesiredReplicas, RuntimeState, Resources, Environment,
    HealthCheck, Entrypoint, Command, WorkingDir, User, ReadOnlyRootFilesystem, StopGracePeriodSeconds, RestartPolicy,
    UpdatePolicy, Variables, Secrets, Configs, Volumes, HttpEndpoints]

  function WriteApp(a: AppSpec): Value {
    Row(APP_KEYS, AppFields(a))
  }

  function SpecFields(m: Manifest): Fields {
    map[RuntimeState := WriteState(m.running), Variables := ListValue(m.variables, WriteVariable),
        Secrets := ListValue(m.secrets, WriteSecret), Configs := ListValue(m.configs, WriteConfig),
        Apps := ListValue(m.apps, WriteApp)]
  }

  function WriteManifest(m: Manifest): Value {
    Row([ApiVersion, Kind, Metadata, SpecField],
        map[ApiVersion := Text(API_VERSION), Kind := Text(KIND),
            Metadata := Row([Name, Description], map[Name := Text(m.name), Description := TextOf(m.description)]),
            SpecField := Row([RuntimeState, Variables, Secrets, Configs, Apps], SpecFields(m))])
  }
}
