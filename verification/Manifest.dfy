/**
 Parsing an App Group manifest after YAML decoding: a defaulting, validating reader that
 collects every issue, and the manifests it returns.
 */
module Manifest {
  import opened Prelude
  import opened ManifestText

  // ---- Decoded input -----------------------------------------------------------------

  /** Names of fields. `Other` is any name that no part of a manifest uses. */
  datatype Key =
    | ApiVersion | Kind | Metadata | SpecField | Name | Description | RuntimeState | Variables | Secrets | Configs
    | Apps | ValueField | TypeField | FileName | ContentField | Image | Registry | DesiredReplicas | Resources
    | Environment | HealthCheck | Entrypoint | Command | WorkingDir | User | ReadOnlyRootFilesystem
    | StopGracePeriodSeconds | RestartPolicy | UpdatePolicy | Volumes | HttpEndpoints | Cpu | MemoryBytes | Gpu
    | Source | TargetName | TargetPath | MountPath | ModeField | ContainerPort | ProtocolMode | Domains
    | Other(name: string)

  /** `order` lists the own names of an object in the order in which its entries are visited. */
  datatype Value =
    | Undefined | Null | Bool(truth: bool) | Num(num: real) | NotFinite | Text(text: string)
    | List(items: seq<Value>) | Object(order: seq<Key>, fields: map<Key, Value>)

  type Fields = map<Key, Value>

  function At(fields: Fields, k: Key): Value {
    if k in fields then fields[k] else Undefined
  }

  function OrElse(v: Value, default: Value): Value {
    if v.Undefined? || v.Null? then default else v
  }

  datatype Step = Field(key: Key) | Index(index: nat)

  type Path = seq<Step>

  datatype Code =
    | Required | ExpectedArray | ExpectedObject | ExpectedString | ExpectedInteger | ExpectedNumber | ExpectedBoolean
    | TooLong | TooSmall | TooLarge | InvalidValue | UnknownField | DuplicateValue | InvalidName | InvalidVariableName
    | InvalidSecretName | InvalidSecretMetadata | InvalidBase64 | SecretTooLarge | InvalidTargetPath | InvalidMountPath
    | UnknownVariable | UnknownSecret | UnknownConfig | UnsupportedApiVersion | UnsupportedKind | InvalidManifest

  datatype Issue = Issue(path: Path, code: Code)

  /** A value read from the input, and the issues found on the way. */
  datatype Read<+T> = Read(value: T, issues: seq<Issue>)

  function When(condition: bool, path: Path, code: Code): seq<Issue> {
    if condition then [Issue(path, code)] else []
  }

  // ---- Manifests ----------------------------------------------------------------------

  datatype NamedText = NamedText(name: string, description: Option<string>, text: string)

  datatype SecretText = SecretText(name: string, description: Option<string>, binary: bool, fileName: Option<string>, text: string)

  datatype Link = Link(source: string, target: string)

  datatype VolumeLink = VolumeLink(source: string, mountPath: string, readOnly: bool)

  datatype Protocol = Http | Https | HttpAndHttps | HttpRedirectToHttps

  datatype EndpointSpec = EndpointSpec(name: string, containerPort: int, protocol: Protocol, domains: seq<string>)

  type Record = (seq<Key>, Fields)

  datatype Basics = Basics(name: string, description: Option<string>, image: string, registry: Option<string>,
                           desiredReplicas: int, running: bool)

  datatype Needs = Needs(cpu: real, memoryBytes: int, gpu: int)

  datatype Options = Options(environment: (seq<Key>, map<Key, string>), healthCheck: Option<Record>,
                             entrypoint: Option<string>, command: seq<string>, workingDir: Option<string>,
                             user: Option<string>, readOnlyRootFilesystem: bool, stopGracePeriodSeconds: int,
                             restartPolicy: Option<Record>, updatePolicy: Option<Record>)

  datatype Links = Links(variables: seq<Link>, secrets: seq<Link>, configs: seq<Link>, volumes: seq<VolumeLink>,
                         endpoints: seq<EndpointSpec>)

  /** The fields of an app, in the four groups in which they are read. */
  datatype AppSpec = AppSpec(basics: Basics, needs: Needs, options: Options, links: Links)

  datatype Manifest = Manifest(name: string, description: Option<string>, running: bool,
                               variables: seq<NamedText>, secrets: seq<SecretText>, configs: seq<NamedText>, apps: seq<AppSpec>)

  const API_VERSION := "resourceportal.io/v1alpha1"
  const KIND := "AppGroup"

  // ---- Reading scalars ------------------------------------------------------------------

  datatype TextRule = TextRule(required: bool, max: Option<nat>, allowEmpty: bool)

  const OPTIONAL := TextRule(false, None, false)
  const REQUIRED := TextRule(true, None, false)

  function UpTo(max: nat): TextRule { TextRule(false, Some(max), false) }

  function RequiredUpTo(max: nat): TextRule { TextRule(true, Some(max), false) }

  function PossiblyEmpty(max: nat): TextRule { TextRule(true, Some(max), true) }

  function StringValue(v: Value, path: Path, rule: TextRule): Read<Option<string>> {
    if v.Undefined? || v.Null? then Read(None, When(rule.required, path, Required))
    else if !v.Text? then Read(None, [Issue(path, ExpectedString)])
    else if !rule.allowEmpty && rule.required && v.text == "" then Read(None, [Issue(path, Required)])
    else Read(Some(v.text), When(rule.max.Some? && Units(v.text) > rule.max.value, path, TooLong))
  }

  /** The value of a choice, given the texts that stand for its options. */
  function EnumValue<T>(v: Value, path: Path, options: map<string, T>): Read<Option<T>> {
    var text := StringValue(v, path, REQUIRED);
    if text.value.None? then Read(None, text.issues)
    else if text.value.value !in options then Read(None, text.issues + [Issue(path, InvalidValue)])
    else Read(Some(options[text.value.value]), text.issues)
  }

  function Bounds(below: bool, above: bool, path: Path): seq<Issue> {
    When(below, path, TooSmall) + When(above, path, TooLarge)
  }

  function IntegerValue(v: Value, path: Path, min: int, max: Option<int>): Read<Option<int>> {
    if !v.Num? || v.num != v.num.Floor as real then Read(None, [Issue(path, ExpectedInteger)]) else
    var n := v.num.Floor;
    Read(Some(n), Bounds(n < min, max.Some? && n > max.value, path))
  }

  function NumberValue(v: Value, path: Path, min: real, max: real): Read<Option<real>> {
    if !v.Num? then Read(None, [Issue(path, ExpectedNumber)])
    else Read(Some(v.num), Bounds(v.num < min, v.num > max, path))
  }

  function BooleanValue(v: Value, path: Path): Read<Option<bool>> {
    if v.Bool? then Read(Some(v.truth), []) else Read(None, [Issue(path, ExpectedBoolean)])
  }

  // ---- Reading lists and objects -----------------------------------------------------------

  function ArrayValue(v: Value, path: Path): Read<seq<Value>> {
    match v
    case Undefined => Read([], [])
    case List(items) => Read(items, [])
    case _ => Read([], [Issue(path, ExpectedArray)])
  }

  /** A missing object is an issue only where it is required; `null` always is one. */
  function ObjectValue(v: Value, path: Path, required: bool): Read<Option<Record>> {
    match v
    case Undefined => Read(None, When(required, path, Required))
    case Object(order, fields) => Read(Some((order, fields)), [])
    case _ => Read(None, [Issue(path, ExpectedObject)])
  }

  function UnknownFields(order: seq<Key>, allowed: set<Key>, path: Path): seq<Issue> {
    if order == [] then [] else
      var last := order[|order| - 1];
      UnknownFields(order[..|order| - 1], allowed, path) + When(last !in allowed, path + [Field(last)], UnknownField)
  }

  /** The entries that were read, with their issues in the order of the list. */
  function Rows<T>(items: seq<Value>, path: Path, row: (Value, Path) -> Read<Option<T>>): Read<seq<T>> {
    if items == [] then Read([], []) else
      var before := Rows(items[..|items| - 1], path, row);
      var last := row(items[|items| - 1], path + [Index(|items| - 1)]);
      Read(if last.value.Some? then before.value + [last.value.value] else before.value, before.issues + last.issues)
  }

  function ListOf<T>(v: Value, path: Path, row: (Value, Path) -> Read<Option<T>>): Read<seq<T>> {
    var list := ArrayValue(v, path);
    var rows := Rows(list.value, path, row);
    Read(rows.value, list.issues + rows.issues)
  }

  function TextEntry(v: Value, path: Path): Read<Option<string>> {
    if v.Text? then Read(Some(v.text), []) else Read(None, [Issue(path, ExpectedString)])
  }

  function StringArray(v: Value, path: Path): Read<seq<string>> {
    ListOf(v, path, TextEntry)
  }

  /** Assigning a text to this name of a plain object sets no entry, and raises no error. */
  const PROTO := Other("__proto__")

  /** The texts under their names, collected by assigning to a plain object. */
  function TextFields(order: seq<Key>, fields: Fields, path: Path): Read<(seq<Key>, map<Key, string>)> {
    if order == [] then Read(([], map[]), []) else
      var before := TextFields(order[..|order| - 1], fields, path);
      var k := order[|order| - 1];
      if At(fields, k).Text? then
        if k == PROTO then before else Read((before.value.0 + [k], before.value.1[k := fields[k].text]), before.issues)
      else Read(before.value, before.issues + [Issue(path + [Field(k)], ExpectedString)])
  }

  function StringMap(v: Value, path: Path): Read<(seq<Key>, map<Key, string>)> {
    var row := ObjectValue(v, path, false);
    if row.value.None? then Read(([], map[]), row.issues) else
    TextFields(row.value.value.0, row.value.value.1, path)
  }

  function Duplicates(keys: seq<string>, path: Path): seq<Issue> {
    if keys == [] then [] else
      var init := keys[..|keys| - 1];
      Duplicates(init, path) + When(keys[|keys| - 1] in init, path + [Index(|keys| - 1)], DuplicateValue)
  }

  /** An optional text counts as given only if it is not empty. */
  function NonEmpty(text: Option<string>): Option<string> {
    if text.Some? && text.value != "" then text else None
  }

  function Given(text: Option<string>): bool {
    text.Some? && text.value != ""
  }

  // ---- Variables, secrets and configs --------------------------------------------------------

  function ParseVariable(v: Value, path: Path): Read<Option<NamedText>> {
    var row := ObjectValue(v, path, true);
    if row.value.None? then Read(None, row.issues) else
    var (order, fields) := row.value.value;
    var name := StringValue(At(fields, Name), path + [Field(Name)], RequiredUpTo(128));
    var description := StringValue(At(fields, Description), path + [Field(Description)], UpTo(1000));
    var text := StringValue(At(fields, ValueField), path + [Field(ValueField)], PossiblyEmpty(20000));
    var badName := Given(name.value) && !ValidVariableName(name.value.value);
    Read(if name.value.Some? && text.value.Some?
         then Some(NamedText(name.value.value, NonEmpty(description.value), text.value.value)) else None,
         UnknownFields(order, {Name, Description, ValueField}, path) + name.issues + description.issues + text.issues +
         When(badName, path + [Field(Name)], InvalidVariableName))
  }

  const SECRET_TYPES := map["Text" := false, "Binary" := true]

  /** Whether a secret of type `binary` (or of no known type) is too large. */
  function SecretBytes(binary: Option<bool>, text: string): nat {
    if binary == Some(true) && ValidBase64(text) then DecodedBytes(text) else Utf8Bytes(text)
  }

  function ParseSecret(v: Value, path: Path): Read<Option<SecretText>> {
    var row := ObjectValue(v, path, true);
    if row.value.None? then Read(None, row.issues) else
    var (order, fields) := row.value.value;
    var name := StringValue(At(fields, Name), path + [Field(Name)], RequiredUpTo(128));
    var description := StringValue(At(fields, Description), path + [Field(Description)], UpTo(1000));
    var binary := EnumValue(OrElse(At(fields, TypeField), Text("Text")), path + [Field(TypeField)], SECRET_TYPES);
    var fileName := StringValue(At(fields, FileName), path + [Field(FileName)], UpTo(255));
    var text := StringValue(At(fields, ValueField), path + [Field(ValueField)], PossiblyEmpty(90000));
    Read(if name.value.Some? && binary.value.Some? && text.value.Some?
         then Some(SecretText(name.value.value, NonEmpty(description.value), binary.value.value,
                              NonEmpty(fileName.value), text.value.value)) else None,
         (UnknownFields(order, {Name, Description, TypeField, FileName, ValueField}, path) + name.issues +
          description.issues + binary.issues + fileName.issues + text.issues) +
         SecretRules(path, name.value, binary.value, fileName.value, text.value))
  }

  function SecretRules(path: Path, name: Option<string>, binary: Option<bool>, fileName: Option<string>,
                       text: Option<string>): seq<Issue> {
    When(Given(name) && !ValidSecretName(name.value), path + [Field(Name)], InvalidSecretName) +
    When(binary == Some(false) && Given(fileName), path + [Field(FileName)], InvalidSecretMetadata) +
    When(binary == Some(true) && text.Some? && !ValidBase64(text.value), path + [Field(ValueField)], InvalidBase64) +
    When(text.Some? && SecretBytes(binary, text.value) > 64 * 1024, path + [Field(ValueField)], SecretTooLarge)
  }

  function ParseConfig(v: Value, path: Path): Read<Option<NamedText>> {
    var row := ObjectValue(v, path, true);
    if row.value.None? then Read(None, row.issues) else
    var (order, fields) := row.value.value;
    var name := StringValue(At(fields, Name), path + [Field(Name)], RequiredUpTo(128));
    var description := StringValue(At(fields, Description), path + [Field(Description)], UpTo(1000));
    var text := StringValue(At(fields, ContentField), path + [Field(ContentField)], PossiblyEmpty(200000));
    Read(if name.value.Some? && text.value.Some?
         then Some(NamedText(name.value.value, NonEmpty(description.value), text.value.value)) else None,
         UnknownFields(order, {Name, Description, ContentField}, path) + name.issues + description.issues + text.issues)
  }

  // ---- Attachments and endpoints of an app -------------------------------------------------------

  function TextOf(s: Option<string>): Value {
    if s.Some? then Text(s.value) else Undefined
  }

  /** Attachments of variables and secrets: the target is the source if it is not given. */
  function ParseNameLink(v: Value, path: Path, valid: string -> bool, code: Code): Read<Option<Link>> {
    var row := ObjectValue(v, path, true);
    if row.value.None? then Read(None, row.issues) else
    var (order, fields) := row.value.value;
    var source := StringValue(At(fields, Source), path + [Field(Source)], REQUIRED);
    var target := StringValue(OrElse(At(fields, TargetName), TextOf(source.value)), path + [Field(TargetName)], RequiredUpTo(128));
    Read(if Given(source.value) && Given(target.value) then Some(Link(source.value.value, target.value.value)) else None,
         UnknownFields(order, {Source, TargetName}, path) + source.issues + target.issues +
         When(Given(target.value) && !valid(target.value.value), path + [Field(TargetName)], code))
  }

  function ParseVariableLink(v: Value, path: Path): Read<Option<Link>> {
    ParseNameLink(v, path, ValidVariableName, InvalidVariableName)
  }

  function ParseSecretLink(v: Value, path: Path): Read<Option<Link>> {
    ParseNameLink(v, path, ValidSecretName, InvalidSecretName)
  }

  function ParseConfigLink(v: Value, path: Path): Read<Option<Link>> {
    var row := ObjectValue(v, path, true);
    if row.value.None? then Read(None, row.issues) else
    var (order, fields) := row.value.value;
    var source := StringValue(At(fields, Source), path + [Field(Source)], REQUIRED);
    var target := StringValue(At(fields, TargetPath), path + [Field(TargetPath)], RequiredUpTo(512));
    Read(if Given(source.value) && Given(target.value) then Some(Link(source.value.value, target.value.value)) else None,
         UnknownFields(order, {Source, TargetPath}, path) + source.issues + target.issues +
         When(Given(target.value) && !SafeFilePath(target.value.value), path + [Field(TargetPath)], InvalidTargetPath))
  }

  const ATTACHMENT_MODES := map["ReadOnly" := true, "ReadWrite" := false]

  function ParseVolumeLink(v: Value, path: Path): Read<Option<VolumeLink>> {
    var row := ObjectValue(v, path, true);
    if row.value.None? then Read(None, row.issues) else
    var (order, fields) := row.value.value;
    var source := StringValue(At(fields, Source), path + [Field(Source)], REQUIRED);
    var mount := StringValue(At(fields, MountPath), path + [Field(MountPath)], RequiredUpTo(255));
    var mode := EnumValue(OrElse(At(fields, ModeField), Text("ReadWrite")), path + [Field(ModeField)], ATTACHMENT_MODES);
    Read(if Given(source.value) && Given(mount.value) && mode.value.Some?
         then Some(VolumeLink(source.value.value, mount.value.value, mode.value.value)) else None,
         UnknownFields(order, {Source, MountPath, ModeField}, path) + source.issues + mount.issues + mode.issues +
         When(Given(mount.value) && mount.value.value[0] != '/', path + [Field(MountPath)], InvalidMountPath))
  }

  const PROTOCOLS := map["HTTP" := Http, "HTTPS" := Https, "HTTP_AND_HTTPS" := HttpAndHttps,
                         "HTTP_REDIRECT_TO_HTTPS" := HttpRedirectToHttps]

  function ParseEndpoint(v: Value, path: Path): Read<Option<EndpointSpec>> {
    var row := ObjectValue(v, path, true);
    if row.value.None? then Read(None, row.issues) else
    var (order, fields) := row.value.value;
    var name := StringValue(At(fields, Name), path + [Field(Name)], RequiredUpTo(63));
    var port := IntegerValue(At(fields, ContainerPort), path + [Field(ContainerPort)], 1, Some(65535));
    var protocol := EnumValue(OrElse(At(fields, ProtocolMode), Text("HTTP_REDIRECT_TO_HTTPS")), path + [Field(ProtocolMode)], PROTOCOLS);
    var domains := StringArray(At(fields, Domains), path + [Field(Domains)]);
    Read(if Given(name.value) && port.value.Some? && port.value.value != 0 && protocol.value.Some?
         then Some(EndpointSpec(name.value.value, port.value.value, protocol.value.value, domains.value)) else None,
         UnknownFields(order, {Name, ContainerPort, ProtocolMode, Domains}, path) + name.issues +
         When(Given(name.value) && !ValidName(name.value.value), path + [Field(Name)], InvalidName) +
         port.issues + protocol.issues + domains.issues + Duplicates(domains.value, path + [Field(Domains)]))
  }

  // ---- Apps ---------------------------------------------------------------------------------------

  const RUNTIME_STATES := map["Running" := true, "Stopped" := false]

  const APP_FIELDS := {Name, Description, Image, Registry, DesiredReplicas, RuntimeState, Resources, Environment,
    HealthCheck, Entrypoint, Command, WorkingDir, User, ReadOnlyRootFilesystem, StopGracePeriodSeconds, RestartPolicy,
    UpdatePolicy, Variables, Secrets, Configs, Volumes, HttpEndpoints}

  function ParseBasics(fields: Fields, path: Path): Read<Option<Basics>> {
    var name := StringValue(At(fields, Name), path + [Field(Name)], RequiredUpTo(63));
    var description := StringValue(At(fields, Description), path + [Field(Description)], UpTo(1000));
    var image := StringValue(At(fields, Image), path + [Field(Image)], RequiredUpTo(512));
    var registry := StringValue(At(fields, Registry), path + [Field(Registry)], UpTo(128));
    var replicas := IntegerValue(OrElse(At(fields, DesiredReplicas), Num(1.0)), path + [Field(DesiredReplicas)], 0, Some(100));
    var running := EnumValue(OrElse(At(fields, RuntimeState), Text("Running")), path + [Field(RuntimeState)], RUNTIME_STATES);
    Read(if name.value.Some? && image.value.Some? && replicas.value.Some? && running.value.Some?
         then Some(Basics(name.value.value, NonEmpty(description.value), image.value.value, NonEmpty(registry.value),
                          replicas.value.value, running.value.value)) else None,
         name.issues + When(Given(name.value) && !ValidName(name.value.value), path + [Field(Name)], InvalidName) +
         description.issues + image.issues + registry.issues + replicas.issues + running.issues)
  }

  function ParseNeeds(v: Value, path: Path): Read<Option<Needs>> {
    var row := ObjectValue(v, path, true);
    var order := if row.value.Some? then row.value.value.0 else [];
    var fields := if row.value.Some? then row.value.value.1 else map[];
    var cpu := NumberValue(At(fields, Cpu), path + [Field(Cpu)], 0.01, 128.0);
    var memory := IntegerValue(At(fields, MemoryBytes), path + [Field(MemoryBytes)], 134217728, None);
    var gpu := IntegerValue(OrElse(At(fields, Gpu), Num(0.0)), path + [Field(Gpu)], 0, Some(0));
    Read(if cpu.value.Some? && memory.value.Some? && gpu.value.Some?
         then Some(Needs(cpu.value.value, memory.value.value, gpu.value.value)) else None,
         row.issues + UnknownFields(order, {Cpu, MemoryBytes, Gpu}, path) + cpu.issues + memory.issues + gpu.issues)
  }

  function ParseOptions(fields: Fields, path: Path): Read<Option<Options>> {
    var environment := StringMap(At(fields, Environment), path + [Field(Environment)]);
    var health := ObjectValue(At(fields, HealthCheck), path + [Field(HealthCheck)], false);
    var entrypoint := StringValue(At(fields, Entrypoint), path + [Field(Entrypoint)], OPTIONAL);
    var command := StringArray(At(fields, Command), path + [Field(Command)]);
    var workingDir := StringValue(At(fields, WorkingDir), path + [Field(WorkingDir)], OPTIONAL);
    var user := StringValue(At(fields, User), path + [Field(User)], OPTIONAL);
    var readOnly := BooleanValue(OrElse(At(fields, ReadOnlyRootFilesystem), Bool(false)), path + [Field(ReadOnlyRootFilesystem)]);
    var grace := IntegerValue(OrElse(At(fields, StopGracePeriodSeconds), Num(30.0)), path + [Field(StopGracePeriodSeconds)], 0, None);
    var restart := ObjectValue(At(fields, RestartPolicy), path + [Field(RestartPolicy)], false);
    var update := ObjectValue(At(fields, UpdatePolicy), path + [Field(UpdatePolicy)], false);
    Read(if readOnly.value.Some? && grace.value.Some?
         then Some(Options(environment.value, health.value, NonEmpty(entrypoint.value), command.value,
                           NonEmpty(workingDir.value), NonEmpty(user.value), readOnly.value.value, grace.value.value,
                           restart.value, update.value)) else None,
         (environment.issues + health.issues + entrypoint.issues + command.issues + workingDir.issues) +
         (user.issues + readOnly.issues + grace.issues + restart.issues + update.issues))
  }

  function Targets(links: seq<Link>): seq<string> {
    seq(|links|, i requires 0 <= i < |links| => links[i].target)
  }

  function Sources(links: seq<Link>): seq<string> {
    seq(|links|, i requires 0 <= i < |links| => links[i].source)
  }

  function MountPaths(links: seq<VolumeLink>): seq<string> {
    seq(|links|, i requires 0 <= i < |links| => links[i].mountPath)
  }

  function EndpointNames(endpoints: seq<EndpointSpec>): seq<string> {
    seq(|endpoints|, i requires 0 <= i < |endpoints| => endpoints[i].name)
  }

  function ParseLinks(fields: Fields, path: Path): Read<Links> {
    var variables := ListOf(At(fields, Variables), path + [Field(Variables)], ParseVariableLink);
    var secrets := ListOf(At(fields, Secrets), path + [Field(Secrets)], ParseSecretLink);
    var configs := ListOf(At(fields, Configs), path + [Field(Configs)], ParseConfigLink);
    var volumes := ListOf(At(fields, Volumes), path + [Field(Volumes)], ParseVolumeLink);
    var endpoints := ListOf(At(fields, HttpEndpoints), path + [Field(HttpEndpoints)], ParseEndpoint);
    var links := Links(variables.value, secrets.value, configs.value, volumes.value, endpoints.value);
    Read(links, (variables.issues + secrets.issues + configs.issues + volumes.issues + endpoints.issues) +
                LinkDuplicates(links, path))
  }

  function LinkDuplicates(links: Links, path: Path): seq<Issue> {
    Duplicates(Targets(links.variables), path + [Field(Variables)]) +
    Duplicates(Targets(links.secrets), path + [Field(Secrets)]) +
    Duplicates(Targets(links.configs), path + [Field(Configs)]) +
    Duplicates(MountPaths(links.volumes), path + [Field(Volumes)]) +
    Duplicates(EndpointNames(links.endpoints), path + [Field(HttpEndpoints)])
  }

  function ParseApp(v: Value, path: Path): Read<Option<AppSpec>> {
    var row := ObjectValue(v, path, true);
    if row.value.None? then Read(None, row.issues) else ParseAppFields(row.value.value.0, row.value.value.1, path)
  }

  function ParseAppFields(order: seq<Key>, fields: Fields, path: Path): Read<Option<AppSpec>> {
    var basics := ParseBasics(fields, path);
    var needs := ParseNeeds(At(fields, Resources), path + [Field(Resources)]);
    var options := ParseOptions(fields, path);
    var links := ParseLinks(fields, path);
    Read(if basics.value.Some? && needs.value.Some? && options.value.Some?
         then Some(AppSpec(basics.value.value, needs.value.value, options.value.value, links.value)) else None,
         UnknownFields(order, APP_FIELDS, path) + basics.issues + needs.issues + options.issues + links.issues)
  }

  // ---- References from apps ---------------------------------------------------------------------------

  function UnknownSources(sources: seq<string>, names: set<string>, path: Path, code: Code): seq<Issue> {
    if sources == [] then [] else
      var last := |sources| - 1;
      UnknownSources(sources[..last], names, path, code) +
      When(sources[last] !in names, path + [Index(last), Field(Source)], code)
  }

  function AppReferences(links: Links, m: Manifest, path: Path): seq<Issue> {
    UnknownSources(Sources(links.variables), TextNames(m.variables), path + [Field(Variables)], UnknownVariable) +
    UnknownSources(Sources(links.secrets), SecretNames(m.secrets), path + [Field(Secrets)], UnknownSecret) +
    UnknownSources(Sources(links.configs), TextNames(m.configs), path + [Field(Configs)], UnknownConfig)
  }

  function References(m: Manifest, n: nat): seq<Issue>
    requires n <= |m.apps|
  {
    if n == 0 then [] else
    References(m, n - 1) + AppReferences(m.apps[n - 1].links, m, [Field(SpecField), Field(Apps), Index(n - 1)])
  }

  function TextNames(texts: seq<NamedText>): set<string> {
    set t | t in texts :: t.name
  }

  function SecretNames(texts: seq<SecretText>): set<string> {
    set t | t in texts :: t.name
  }

  function NamesOf(texts: seq<NamedText>): seq<string> {
    seq(|texts|, i requires 0 <= i < |texts| => texts[i].name)
  }

  function NamesOfSecrets(texts: seq<SecretText>): seq<string> {
    seq(|texts|, i requires 0 <= i < |texts| => texts[i].name)
  }

  function AppNames(apps: seq<AppSpec>): seq<string> {
    seq(|apps|, i requires 0 <= i < |apps| => apps[i].basics.name)
  }

  // ---- The whole manifest --------------------------------------------------------------------------------

  function SpecPath(k: Key): Path {
    [Field(SpecField), Field(k)]
  }

  /** Name, description and runtime state are those of the result if there are no issues. */
  function ParseHead(fields: Fields): Read<Option<(string, Option<string>)>> {
    var version := StringValue(At(fields, ApiVersion), [Field(ApiVersion)], REQUIRED);
    var kind := StringValue(At(fields, Kind), [Field(Kind)], REQUIRED);
    var metadata := ObjectValue(At(fields, Metadata), [Field(Metadata)], true);
    var head := if metadata.value.None? then Read(None, []) else ParseMetadata(metadata.value.value);
    Read(if version.value == Some(API_VERSION) && kind.value == Some(KIND) then head.value else None,
         version.issues + kind.issues +
         When(Given(version.value) && version.value.value != API_VERSION, [Field(ApiVersion)], UnsupportedApiVersion) +
         When(Given(kind.value) && kind.value.value != KIND, [Field(Kind)], UnsupportedKind) +
         metadata.issues + head.issues)
  }

  function ParseMetadata(metadata: Record): Read<Option<(string, Option<string>)>> {
    var path := [Field(Metadata)];
    var name := StringValue(At(metadata.1, Name), path + [Field(Name)], RequiredUpTo(63));
    var description := StringValue(At(metadata.1, Description), path + [Field(Description)], UpTo(1000));
    Read(if Given(name.value) then Some((name.value.value, NonEmpty(description.value))) else None,
         UnknownFields(metadata.0, {Name, Description}, path) + name.issues +
         When(Given(name.value) && !ValidName(name.value.value), path + [Field(Name)], InvalidName) + description.issues)
  }

  /** The lists of the manifest; the head is filled in by the caller. */
  function ParseLists(fields: Fields, name: string, description: Option<string>, running: bool): Read<Manifest> {
    var variables := ListOf(At(fields, Variables), SpecPath(Variables), ParseVariable);
    var secrets := ListOf(At(fields, Secrets), SpecPath(Secrets), ParseSecret);
    var configs := ListOf(At(fields, Configs), SpecPath(Configs), ParseConfig);
    var apps := ListOf(At(fields, Apps), SpecPath(Apps), ParseApp);
    var m := Manifest(name, description, running, variables.value, secrets.value, configs.value, apps.value);
    Read(m, (variables.issues + secrets.issues + configs.issues + apps.issues) + ListDuplicates(m) + References(m, |m.apps|))
  }

  function ListDuplicates(m: Manifest): seq<Issue> {
    Duplicates(NamesOf(m.variables), SpecPath(Variables)) +
    Duplicates(NamesOfSecrets(m.secrets), SpecPath(Secrets)) +
    Duplicates(NamesOf(m.configs), SpecPath(Configs)) +
    Duplicates(AppNames(m.apps), SpecPath(Apps))
  }

  function SpecOf(v: Value): Read<Option<Record>> {
    if v.Undefined? then Read(Some(([], map[])), []) else ObjectValue(v, [Field(SpecField)], true)
  }

  function ParseObject(order: seq<Key>, fields: Fields): Read<Option<Manifest>> {
    var head := ParseHead(fields);
    var spec := SpecOf(At(fields, SpecField));
    var (specOrder, specFields) := if spec.value.Some? then spec.value.value else ([], map[]);
    var running := EnumValue(OrElse(At(specFields, RuntimeState), Text("Stopped")), SpecPath(RuntimeState), RUNTIME_STATES);
    var (name, description) := if head.value.Some? then head.value.value else ("", None);
    var lists := ParseLists(specFields, name, description, running.value == Some(true));
    var issues := UnknownFields(order, {ApiVersion, Kind, Metadata, SpecField}, []) + head.issues + spec.issues +
                  UnknownFields(specOrder, {RuntimeState, Variables, Secrets, Configs, Apps}, [Field(SpecField)]) +
                  running.issues + lists.issues;
    Read(if issues != [] || head.value.None? || running.value.None? then None else Some(lists.value), issues)
  }

  function ParseManifest(v: Value): Read<Option<Manifest>> {
    if v.Object? then ParseObject(v.order, v.fields) else Read(None, [Issue([], InvalidManifest)])
  }

  // ---- The checks that append to a list of errors, as loops ------------------------------------------

  method RejectUnknown(order: seq<Key>, allowed: set<Key>, path: Path, errors: seq<Issue>) returns (more: seq<Issue>)
    ensures more == errors + UnknownFields(order, allowed, path)
  {
    more := errors;
    for i := 0 to |order|
      invariant more == errors + UnknownFields(order[..i], allowed, path)
    {
      assert order[..i + 1][..i] == order[..i];
      if order[i] !in allowed { more := more + [Issue(path + [Field(order[i])], UnknownField)]; }
    }
    assert order[..|order|] == order;
  }

  method UniqueBy(keys: seq<string>, path: Path, errors: seq<Issue>) returns (more: seq<Issue>)
    ensures more == errors + Duplicates(keys, path)
  {
    more := errors;
    var seen: set<string> := {};
    for i := 0 to |keys|
      invariant forall k :: k in seen <==> k in keys[..i]
      invariant more == errors + Duplicates(keys[..i], path)
    {
      assert keys[..i + 1][..i] == keys[..i];
      assert keys[..i + 1] == keys[..i] + [keys[i]];
      if keys[i] in seen { more := more + [Issue(path + [Index(i)], DuplicateValue)]; }
      seen := seen + {keys[i]};
    }
    assert keys[..|keys|] == keys;
  }

  lemma {:induction false} OneMoreSource(sources: seq<string>, i: nat, names: set<string>, path: Path, code: Code)
    requires i < |sources|
    ensures UnknownSources(sources[..i + 1], names, path, code) ==
      UnknownSources(sources[..i], names, path, code) + When(sources[i] !in names, path + [Index(i), Field(Source)], code)
  {
    assert sources[..i + 1][..i] == sources[..i];
  }

  method CheckSources(sources: seq<string>, names: set<string>, path: Path, code: Code, errors: seq<Issue>)
    returns (more: seq<Issue>)
    ensures more == errors + UnknownSources(sources, names, path, code)
  {
    more := errors;
    assert UnknownSources(sources[..0], names, path, code) == [];
    hide UnknownSources;
    for i := 0 to |sources|
      invariant more == errors + UnknownSources(sources[..i], names, path, code)
    {
      OneMoreSource(sources, i, names, path, code);
      if sources[i] !in names { more := more + [Issue(path + [Index(i), Field(Source)], code)]; }
    }
    assert sources[..|sources|] == sources;
  }

  method CheckApp(links: Links, m: Manifest, path: Path, errors: seq<Issue>) returns (more: seq<Issue>)
    ensures more == errors + AppReferences(links, m, path)
  {
    hide UnknownSources, Sources, TextNames, SecretNames;
    more := CheckSources(Sources(links.variables), TextNames(m.variables), path + [Field(Variables)], UnknownVariable, errors);
    more := CheckSources(Sources(links.secrets), SecretNames(m.secrets), path + [Field(Secrets)], UnknownSecret, more);
    more := CheckSources(Sources(links.configs), TextNames(m.configs), path + [Field(Configs)], UnknownConfig, more);
  }

  method CheckReferences(m: Manifest, errors: seq<Issue>) returns (more: seq<Issue>)
    ensures more == errors + References(m, |m.apps|)
  {
    hide AppReferences;
    more := errors;
    for i := 0 to |m.apps|
      invariant more == errors + References(m, i)
    {
      more := CheckApp(m.apps[i].links, m, [Field(SpecField), Field(Apps), Index(i)], more);
    }
  }

  method StringMapLoop(order: seq<Key>, fields: Fields, path: Path, errors: seq<Issue>)
    returns (kept: seq<Key>, texts: map<Key, string>, more: seq<Issue>)
    ensures (kept, texts) == TextFields(order, fields, path).value && more == errors + TextFields(order, fields, path).issues
  {
    kept, texts, more := [], map[], errors;
    for i := 0 to |order|
      invariant (kept, texts) == TextFields(order[..i], fields, path).value
      invariant more == errors + TextFields(order[..i], fields, path).issues
    {
      assert order[..i + 1][..i] == order[..i];
      var k := order[i];
      if At(fields, k).Text? {
        if k != PROTO { kept, texts := kept + [k], texts[k := fields[k].text]; }
      } else {
        more := more + [Issue(path + [Field(k)], ExpectedString)];
      }
    }
    assert order[..|order|] == order;
  }
}
