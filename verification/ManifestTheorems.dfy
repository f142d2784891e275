/** Parsing returns exactly the well-formed manifests, and writing one down and parsing it gives it back. */
module ManifestTheorems {
  import opened Prelude
  import opened ManifestText
  import opened Manifest
  import opened ManifestRules

  // ---- The checks, one way and the other ---------------------------------------------

  lemma {:induction false} NoDuplicates(keys: seq<string>, path: Path)
    ensures Duplicates(keys, path) == [] <==> Distinct(keys)
  {
    if keys != [] {
      var init, last := keys[..|keys| - 1], keys[|keys| - 1];
      NoDuplicates(init, path);
      assert last in init <==> exists i :: 0 <= i < |init| && keys[i] == last;
      assert Distinct(keys) <==> Distinct(init) && last !in init;
    }
  }

  lemma {:induction false} NoUnknownFields(order: seq<Key>, allowed: set<Key>, path: Path)
    ensures UnknownFields(order, allowed, path) == [] <==> forall k | k in order :: k in allowed
  {
    if order != [] {
      NoUnknownFields(order[..|order| - 1], allowed, path);
      assert order == order[..|order| - 1] + [order[|order| - 1]];
    }
  }

  lemma {:induction false} NoUnknownSources(sources: seq<string>, names: set<string>, path: Path, code: Code)
    ensures UnknownSources(sources, names, path, code) == [] <==> forall s | s in sources :: s in names
  {
    if sources != [] {
      var init, last := sources[..|sources| - 1], sources[|sources| - 1];
      NoUnknownSources(init, names, path, code);
      var found := When(last !in names, path + [Index(|sources| - 1), Field(Source)], code);
      assert UnknownSources(sources, names, path, code) == UnknownSources(init, names, path, code) + found;
      assert found == [] <==> last in names;
      assert forall s :: s in sources <==> s in init || s == last;
    }
  }

  lemma {:induction false} PresentKeys(keys: seq<Key>, fields: Fields)
    ensures forall k :: k in Present(keys, fields) ==> k in keys
  {
    if keys != [] { PresentKeys(keys[..|keys| - 1], fields); }
  }

  /** The fields of a written row are those it was written from. */
  lemma RowFields(keys: seq<Key>, fields: Fields, allowed: set<Key>, path: Path)
    requires forall k | k in keys :: k in allowed
    ensures Row(keys, fields).Object?
    ensures forall k :: At(Row(keys, fields).fields, k) == At(fields, k)
    ensures UnknownFields(Row(keys, fields).order, allowed, path) == []
  {
    PresentKeys(keys, fields);
    NoUnknownFields(Present(keys, fields), allowed, path);
  }

  // ---- Lists -----------------------------------------------------------------------------

  /** A row reader that finds no issue returns an entry, and a valid one. */
  ghost predicate Sound<T(!new)>(row: (Value, Path) -> Read<Option<T>>, valid: T -> bool) {
    forall v, p :: row(v, p).issues == [] ==> row(v, p).value.Some? && valid(row(v, p).value.value)
  }

  /** A valid entry that is written down is read back. */
  ghost predicate Complete<T(!new)>(row: (Value, Path) -> Read<Option<T>>, valid: T -> bool, write: T -> Value) {
    forall x, p :: valid(x) ==> row(write(x), p) == Read(Some(x), [])
  }

  /** Nothing of the list is lost: one entry for each item, read without issues. */
  ghost predicate Exact<T(!new)>(items: seq<Value>, path: Path, row: (Value, Path) -> Read<Option<T>>, xs: seq<T>) {
    |xs| == |items| && forall i :: 0 <= i < |items| ==> row(items[i], path + [Index(i)]) == Read(Some(xs[i]), [])
  }

  lemma {:induction false} RowsSound<T(!new)>(items: seq<Value>, path: Path, row: (Value, Path) -> Read<Option<T>>, valid: T -> bool)
    requires Sound(row, valid) && Rows(items, path, row).issues == []
    ensures Exact(items, path, row, Rows(items, path, row).value)
    ensures forall x | x in Rows(items, path, row).value :: valid(x)
  {
    if items != [] {
      var init := items[..|items| - 1];
      var last := row(items[|items| - 1], path + [Index(|items| - 1)]);
      assert Rows(items, path, row).issues == Rows(init, path, row).issues + last.issues;
      RowsSound(init, path, row, valid);
    }
  }

  lemma {:induction false} RowsComplete<T(!new)>(items: seq<Value>, path: Path, row: (Value, Path) -> Read<Option<T>>, xs: seq<T>)
    requires Exact(items, path, row, xs)
    ensures Rows(items, path, row) == Read(xs, [])
  {
    if items == [] {
      assert xs == [];
    } else {
      var n := |items| - 1;
      RowsComplete(items[..n], path, row, xs[..n]);
      assert row(items[n], path + [Index(n)]) == Read(Some(xs[n]), []);
      assert Rows(items, path, row).value == xs[..n] + [xs[n]];
      assert xs == xs[..n] + [xs[n]];
    }
  }

  /** The list under a field, empty if the field is missing. */
  function Items(v: Value): seq<Value> {
    if v.List? then v.items else []
  }

  lemma ListSound<T(!new)>(v: Value, path: Path, row: (Value, Path) -> Read<Option<T>>, valid: T -> bool)
    requires Sound(row, valid) && ListOf(v, path, row).issues == []
    ensures v.List? || v.Undefined?
    ensures Exact(Items(v), path, row, ListOf(v, path, row).value)
    ensures forall x | x in ListOf(v, path, row).value :: valid(x)
  {
    RowsSound(Items(v), path, row, valid);
  }

  lemma ListComplete<T(!new)>(xs: seq<T>, path: Path, row: (Value, Path) -> Read<Option<T>>, valid: T -> bool, write: T -> Value)
    requires Complete(row, valid, write) && forall x | x in xs :: valid(x)
    ensures ListOf(ListValue(xs, write), path, row) == Read(xs, [])
  {
    RowsComplete(ListValue(xs, write).items, path, row, xs);
  }

  lemma StringsComplete(xs: seq<string>, path: Path)
    ensures StringArray(ListValue(xs, WriteText), path) == Read(xs, [])
  {
    ListComplete(xs, path, TextEntry, (s: string) => true, WriteText);
  }

  // ---- Rows of the lists at the top ------------------------------------------------------------

  lemma VariableSound()
    ensures Sound(ParseVariable, ValidVariable)
  {
  }

  lemma ConfigSound()
    ensures Sound(ParseConfig, ValidConfig)
  {
  }

  lemma SecretSound()
    ensures Sound(ParseSecret, ValidSecret)
  {
    forall v, p | ParseSecret(v, p).issues == []
      ensures ParseSecret(v, p).value.Some? && ValidSecret(ParseSecret(v, p).value.value)
    {
      SecretRowSound(v, p);
    }
  }

  lemma SecretRowSound(v: Value, p: Path)
    requires ParseSecret(v, p).issues == []
    ensures ParseSecret(v, p).value.Some? && ValidSecret(ParseSecret(v, p).value.value)
  {
  }

  lemma VariableRead(order: seq<Key>, fields: Fields, t: NamedText, p: Path)
    requires ValidVariable(t) && UnknownFields(order, {Name, Description, ValueField}, p) == []
    requires At(fields, Name) == Text(t.name) && At(fields, Description) == TextOf(t.description)
    requires At(fields, ValueField) == Text(t.text)
    ensures ParseVariable(Object(order, fields), p) == Read(Some(t), [])
  {
    hide UnknownFields, At;
    OptionalRead(t.description, p + [Field(Description)], 1000);
  }

  lemma VariableComplete()
    ensures Complete(ParseVariable, ValidVariable, WriteVariable)
  {
    forall t, p | ValidVariable(t) ensures ParseVariable(WriteVariable(t), p) == Read(Some(t), []) {
      hide ParseVariable, ValidVariable, TextOf;
      var keys := [Name, Description, ValueField];
      var fields := map[Name := Text(t.name), Description := TextOf(t.description), ValueField := Text(t.text)];
      RowFields(keys, fields, {Name, Description, ValueField}, p);
      VariableRead(Row(keys, fields).order, Row(keys, fields).fields, t, p);
    }
  }

  lemma ConfigRead(order: seq<Key>, fields: Fields, t: NamedText, p: Path)
    requires ValidConfig(t) && UnknownFields(order, {Name, Description, ContentField}, p) == []
    requires At(fields, Name) == Text(t.name) && At(fields, Description) == TextOf(t.description)
    requires At(fields, ContentField) == Text(t.text)
    ensures ParseConfig(Object(order, fields), p) == Read(Some(t), [])
  {
    hide UnknownFields, At;
    OptionalRead(t.description, p + [Field(Description)], 1000);
  }

  lemma ConfigComplete()
    ensures Complete(ParseConfig, ValidConfig, WriteConfig)
  {
    forall t, p | ValidConfig(t) ensures ParseConfig(WriteConfig(t), p) == Read(Some(t), []) {
      hide ParseConfig, ValidConfig, TextOf;
      var keys := [Name, Description, ContentField];
      var fields := map[Name := Text(t.name), Description := TextOf(t.description), ContentField := Text(t.text)];
      RowFields(keys, fields, {Name, Description, ContentField}, p);
      ConfigRead(Row(keys, fields).order, Row(keys, fields).fields, t, p);
    }
  }

  lemma TypeRead(binary: bool, p: Path)
    ensures EnumValue(OrElse(Text(if binary then "Binary" else "Text"), Text("Text")), p, SECRET_TYPES) == Read(Some(binary), [])
  {
  }

  lemma OptionalRead(s: Option<string>, p: Path, max: nat)
    requires OptionalWithin(s, max)
    ensures StringValue(TextOf(s), p, UpTo(max)) == Read(s, []) && NonEmpty(s) == s
  {
  }

  lemma SecretFieldsRead(order: seq<Key>, fields: Fields, t: SecretText, p: Path)
    requires ValidSecret(t) && UnknownFields(order, {Name, Description, TypeField, FileName, ValueField}, p) == []
    requires At(fields, Name) == Text(t.name) && At(fields, Description) == TextOf(t.description)
    requires At(fields, TypeField) == Text(if t.binary then "Binary" else "Text")
    requires At(fields, FileName) == TextOf(t.fileName) && At(fields, ValueField) == Text(t.text)
    ensures ParseSecret(Object(order, fields), p) == Read(Some(t), [])
  {
    hide EnumValue, UnknownFields, At;
    TypeRead(t.binary, p + [Field(TypeField)]);
    OptionalRead(t.description, p + [Field(Description)], 1000);
    OptionalRead(t.fileName, p + [Field(FileName)], 255);
    assert SecretRules(p, Some(t.name), Some(t.binary), t.fileName, Some(t.text)) == [];
  }

  lemma SecretRowComplete(t: SecretText, p: Path)
    requires ValidSecret(t)
    ensures ParseSecret(WriteSecret(t), p) == Read(Some(t), [])
  {
    hide ParseSecret, ValidSecret, TextOf;
    var keys := [Name, Description, TypeField, FileName, ValueField];
    var fields := map[Name := Text(t.name), Description := TextOf(t.description),
                      TypeField := Text(if t.binary then "Binary" else "Text"), FileName := TextOf(t.fileName), ValueField := Text(t.text)];
    RowFields(keys, fields, {Name, Description, TypeField, FileName, ValueField}, p);
    SecretFieldsRead(Row(keys, fields).order, Row(keys, fields).fields, t, p);
  }

  lemma SecretComplete()
    ensures Complete(ParseSecret, ValidSecret, WriteSecret)
  {
    forall t, p | ValidSecret(t) ensures ParseSecret(WriteSecret(t), p) == Read(Some(t), []) {
      SecretRowComplete(t, p);
    }
  }

  // ---- Attachments and endpoints -----------------------------------------------------------------

  lemma VariableLinkRowSound(v: Value, p: Path)
    requires ParseVariableLink(v, p).issues == []
    ensures ParseVariableLink(v, p).value.Some? && ValidVariableLink(ParseVariableLink(v, p).value.value)
  {
  }

  lemma SecretLinkRowSound(v: Value, p: Path)
    requires ParseSecretLink(v, p).issues == []
    ensures ParseSecretLink(v, p).value.Some? && ValidSecretLink(ParseSecretLink(v, p).value.value)
  {
  }

  lemma ConfigLinkRowSound(v: Value, p: Path)
    requires ParseConfigLink(v, p).issues == []
    ensures ParseConfigLink(v, p).value.Some? && ValidConfigLink(ParseConfigLink(v, p).value.value)
  {
  }

  lemma LinksSound()
    ensures Sound(ParseVariableLink, ValidVariableLink)
    ensures Sound(ParseSecretLink, ValidSecretLink)
    ensures Sound(ParseConfigLink, ValidConfigLink)
  {
    hide ParseVariableLink, ParseSecretLink, ParseConfigLink, ValidVariableLink, ValidSecretLink, ValidConfigLink;
    forall v, p | ParseVariableLink(v, p).issues == [] { VariableLinkRowSound(v, p); }
    forall v, p | ParseSecretLink(v, p).issues == [] { SecretLinkRowSound(v, p); }
    forall v, p | ParseConfigLink(v, p).issues == [] { ConfigLinkRowSound(v, p); }
  }

  lemma VolumeLinkSound()
    ensures Sound(ParseVolumeLink, ValidVolumeLink)
  {
  }

  lemma EndpointSound()
    ensures Sound(ParseEndpoint, ValidEndpoint)
  {
    forall v, p | ParseEndpoint(v, p).issues == []
      ensures ParseEndpoint(v, p).value.Some? && ValidEndpoint(ParseEndpoint(v, p).value.value)
    {
      NoDuplicates(StringArray(At(v.fields, Domains), p + [Field(Domains)]).value, p + [Field(Domains)]);
    }
  }

  lemma NameLinkRead(order: seq<Key>, fields: Fields, l: Link, p: Path)
    requires UnknownFields(order, {Source, TargetName}, p) == []
    requires At(fields, Source) == Text(l.source) && At(fields, TargetName) == Text(l.target)
    ensures ValidVariableLink(l) ==> ParseVariableLink(Object(order, fields), p) == Read(Some(l), [])
    ensures ValidSecretLink(l) ==> ParseSecretLink(Object(order, fields), p) == Read(Some(l), [])
  {
    hide UnknownFields, At;
  }

  lemma LinksComplete()
    ensures Complete(ParseVariableLink, ValidVariableLink, WriteNameLink)
    ensures Complete(ParseSecretLink, ValidSecretLink, WriteNameLink)
  {
    forall l: Link, p: Path
      ensures ValidVariableLink(l) ==> ParseVariableLink(WriteNameLink(l), p) == Read(Some(l), [])
      ensures ValidSecretLink(l) ==> ParseSecretLink(WriteNameLink(l), p) == Read(Some(l), [])
    {
      hide ParseVariableLink, ParseSecretLink, ValidVariableLink, ValidSecretLink;
      var keys, fields := [Source, TargetName], map[Source := Text(l.source), TargetName := Text(l.target)];
      RowFields(keys, fields, {Source, TargetName}, p);
      NameLinkRead(Row(keys, fields).order, Row(keys, fields).fields, l, p);
    }
  }

  lemma ConfigLinkRead(order: seq<Key>, fields: Fields, l: Link, p: Path)
    requires ValidConfigLink(l) && UnknownFields(order, {Source, TargetPath}, p) == []
    requires At(fields, Source) == Text(l.source) && At(fields, TargetPath) == Text(l.target)
    ensures ParseConfigLink(Object(order, fields), p) == Read(Some(l), [])
  {
    hide UnknownFields, At;
  }

  lemma ConfigLinkComplete()
    ensures Complete(ParseConfigLink, ValidConfigLink, WriteConfigLink)
  {
    forall l: Link, p: Path | ValidConfigLink(l) ensures ParseConfigLink(WriteConfigLink(l), p) == Read(Some(l), []) {
      hide ParseConfigLink, ValidConfigLink;
      var keys, fields := [Source, TargetPath], map[Source := Text(l.source), TargetPath := Text(l.target)];
      RowFields(keys, fields, {Source, TargetPath}, p);
      ConfigLinkRead(Row(keys, fields).order, Row(keys, fields).fields, l, p);
    }
  }

  lemma ModeRead(readOnly: bool, p: Path)
    ensures EnumValue(OrElse(Text(if readOnly then "ReadOnly" else "ReadWrite"), Text("ReadWrite")), p, ATTACHMENT_MODES) ==
              Read(Some(readOnly), [])
  {
  }

  lemma VolumeFieldsRead(order: seq<Key>, fields: Fields, l: VolumeLink, p: Path)
    requires ValidVolumeLink(l) && UnknownFields(order, {Source, MountPath, ModeField}, p) == []
    requires At(fields, Source) == Text(l.source) && At(fields, MountPath) == Text(l.mountPath)
    requires At(fields, ModeField) == Text(if l.readOnly then "ReadOnly" else "ReadWrite")
    ensures ParseVolumeLink(Object(order, fields), p) == Read(Some(l), [])
  {
    hide EnumValue, UnknownFields, At;
    ModeRead(l.readOnly, p + [Field(ModeField)]);
  }

  lemma VolumeLinkComplete()
    ensures Complete(ParseVolumeLink, ValidVolumeLink, WriteVolumeLink)
  {
    forall l: VolumeLink, p: Path | ValidVolumeLink(l) ensures ParseVolumeLink(WriteVolumeLink(l), p) == Read(Some(l), []) {
      hide ParseVolumeLink, ValidVolumeLink, Row, Present, UnknownFields;
      var keys := [Source, MountPath, ModeField];
      var fields := map[Source := Text(l.source), MountPath := Text(l.mountPath),
                        ModeField := Text(if l.readOnly then "ReadOnly" else "ReadWrite")];
      RowFields(keys, fields, {Source, MountPath, ModeField}, p);
      VolumeFieldsRead(Row(keys, fields).order, Row(keys, fields).fields, l, p);
    }
  }

  lemma ProtocolRead(protocol: Protocol, p: Path)
    ensures EnumValue(OrElse(Text(ProtocolText(protocol)), Text("HTTP_REDIRECT_TO_HTTPS")), p, PROTOCOLS) ==
              Read(Some(protocol), [])
  {
  }

  lemma EndpointFieldsRead(order: seq<Key>, fields: Fields, e: EndpointSpec, p: Path)
    requires ValidEndpoint(e) && UnknownFields(order, {Name, ContainerPort, ProtocolMode, Domains}, p) == []
    requires At(fields, Name) == Text(e.name) && At(fields, ContainerPort) == Num(e.containerPort as real)
    requires At(fields, ProtocolMode) == Text(ProtocolText(e.protocol))
    requires At(fields, Domains) == ListValue(e.domains, WriteText)
    ensures ParseEndpoint(Object(order, fields), p) == Read(Some(e), [])
  {
    hide EnumValue, UnknownFields, At, StringArray, ListValue, ProtocolText;
    ProtocolRead(e.protocol, p + [Field(ProtocolMode)]);
    StringsComplete(e.domains, p + [Field(Domains)]);
    NoDuplicates(e.domains, p + [Field(Domains)]);
  }

  lemma EndpointRowComplete(e: EndpointSpec, p: Path)
    requires ValidEndpoint(e)
    ensures ParseEndpoint(WriteEndpoint(e), p) == Read(Some(e), [])
  {
    hide ParseEndpoint, ValidEndpoint, ProtocolText, ListValue;
    var keys := [Name, ContainerPort, ProtocolMode, Domains];
    var fields := map[Name := Text(e.name), ContainerPort := Num(e.containerPort as real),
                      ProtocolMode := Text(ProtocolText(e.protocol)), Domains := ListValue(e.domains, WriteText)];
    RowFields(keys, fields, {Name, ContainerPort, ProtocolMode, Domains}, p);
    EndpointFieldsRead(Row(keys, fields).order, Row(keys, fields).fields, e, p);
  }

  lemma EndpointComplete()
    ensures Complete(ParseEndpoint, ValidEndpoint, WriteEndpoint)
  {
    forall e: EndpointSpec, p: Path | ValidEndpoint(e) ensures ParseEndpoint(WriteEndpoint(e), p) == Read(Some(e), []) {
      EndpointRowComplete(e, p);
    }
  }

  // ---- Apps ------------------------------------------------------------------------------------------

  lemma BasicsSound(fields: Fields, p: Path)
    requires ParseBasics(fields, p).issues == []
    ensures ParseBasics(fields, p).value.Some? && ValidBasics(ParseBasics(fields, p).value.value)
  {
  }

  lemma NeedsSound(v: Value, p: Path)
    requires ParseNeeds(v, p).issues == []
    ensures ParseNeeds(v, p).value.Some? && ValidNeeds(ParseNeeds(v, p).value.value)
  {
  }

  /** The names that are kept. */
  function Kept(order: seq<Key>): seq<Key> {
    if order == [] then [] else
      var last := order[|order| - 1];
      Kept(order[..|order| - 1]) + if last == PROTO then [] else [last]
  }

  /** All of them exactly if the one name that cannot be assigned is not there. */
  lemma {:induction false} KeptExactly(order: seq<Key>)
    ensures Kept(order) == order <==> PROTO !in order
    ensures forall k :: k in Kept(order) <==> k in order && k != PROTO
    ensures |Kept(order)| <= |order|
  {
    if order != [] {
      KeptExactly(order[..|order| - 1]);
      assert order == order[..|order| - 1] + [order[|order| - 1]];
    }
  }

  lemma {:induction false} TextFieldsRead(order: seq<Key>, fields: Fields, p: Path)
    ensures var r := TextFields(order, fields, p);
      && r.value.1.Keys == (set k | k in r.value.0) && PROTO !in r.value.0
      && (forall k | k in r.value.1 :: At(fields, k) == Text(r.value.1[k]))
      && (r.issues == [] ==> r.value.0 == Kept(order))
      && (r.issues == [] <==> forall k | k in order :: At(fields, k).Text?)
  {
    if order != [] {
      TextFieldsRead(order[..|order| - 1], fields, p);
      assert order == order[..|order| - 1] + [order[|order| - 1]];
    }
  }

  /** An entry under that name is dropped, and nothing is reported. */
  lemma ProtoEntryIsDropped(p: Path)
    ensures StringMap(Object([PROTO], map[PROTO := Text("text")]), p) == Read(([], map[]), [])
  {
    assert [PROTO][..0] == [];
    assert TextFields([PROTO][..0], map[PROTO := Text("text")], p) == Read(([], map[]), []);
  }

  lemma WrittenTexts(e: (seq<Key>, map<Key, string>), k: Key)
    requires k in e.1
    ensures WriteEnvironment(e).Object? && At(WriteEnvironment(e).fields, k) == Text(e.1[k])
  {
  }

  lemma EnvironmentComplete(e: (seq<Key>, map<Key, string>), p: Path)
    requires e.1.Keys == (set k | k in e.0) && PROTO !in e.0
    ensures StringMap(WriteEnvironment(e), p) == Read(e, [])
  {
    hide TextFields, Kept, At;
    var fields := WriteEnvironment(e).fields;
    KeptExactly(e.0);
    TextFieldsRead(e.0, fields, p);
    forall k | k in e.1 ensures At(fields, k) == Text(e.1[k]) { WrittenTexts(e, k); }
    assert forall k | k in e.0 :: k in e.1.Keys;
    SameTexts(fields, TextFields(e.0, fields, p).value.1, e.1);
  }

  lemma SameTexts(fields: Fields, x: map<Key, string>, y: map<Key, string>)
    requires x.Keys == y.Keys
    requires forall k | k in x :: At(fields, k) == Text(x[k])
    requires forall k | k in y :: At(fields, k) == Text(y[k])
    ensures x == y
  {
    hide At;
  }

  lemma OptionsSound(fields: Fields, p: Path)
    requires ParseOptions(fields, p).issues == []
    ensures ParseOptions(fields, p).value.Some? && ValidOptions(ParseOptions(fields, p).value.value)
  {
    var v := At(fields, Environment);
    if v.Object? { TextFieldsRead(v.order, v.fields, p + [Field(Environment)]); }
    EnvironmentKeys(v, p + [Field(Environment)]);
  }

  lemma EnvironmentKeys(v: Value, p: Path)
    ensures var e := StringMap(v, p).value; e.1.Keys == (set k | k in e.0) && PROTO !in e.0
  {
    if v.Object? { TextFieldsRead(v.order, v.fields, p); }
  }

  lemma LinksRead(fields: Fields, p: Path)
    requires ParseLinks(fields, p).issues == []
    ensures ValidLinks(ParseLinks(fields, p).value)
  {
    var l := ParseLinks(fields, p).value;
    LinksSound();
    VolumeLinkSound();
    EndpointSound();
    ListSound(At(fields, Variables), p + [Field(Variables)], ParseVariableLink, ValidVariableLink);
    ListSound(At(fields, Secrets), p + [Field(Secrets)], ParseSecretLink, ValidSecretLink);
    ListSound(At(fields, Configs), p + [Field(Configs)], ParseConfigLink, ValidConfigLink);
    ListSound(At(fields, Volumes), p + [Field(Volumes)], ParseVolumeLink, ValidVolumeLink);
    ListSound(At(fields, HttpEndpoints), p + [Field(HttpEndpoints)], ParseEndpoint, ValidEndpoint);
    LinkDuplicatesExact(l, p);
  }

  lemma LinkDuplicatesExact(l: Links, p: Path)
    ensures LinkDuplicates(l, p) == [] <==>
      Distinct(Targets(l.variables)) && Distinct(Targets(l.secrets)) && Distinct(Targets(l.configs)) &&
      Distinct(MountPaths(l.volumes)) && Distinct(EndpointNames(l.endpoints))
  {
    NoDuplicates(Targets(l.variables), p + [Field(Variables)]);
    NoDuplicates(Targets(l.secrets), p + [Field(Secrets)]);
    NoDuplicates(Targets(l.configs), p + [Field(Configs)]);
    NoDuplicates(MountPaths(l.volumes), p + [Field(Volumes)]);
    NoDuplicates(EndpointNames(l.endpoints), p + [Field(HttpEndpoints)]);
  }

  lemma AppSound()
    ensures Sound(ParseApp, ValidApp)
  {
    forall v, p | ParseApp(v, p).issues == []
      ensures ParseApp(v, p).value.Some? && ValidApp(ParseApp(v, p).value.value)
    {
      BasicsSound(v.fields, p);
      NeedsSound(At(v.fields, Resources), p + [Field(Resources)]);
      OptionsSound(v.fields, p);
      LinksRead(v.fields, p);
    }
  }

  lemma StateRead(running: bool, default: Value, p: Path)
    ensures EnumValue(OrElse(WriteState(running), default), p, RUNTIME_STATES) == Read(Some(running), [])
  {
  }

  predicate HasBasics(fields: Fields, b: Basics) {
    && At(fields, Name) == Text(b.name) && At(fields, Description) == TextOf(b.description)
    && At(fields, Image) == Text(b.image) && At(fields, Registry) == TextOf(b.registry)
    && At(fields, DesiredReplicas) == Num(b.desiredReplicas as real) && At(fields, RuntimeState) == WriteState(b.running)
  }

  lemma BasicsComplete(fields: Fields, b: Basics, p: Path)
    requires ValidBasics(b) && HasBasics(fields, b)
    ensures ParseBasics(fields, p) == Read(Some(b), [])
  {
    OptionalRead(b.description, p + [Field(Description)], 1000);
    OptionalRead(b.registry, p + [Field(Registry)], 128);
    StateRead(b.running, Text("Running"), p + [Field(RuntimeState)]);
  }

  lemma NeedsRead(order: seq<Key>, fields: Fields, n: Needs, p: Path)
    requires ValidNeeds(n) && UnknownFields(order, {Cpu, MemoryBytes, Gpu}, p) == []
    requires At(fields, Cpu) == Num(n.cpu) && At(fields, MemoryBytes) == Num(n.memoryBytes as real)
    requires At(fields, Gpu) == Num(n.gpu as real)
    ensures ParseNeeds(Object(order, fields), p) == Read(Some(n), [])
  {
    hide At, UnknownFields;
  }

  lemma NeedsComplete(n: Needs, p: Path)
    requires ValidNeeds(n)
    ensures ParseNeeds(WriteNeeds(n), p) == Read(Some(n), [])
  {
    hide ParseNeeds, ValidNeeds;
    var keys := [Cpu, MemoryBytes, Gpu];
    var fields := map[Cpu := Num(n.cpu), MemoryBytes := Num(n.memoryBytes as real), Gpu := Num(n.gpu as real)];
    RowFields(keys, fields, {Cpu, MemoryBytes, Gpu}, p);
    NeedsRead(Row(keys, fields).order, Row(keys, fields).fields, n, p);
  }

  lemma RecordRead(r: Option<Record>, p: Path)
    ensures ObjectValue(WriteRecord(r), p, false) == Read(r, [])
  {
  }

  lemma FilledRead(s: Option<string>, p: Path)
    requires Filled(s)
    ensures StringValue(TextOf(s), p, OPTIONAL) == Read(s, []) && NonEmpty(s) == s
  {
  }

  predicate HasOptions(fields: Fields, o: Options) {
    && At(fields, Environment) == WriteEnvironment(o.environment) && At(fields, HealthCheck) == WriteRecord(o.healthCheck)
    && At(fields, Entrypoint) == TextOf(o.entrypoint) && At(fields, Command) == ListValue(o.command, WriteText)
    && At(fields, WorkingDir) == TextOf(o.workingDir) && At(fields, User) == TextOf(o.user)
    && At(fields, ReadOnlyRootFilesystem) == Bool(o.readOnlyRootFilesystem)
    && At(fields, StopGracePeriodSeconds) == Num(o.stopGracePeriodSeconds as real)
    && At(fields, RestartPolicy) == WriteRecord(o.restartPolicy) && At(fields, UpdatePolicy) == WriteRecord(o.updatePolicy)
  }

  lemma OptionsComplete(fields: Fields, o: Options, p: Path)
    requires ValidOptions(o) && HasOptions(fields, o)
    ensures ParseOptions(fields, p) == Read(Some(o), [])
  {
    EnvironmentComplete(o.environment, p + [Field(Environment)]);
    RecordRead(o.healthCheck, p + [Field(HealthCheck)]);
    RecordRead(o.restartPolicy, p + [Field(RestartPolicy)]);
    RecordRead(o.updatePolicy, p + [Field(UpdatePolicy)]);
    FilledRead(o.entrypoint, p + [Field(Entrypoint)]);
    FilledRead(o.workingDir, p + [Field(WorkingDir)]);
    FilledRead(o.user, p + [Field(User)]);
    StringsComplete(o.command, p + [Field(Command)]);
  }

  predicate HasLinks(fields: Fields, l: Links) {
    && At(fields, Variables) == ListValue(l.variables, WriteNameLink)
    && At(fields, Secrets) == ListValue(l.secrets, WriteNameLink)
    && At(fields, Configs) == ListValue(l.configs, WriteConfigLink)
    && At(fields, Volumes) == ListValue(l.volumes, WriteVolumeLink)
    && At(fields, HttpEndpoints) == ListValue(l.endpoints, WriteEndpoint)
  }

  lemma LinksWritten(fields: Fields, l: Links, p: Path)
    requires ValidLinks(l) && HasLinks(fields, l)
    ensures ParseLinks(fields, p) == Read(l, [])
  {
    LinksComplete();
    ConfigLinkComplete();
    VolumeLinkComplete();
    EndpointComplete();
    ListComplete(l.variables, p + [Field(Variables)], ParseVariableLink, ValidVariableLink, WriteNameLink);
    ListComplete(l.secrets, p + [Field(Secrets)], ParseSecretLink, ValidSecretLink, WriteNameLink);
    ListComplete(l.configs, p + [Field(Configs)], ParseConfigLink, ValidConfigLink, WriteConfigLink);
    ListComplete(l.volumes, p + [Field(Volumes)], ParseVolumeLink, ValidVolumeLink, WriteVolumeLink);
    ListComplete(l.endpoints, p + [Field(HttpEndpoints)], ParseEndpoint, ValidEndpoint, WriteEndpoint);
    LinkDuplicatesExact(l, p);
  }

  lemma AppFieldAt(a: AppSpec, k: Key)
    requires k in APP_FIELDS
    ensures At(WriteApp(a).fields, k) == WriteAppField(a, k)
  {
  }

  lemma AppHasBasics(a: AppSpec)
    ensures HasBasics(WriteApp(a).fields, a.basics)
  {
    hide WriteApp, At;
    AppFieldAt(a, Name);
    AppFieldAt(a, Description);
    AppFieldAt(a, Image);
    AppFieldAt(a, Registry);
    AppFieldAt(a, DesiredReplicas);
    AppFieldAt(a, RuntimeState);
  }

  lemma AppTextOptions(a: AppSpec)
    ensures var fields := WriteApp(a).fields;
      && At(fields, Entrypoint) == TextOf(a.options.entrypoint) && At(fields, Command) == ListValue(a.options.command, WriteText)
      && At(fields, WorkingDir) == TextOf(a.options.workingDir) && At(fields, User) == TextOf(a.options.user)
  {
    hide WriteApp, At;
    AppFieldAt(a, Entrypoint);
    AppFieldAt(a, Command);
    AppFieldAt(a, WorkingDir);
    AppFieldAt(a, User);
  }

  lemma AppRecordOptions(a: AppSpec)
    ensures var fields := WriteApp(a).fields;
      && At(fields, HealthCheck) == WriteRecord(a.options.healthCheck)
      && At(fields, RestartPolicy) == WriteRecord(a.options.restartPolicy)
      && At(fields, UpdatePolicy) == WriteRecord(a.options.updatePolicy)
  {
    hide WriteApp, At;
    AppFieldAt(a, HealthCheck);
    AppFieldAt(a, RestartPolicy);
    AppFieldAt(a, UpdatePolicy);
  }

  lemma AppOtherOptions(a: AppSpec)
    ensures var fields := WriteApp(a).fields;
      && At(fields, Environment) == WriteEnvironment(a.options.environment)
      && At(fields, ReadOnlyRootFilesystem) == Bool(a.options.readOnlyRootFilesystem)
      && At(fields, StopGracePeriodSeconds) == Num(a.options.stopGracePeriodSeconds as real)
  {
    hide WriteApp, At;
    AppFieldAt(a, Environment);
    AppFieldAt(a, ReadOnlyRootFilesystem);
    AppFieldAt(a, StopGracePeriodSeconds);
  }

  lemma AppHasOptions(a: AppSpec)
    ensures HasOptions(WriteApp(a).fields, a.options)
  {
    hide WriteApp;
    AppTextOptions(a);
    AppRecordOptions(a);
    AppOtherOptions(a);
  }

  lemma AppHasLinks(a: AppSpec)
    ensures HasLinks(WriteApp(a).fields, a.links) && At(WriteApp(a).fields, Resources) == WriteNeeds(a.needs)
  {
    hide WriteApp, At;
    AppFieldAt(a, Variables);
    AppFieldAt(a, Secrets);
    AppFieldAt(a, Configs);
    AppFieldAt(a, Volumes);
    AppFieldAt(a, HttpEndpoints);
    AppFieldAt(a, Resources);
  }

  lemma AppOrder(a: AppSpec, p: Path)
    ensures WriteApp(a).Object? && UnknownFields(WriteApp(a).order, APP_FIELDS, p) == []
  {
    PresentKeys(APP_KEYS, AppFields(a));
    NoUnknownFields(Present(APP_KEYS, AppFields(a)), APP_FIELDS, p);
  }

  lemma AppFieldsComplete(order: seq<Key>, fields: Fields, a: AppSpec, p: Path)
    requires ValidApp(a) && UnknownFields(order, APP_FIELDS, p) == []
    requires HasBasics(fields, a.basics) && HasOptions(fields, a.options) && HasLinks(fields, a.links)
    requires At(fields, Resources) == WriteNeeds(a.needs)
    ensures ParseAppFields(order, fields, p) == Read(Some(a), [])
  {
    hide ParseBasics, ParseNeeds, ParseOptions, ParseLinks, WriteNeeds;
    BasicsComplete(fields, a.basics, p);
    NeedsComplete(a.needs, p + [Field(Resources)]);
    OptionsComplete(fields, a.options, p);
    LinksWritten(fields, a.links, p);
  }

  lemma AppRowComplete(a: AppSpec, p: Path)
    requires ValidApp(a)
    ensures ParseApp(WriteApp(a), p) == Read(Some(a), [])
  {
    hide ParseAppFields, WriteApp, HasBasics, HasOptions, HasLinks, ValidApp;
    AppOrder(a, p);
    AppHasBasics(a);
    AppHasOptions(a);
    AppHasLinks(a);
    AppFieldsComplete(WriteApp(a).order, WriteApp(a).fields, a, p);
  }

  lemma AppComplete()
    ensures Complete(ParseApp, ValidApp, WriteApp)
  {
    forall a: AppSpec, p: Path | ValidApp(a) ensures ParseApp(WriteApp(a), p) == Read(Some(a), []) {
      AppRowComplete(a, p);
    }
  }

  // ---- References ----------------------------------------------------------------------------------------

  lemma SourcesIn(links: seq<Link>, names: set<string>)
    ensures (forall s | s in Sources(links) :: s in names) <==> (forall x | x in links :: x.source in names)
  {
    forall x | x in links ensures x.source in Sources(links) {
      var i :| 0 <= i < |links| && links[i] == x;
      assert Sources(links)[i] == x.source;
    }
    forall s | s in Sources(links) ensures exists x | x in links :: x.source == s {
      var i :| 0 <= i < |links| && Sources(links)[i] == s;
      assert links[i] in links;
    }
  }

  lemma NoUnknownReferences(l: Links, m: Manifest, p: Path)
    ensures AppReferences(l, m, p) == [] <==> AppClosed(l, m)
  {
    NoUnknownSources(Sources(l.variables), TextNames(m.variables), p + [Field(Variables)], UnknownVariable);
    NoUnknownSources(Sources(l.secrets), SecretNames(m.secrets), p + [Field(Secrets)], UnknownSecret);
    NoUnknownSources(Sources(l.configs), TextNames(m.configs), p + [Field(Configs)], UnknownConfig);
    SourcesIn(l.variables, TextNames(m.variables));
    SourcesIn(l.secrets, SecretNames(m.secrets));
    SourcesIn(l.configs, TextNames(m.configs));
  }

  predicate ClosedUpTo(m: Manifest, n: nat)
    requires n <= |m.apps|
  {
    n == 0 || (ClosedUpTo(m, n - 1) && AppClosed(m.apps[n - 1].links, m))
  }

  lemma {:induction false} ReferencesExact(m: Manifest, n: nat)
    requires n <= |m.apps|
    ensures References(m, n) == [] <==> ClosedUpTo(m, n)
  {
    if n > 0 {
      ReferencesExact(m, n - 1);
      NoUnknownReferences(m.apps[n - 1].links, m, [Field(SpecField), Field(Apps), Index(n - 1)]);
    }
  }

  lemma {:induction false} ClosedUpToAll(m: Manifest, n: nat)
    requires n <= |m.apps|
    ensures ClosedUpTo(m, n) <==> forall a | a in m.apps[..n] :: AppClosed(a.links, m)
  {
    if n > 0 {
      ClosedUpToAll(m, n - 1);
      assert m.apps[..n] == m.apps[..n - 1] + [m.apps[n - 1]];
    }
  }

  lemma ClosedExactly(m: Manifest)
    ensures References(m, |m.apps|) == [] <==> Closed(m)
  {
    ReferencesExact(m, |m.apps|);
    ClosedUpToAll(m, |m.apps|);
    assert m.apps[..|m.apps|] == m.apps;
  }

  // ---- The whole manifest ----------------------------------------------------------------------------------

  lemma ListDuplicatesExact(m: Manifest)
    ensures ListDuplicates(m) == [] <==>
      Distinct(NamesOf(m.variables)) && Distinct(NamesOfSecrets(m.secrets)) && Distinct(NamesOf(m.configs)) &&
      Distinct(AppNames(m.apps))
  {
    NoDuplicates(NamesOf(m.variables), SpecPath(Variables));
    NoDuplicates(NamesOfSecrets(m.secrets), SpecPath(Secrets));
    NoDuplicates(NamesOf(m.configs), SpecPath(Configs));
    NoDuplicates(AppNames(m.apps), SpecPath(Apps));
  }

  predicate ValidLists(m: Manifest) {
    && (forall t | t in m.variables :: ValidVariable(t)) && Distinct(NamesOf(m.variables))
    && (forall t | t in m.secrets :: ValidSecret(t)) && Distinct(NamesOfSecrets(m.secrets))
    && (forall t | t in m.configs :: ValidConfig(t)) && Distinct(NamesOf(m.configs))
    && (forall a | a in m.apps :: ValidApp(a)) && Distinct(AppNames(m.apps))
    && Closed(m)
  }

  lemma ListsSound(fields: Fields, name: string, description: Option<string>, running: bool)
    requires ParseLists(fields, name, description, running).issues == []
    ensures ValidLists(ParseLists(fields, name, description, running).value)
  {
    hide ParseVariable, ParseSecret, ParseConfig, ParseApp, ValidVariable, ValidSecret, ValidConfig, ValidApp, Closed;
    VariableSound();
    SecretSound();
    ConfigSound();
    AppSound();
    ListSound(At(fields, Variables), SpecPath(Variables), ParseVariable, ValidVariable);
    ListSound(At(fields, Secrets), SpecPath(Secrets), ParseSecret, ValidSecret);
    ListSound(At(fields, Configs), SpecPath(Configs), ParseConfig, ValidConfig);
    ListSound(At(fields, Apps), SpecPath(Apps), ParseApp, ValidApp);
    var m := ParseLists(fields, name, description, running).value;
    ListDuplicatesExact(m);
    ClosedExactly(m);
  }

  lemma HeadSound(fields: Fields)
    requires ParseHead(fields).issues == []
    ensures ParseHead(fields).value.Some?
    ensures var (name, description) := ParseHead(fields).value.value;
      Within(name, 63) && ValidName(name) && OptionalWithin(description, 1000)
  {
  }

  lemma ObjectSound(order: seq<Key>, fields: Fields)
    ensures ParseObject(order, fields).value.Some? <==> ParseObject(order, fields).issues == []
    ensures ParseObject(order, fields).value.Some? ==> ValidManifest(ParseObject(order, fields).value.value)
  {
    hide ParseLists, ParseHead, ValidLists;
    if ParseObject(order, fields).issues == [] {
      HeadSound(fields);
      var (name, description) := ParseHead(fields).value.value;
      var spec := SpecOf(At(fields, SpecField)).value.value;
      var running := EnumValue(OrElse(At(spec.1, RuntimeState), Text("Stopped")), SpecPath(RuntimeState), RUNTIME_STATES);
      assert running.issues == [];
      ListsSound(spec.1, name, description, running.value == Some(true));
      ManifestParts(spec.1, name, description, running.value == Some(true));
    }
  }

  lemma ManifestParts(fields: Fields, name: string, description: Option<string>, running: bool)
    requires ValidLists(ParseLists(fields, name, description, running).value)
    requires Within(name, 63) && ValidName(name) && OptionalWithin(description, 1000)
    ensures ValidManifest(ParseLists(fields, name, description, running).value)
  {
  }

  /** A manifest is returned exactly if there is no issue, and then it is well-formed. */
  lemma ReturnedExactlyWithoutIssues(v: Value)
    ensures ParseManifest(v).value.Some? <==> ParseManifest(v).issues == []
    ensures ParseManifest(v).value.Some? ==> ValidManifest(ParseManifest(v).value.value)
  {
    hide ParseObject, ValidManifest;
    if v.Object? { ObjectSound(v.order, v.fields); }
  }

  lemma SpecRead(m: Manifest, path: Path)
    ensures var spec := Row([RuntimeState, Variables, Secrets, Configs, Apps], SpecFields(m));
      && spec.Object? && UnknownFields(spec.order, {RuntimeState, Variables, Secrets, Configs, Apps}, path) == []
      && At(spec.fields, RuntimeState) == WriteState(m.running)
      && At(spec.fields, Variables) == ListValue(m.variables, WriteVariable)
      && At(spec.fields, Secrets) == ListValue(m.secrets, WriteSecret)
      && At(spec.fields, Configs) == ListValue(m.configs, WriteConfig)
      && At(spec.fields, Apps) == ListValue(m.apps, WriteApp)
  {
    hide Row, Present, UnknownFields, ListValue, WriteVariable, WriteSecret, WriteConfig, WriteApp, WriteState;
    RowFields([RuntimeState, Variables, Secrets, Configs, Apps], SpecFields(m),
              {RuntimeState, Variables, Secrets, Configs, Apps}, path);
  }

  lemma ListsComplete(fields: Fields, m: Manifest)
    requires ValidLists(m)
    requires At(fields, Variables) == ListValue(m.variables, WriteVariable) && At(fields, Secrets) == ListValue(m.secrets, WriteSecret)
    requires At(fields, Configs) == ListValue(m.configs, WriteConfig) && At(fields, Apps) == ListValue(m.apps, WriteApp)
    ensures ParseLists(fields, m.name, m.description, m.running) == Read(m, [])
  {
    hide ParseVariable, ParseSecret, ParseConfig, ParseApp, ValidVariable, ValidSecret, ValidConfig, ValidApp, Closed;
    VariableComplete();
    SecretComplete();
    ConfigComplete();
    AppComplete();
    ListComplete(m.variables, SpecPath(Variables), ParseVariable, ValidVariable, WriteVariable);
    ListComplete(m.secrets, SpecPath(Secrets), ParseSecret, ValidSecret, WriteSecret);
    ListComplete(m.configs, SpecPath(Configs), ParseConfig, ValidConfig, WriteConfig);
    ListComplete(m.apps, SpecPath(Apps), ParseApp, ValidApp, WriteApp);
    ListDuplicatesExact(m);
    ClosedExactly(m);
  }

  predicate HasHead(fields: Fields, m: Manifest) {
    && At(fields, ApiVersion) == Text(API_VERSION) && At(fields, Kind) == Text(KIND)
    && At(fields, Metadata) == Row([Name, Description], map[Name := Text(m.name), Description := TextOf(m.description)])
  }

  lemma HeadComplete(fields: Fields, m: Manifest)
    requires HasHead(fields, m) && Within(m.name, 63) && ValidName(m.name) && OptionalWithin(m.description, 1000)
    ensures ParseHead(fields) == Read(Some((m.name, m.description)), [])
  {
    RowFields([Name, Description], map[Name := Text(m.name), Description := TextOf(m.description)], {Name, Description}, [Field(Metadata)]);
    hide Present, UnknownFields;
    OptionalRead(m.description, [Field(Metadata)] + [Field(Description)], 1000);
  }

  lemma ObjectComplete(order: seq<Key>, fields: Fields, m: Manifest)
    requires ValidManifest(m) && HasHead(fields, m)
    requires UnknownFields(order, {ApiVersion, Kind, Metadata, SpecField}, []) == []
    requires At(fields, SpecField) == Row([RuntimeState, Variables, Secrets, Configs, Apps], SpecFields(m))
    ensures ParseObject(order, fields) == Read(Some(m), [])
  {
    hide ParseLists, ParseHead, Row;
    HeadComplete(fields, m);
    SpecRead(m, [Field(SpecField)]);
    var spec := Row([RuntimeState, Variables, Secrets, Configs, Apps], SpecFields(m));
    StateRead(m.running, Text("Stopped"), SpecPath(RuntimeState));
    ListsComplete(spec.fields, m);
  }

  /** A well-formed manifest, written down and parsed, comes back without issues. */
  lemma ValidManifestParses(m: Manifest)
    requires ValidManifest(m)
    ensures ParseManifest(WriteManifest(m)) == Read(Some(m), [])
  {
    hide ParseObject, ValidManifest, Row, Present, UnknownFields, SpecFields;
    var full := map[ApiVersion := Text(API_VERSION), Kind := Text(KIND),
                    Metadata := Row([Name, Description], map[Name := Text(m.name), Description := TextOf(m.description)]),
                    SpecField := Row([RuntimeState, Variables, Secrets, Configs, Apps], SpecFields(m))];
    RowFields([ApiVersion, Kind, Metadata, SpecField], full, {ApiVersion, Kind, Metadata, SpecField}, []);
    ObjectComplete(WriteManifest(m).order, WriteManifest(m).fields, m);
  }

  /** Parsing is a fixpoint: a returned manifest, taken as raw input, parses to itself with no issue. */
  lemma ParsingIsAFixpoint(v: Value)
    requires ParseManifest(v).value.Some?
    ensures ParseManifest(WriteManifest(ParseManifest(v).value.value)) == ParseManifest(v)
  {
    ReturnedExactlyWithoutIssues(v);
    ValidManifestParses(ParseManifest(v).value.value);
  }

  // ---- Nothing is lost -------------------------------------------------------------------------------------------

  /** The item is an object with none but the allowed fields, and its texts are those of the entry. */
  predicate Carries(v: Value, allowed: set<Key>, name: Key, nameText: string, body: Key, bodyText: string) {
    v.Object? && (forall k | k in v.order :: k in allowed) && At(v.fields, name) == Text(nameText) && At(v.fields, body) == Text(bodyText)
  }

  lemma VariableCarried(v: Value, p: Path, t: NamedText)
    requires ParseVariable(v, p) == Read(Some(t), [])
    ensures Carries(v, {Name, Description, ValueField}, Name, t.name, ValueField, t.text)
  {
    NoUnknownFields(v.order, {Name, Description, ValueField}, p);
  }

  lemma SecretCarried(v: Value, p: Path, t: SecretText)
    requires ParseSecret(v, p) == Read(Some(t), [])
    ensures Carries(v, {Name, Description, TypeField, FileName, ValueField}, Name, t.name, ValueField, t.text)
  {
    NoUnknownFields(v.order, {Name, Description, TypeField, FileName, ValueField}, p);
  }

  lemma ConfigCarried(v: Value, p: Path, t: NamedText)
    requires ParseConfig(v, p) == Read(Some(t), [])
    ensures Carries(v, {Name, Description, ContentField}, Name, t.name, ContentField, t.text)
  {
    NoUnknownFields(v.order, {Name, Description, ContentField}, p);
  }

  /** The lists inside an app: one attachment or endpoint for each item. */
  ghost predicate AppCarries(v: Value, p: Path, a: AppSpec) {
    && Carries(v, APP_FIELDS, Name, a.basics.name, Image, a.basics.image)
    && Exact(Items(At(v.fields, Variables)), p + [Field(Variables)], ParseVariableLink, a.links.variables)
    && Exact(Items(At(v.fields, Secrets)), p + [Field(Secrets)], ParseSecretLink, a.links.secrets)
    && Exact(Items(At(v.fields, Configs)), p + [Field(Configs)], ParseConfigLink, a.links.configs)
    && Exact(Items(At(v.fields, Volumes)), p + [Field(Volumes)], ParseVolumeLink, a.links.volumes)
    && Exact(Items(At(v.fields, HttpEndpoints)), p + [Field(HttpEndpoints)], ParseEndpoint, a.links.endpoints)
    && (forall i :: 0 <= i < |a.links.endpoints| ==>
          DomainsCarried(Items(At(v.fields, HttpEndpoints))[i], p + [Field(HttpEndpoints)] + [Index(i)], a.links.endpoints[i]))
    && Exact(Items(At(v.fields, Command)), p + [Field(Command)], TextEntry, a.options.command)
    && EnvironmentCarried(At(v.fields, Environment), a.options.environment)
  }

  ghost predicate DomainsCarried(v: Value, p: Path, e: EndpointSpec) {
    v.Object? && Exact(Items(At(v.fields, Domains)), p + [Field(Domains)], TextEntry, e.domains)
  }

  /** Every entry is there in its place, but for the one that cannot be assigned; none is lost
      exactly if that one was not given. */
  predicate EnvironmentCarried(v: Value, e: (seq<Key>, map<Key, string>)) {
    if v.Undefined? then e == ([], map[]) else
      && v.Object? && e.0 == Kept(v.order) && e.1.Keys == (set k | k in e.0)
      && (forall k | k in e.1 :: At(v.fields, k) == Text(e.1[k]))
      && (e.0 == v.order <==> PROTO !in v.order)
  }

  lemma EnvironmentRead(v: Value, p: Path)
    requires StringMap(v, p).issues == []
    ensures EnvironmentCarried(v, StringMap(v, p).value)
  {
    if v.Object? {
      TextFieldsRead(v.order, v.fields, p);
      KeptExactly(v.order);
    }
  }

  lemma StringsSound(v: Value, p: Path)
    requires StringArray(v, p).issues == []
    ensures Exact(Items(v), p, TextEntry, StringArray(v, p).value)
  {
    ListSound(v, p, TextEntry, (s: string) => true);
  }

  lemma DomainsRead(v: Value, p: Path, e: EndpointSpec)
    requires ParseEndpoint(v, p) == Read(Some(e), [])
    ensures DomainsCarried(v, p, e)
  {
    hide StringArray, Exact;
    StringsSound(At(v.fields, Domains), p + [Field(Domains)]);
  }

  lemma AllDomainsRead(items: seq<Value>, p: Path, es: seq<EndpointSpec>)
    requires Exact(items, p, ParseEndpoint, es)
    ensures |items| == |es| && forall i :: 0 <= i < |es| ==> DomainsCarried(items[i], p + [Index(i)], es[i])
  {
    hide ParseEndpoint, DomainsCarried;
    forall i: nat | i < |es| ensures DomainsCarried(items[i], p + [Index(i)], es[i]) {
      DomainsRead(items[i], p + [Index(i)], es[i]);
    }
  }

  lemma OptionsCarried(fields: Fields, p: Path)
    requires ParseOptions(fields, p).issues == [] && ParseOptions(fields, p).value.Some?
    ensures var o := ParseOptions(fields, p).value.value;
      && Exact(Items(At(fields, Command)), p + [Field(Command)], TextEntry, o.command)
      && EnvironmentCarried(At(fields, Environment), o.environment)
  {
    hide StringArray, StringMap, Exact, EnvironmentCarried;
    StringsSound(At(fields, Command), p + [Field(Command)]);
    EnvironmentRead(At(fields, Environment), p + [Field(Environment)]);
  }

  lemma LinksCarried(fields: Fields, p: Path)
    requires ParseLinks(fields, p).issues == []
    ensures var l := ParseLinks(fields, p).value;
      && Exact(Items(At(fields, Variables)), p + [Field(Variables)], ParseVariableLink, l.variables)
      && Exact(Items(At(fields, Secrets)), p + [Field(Secrets)], ParseSecretLink, l.secrets)
      && Exact(Items(At(fields, Configs)), p + [Field(Configs)], ParseConfigLink, l.configs)
      && Exact(Items(At(fields, Volumes)), p + [Field(Volumes)], ParseVolumeLink, l.volumes)
      && Exact(Items(At(fields, HttpEndpoints)), p + [Field(HttpEndpoints)], ParseEndpoint, l.endpoints)
  {
    hide ParseVariableLink, ParseSecretLink, ParseConfigLink, ParseVolumeLink, ParseEndpoint;
    LinksSound();
    VolumeLinkSound();
    EndpointSound();
    ListSound(At(fields, Variables), p + [Field(Variables)], ParseVariableLink, ValidVariableLink);
    ListSound(At(fields, Secrets), p + [Field(Secrets)], ParseSecretLink, ValidSecretLink);
    ListSound(At(fields, Configs), p + [Field(Configs)], ParseConfigLink, ValidConfigLink);
    ListSound(At(fields, Volumes), p + [Field(Volumes)], ParseVolumeLink, ValidVolumeLink);
    ListSound(At(fields, HttpEndpoints), p + [Field(HttpEndpoints)], ParseEndpoint, ValidEndpoint);
  }

  lemma AppCarried(v: Value, p: Path, a: AppSpec)
    requires ParseApp(v, p) == Read(Some(a), [])
    ensures AppCarries(v, p, a)
  {
    hide ParseLinks, ParseNeeds, ParseOptions, ParseEndpoint, EnvironmentCarried, DomainsCarried, Exact, Items, UnknownFields;
    NoUnknownFields(v.order, APP_FIELDS, p);
    LinksCarried(v.fields, p);
    OptionsCarried(v.fields, p);
    AllDomainsRead(Items(At(v.fields, HttpEndpoints)), p + [Field(HttpEndpoints)], a.links.endpoints);
  }

  /** If there is no issue, every item of every list is in the manifest, in its place. */
  lemma NothingIsLost(order: seq<Key>, fields: Fields)
    requires ParseManifest(Object(order, fields)).issues == []
    ensures forall k | k in order :: k in {ApiVersion, Kind, Metadata, SpecField}
    ensures At(fields, SpecField).Undefined? || At(fields, SpecField).Object?
    ensures var r := ParseManifest(Object(order, fields));
      var spec := if At(fields, SpecField).Object? then At(fields, SpecField).fields else map[];
      r.value.Some? && ListedIn(spec, r.value.value)
  {
    hide ParseLists, ParseHead;
    ReturnedExactlyWithoutIssues(Object(order, fields));
    NoUnknownFields(order, {ApiVersion, Kind, Metadata, SpecField}, []);
    HeadSound(fields);
    var (name, description) := ParseHead(fields).value.value;
    var spec := SpecOf(At(fields, SpecField)).value.value.1;
    var running := EnumValue(OrElse(At(spec, RuntimeState), Text("Stopped")), SpecPath(RuntimeState), RUNTIME_STATES);
    ListsCarried(spec, name, description, running.value == Some(true));
  }

  ghost predicate ListedIn(spec: Fields, m: Manifest) {
    var (variables, secrets, configs, apps) :=
      (Items(At(spec, Variables)), Items(At(spec, Secrets)), Items(At(spec, Configs)), Items(At(spec, Apps)));
    && |m.variables| == |variables| && |m.secrets| == |secrets| && |m.configs| == |configs| && |m.apps| == |apps|
    && (forall i :: 0 <= i < |variables| ==>
          Carries(variables[i], {Name, Description, ValueField}, Name, m.variables[i].name, ValueField, m.variables[i].text))
    && (forall i :: 0 <= i < |secrets| ==>
          Carries(secrets[i], {Name, Description, TypeField, FileName, ValueField}, Name, m.secrets[i].name, ValueField, m.secrets[i].text))
    && (forall i :: 0 <= i < |configs| ==>
          Carries(configs[i], {Name, Description, ContentField}, Name, m.configs[i].name, ContentField, m.configs[i].text))
    && (forall i :: 0 <= i < |apps| ==> AppCarries(apps[i], SpecPath(Apps) + [Index(i)], m.apps[i]))
  }

  lemma ListsExact(spec: Fields, name: string, description: Option<string>, running: bool)
    requires ParseLists(spec, name, description, running).issues == []
    ensures var m := ParseLists(spec, name, description, running).value;
      && Exact(Items(At(spec, Variables)), SpecPath(Variables), ParseVariable, m.variables)
      && Exact(Items(At(spec, Secrets)), SpecPath(Secrets), ParseSecret, m.secrets)
      && Exact(Items(At(spec, Configs)), SpecPath(Configs), ParseConfig, m.configs)
      && Exact(Items(At(spec, Apps)), SpecPath(Apps), ParseApp, m.apps)
  {
    hide ParseVariable, ParseSecret, ParseConfig, ParseApp, Exact, Items, At, SpecPath;
    VariableSound();
    SecretSound();
    ConfigSound();
    AppSound();
    ListSound(At(spec, Variables), SpecPath(Variables), ParseVariable, ValidVariable);
    ListSound(At(spec, Secrets), SpecPath(Secrets), ParseSecret, ValidSecret);
    ListSound(At(spec, Configs), SpecPath(Configs), ParseConfig, ValidConfig);
    ListSound(At(spec, Apps), SpecPath(Apps), ParseApp, ValidApp);
  }

  lemma ListsCarried(spec: Fields, name: string, description: Option<string>, running: bool)
    requires ParseLists(spec, name, description, running).issues == []
    ensures ListedIn(spec, ParseLists(spec, name, description, running).value)
  {
    hide ParseLists, ParseVariable, ParseSecret, ParseConfig, ParseApp, AppCarries, Carries, Items, At, SpecPath;
    ListsExact(spec, name, description, running);
    var m := ParseLists(spec, name, description, running).value;
    var (variables, secrets, configs, apps) :=
      (Items(At(spec, Variables)), Items(At(spec, Secrets)), Items(At(spec, Configs)), Items(At(spec, Apps)));
    forall i: nat | i < |variables| { VariableCarried(variables[i], SpecPath(Variables) + [Index(i)], m.variables[i]); }
    forall i: nat | i < |secrets| { SecretCarried(secrets[i], SpecPath(Secrets) + [Index(i)], m.secrets[i]); }
    forall i: nat | i < |configs| { ConfigCarried(configs[i], SpecPath(Configs) + [Index(i)], m.configs[i]); }
    forall i: nat | i < |apps| { AppCarried(apps[i], SpecPath(Apps) + [Index(i)], m.apps[i]); }
  }
}
