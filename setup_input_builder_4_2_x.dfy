/** The setup-input builder for iRODS 4.2.x: documented defaults for every
    answer of the interactive setup script, an override step that accepts
    keyword arguments, and one renderer per catalog service role producing the
    newline-joined answer script. Answers are read positionally by the script,
    so the order of the lines and the literal confirmation lines are part of
    the contract. */
module SetupInputBuilder42 {
  import opened Outcomes
  import opened Lines
  import SetupInputBuilder

  /** The values the builder holds, one per answer of the setup script. */
  datatype Settings = Settings(
    serviceAccountName: Value,
    serviceAccountGroup: Value,
    catalogServiceRole: Value,
    odbcDriver: Value,
    databaseServerHostname: Value,
    databaseServerPort: Value,
    databaseName: Value,
    databaseUsername: Value,
    databasePassword: Value,
    storedPasswordsSalt: Value,
    zoneName: Value,
    zonePort: Value,
    parallelPortRangeBegin: Value,
    parallelPortRangeEnd: Value,
    controlPlanePort: Value,
    schemaValidationBaseUri: Value,
    adminUsername: Value,
    zoneKey: Value,
    negotiationKey: Value,
    controlPlaneKey: Value,
    adminPassword: Value,
    vaultDirectory: Value,
    catalogServiceProviderHost: Value)

  /** The fields of the builder, one per keyword that `setup` recognises. */
  datatype Key =
    | ServiceAccountName
    | ServiceAccountGroup
    | CatalogServiceRole
    | OdbcDriver
    | DatabaseServerHostname
    | DatabaseServerPort
    | DatabaseName
    | DatabaseUsername
    | DatabasePassword
    | StoredPasswordsSalt
    | ZoneName
    | ZonePort
    | ParallelPortRangeBegin
    | ParallelPortRangeEnd
    | ControlPlanePort
    | SchemaValidationBaseUri
    | AdminUsername
    | ZoneKey
    | NegotiationKey
    | ControlPlaneKey
    | AdminPassword
    | VaultDirectory
    | CatalogServiceProviderHost

  /** The keyword that names a field. */
  function KeyName(k: Key): string {
    match k
    case ServiceAccountName => "service_account_name"
    case ServiceAccountGroup => "service_account_group"
    case CatalogServiceRole => "catalog_service_role"
    case OdbcDriver => "odbc_driver"
    case DatabaseServerHostname => "database_server_hostname"
    case DatabaseServerPort => "database_server_port"
    case DatabaseName => "database_name"
    case DatabaseUsername => "database_username"
    case DatabasePassword => "database_password"
    case StoredPasswordsSalt => "stored_passwords_salt"
    case ZoneName => "zone_name"
    case ZonePort => "zone_port"
    case ParallelPortRangeBegin => "parallel_port_range_begin"
    case ParallelPortRangeEnd => "parallel_port_range_end"
    case ControlPlanePort => "control_plane_port"
    case SchemaValidationBaseUri => "schema_validation_base_uri"
    case AdminUsername => "admin_username"
    case ZoneKey => "zone_key"
    case NegotiationKey => "negotiation_key"
    case ControlPlaneKey => "control_plane_key"
    case AdminPassword => "admin_password"
    case VaultDirectory => "vault_directory"
    case CatalogServiceProviderHost => "catalog_service_provider_host"
  }

  /** The value a builder holding `s` has for field `k`. */
  function Field(s: Settings, k: Key): Value {
    match k
    case ServiceAccountName => s.serviceAccountName
    case ServiceAccountGroup => s.serviceAccountGroup
    case CatalogServiceRole => s.catalogServiceRole
    case OdbcDriver => s.odbcDriver
    case DatabaseServerHostname => s.databaseServerHostname
    case DatabaseServerPort => s.databaseServerPort
    case DatabaseName => s.databaseName
    case DatabaseUsername => s.databaseUsername
    case DatabasePassword => s.databasePassword
    case StoredPasswordsSalt => s.storedPasswordsSalt
    case ZoneName => s.zoneName
    case ZonePort => s.zonePort
    case ParallelPortRangeBegin => s.parallelPortRangeBegin
    case ParallelPortRangeEnd => s.parallelPortRangeEnd
    case ControlPlanePort => s.controlPlanePort
    case SchemaValidationBaseUri => s.schemaValidationBaseUri
    case AdminUsername => s.adminUsername
    case ZoneKey => s.zoneKey
    case NegotiationKey => s.negotiationKey
    case ControlPlaneKey => s.controlPlaneKey
    case AdminPassword => s.adminPassword
    case VaultDirectory => s.vaultDirectory
    case CatalogServiceProviderHost => s.catalogServiceProviderHost
  }

  /** The values a fresh builder holds. */
  const Defaults: Settings := Settings(
    serviceAccountName := Str(""),
    serviceAccountGroup := Str(""),
    catalogServiceRole := Str(""),
    odbcDriver := Str(""),
    databaseServerHostname := Str("localhost"),
    databaseServerPort := Int(5432),
    databaseName := Str("ICAT"),
    databaseUsername := Str("irods"),
    databasePassword := Str("testpassword"),
    storedPasswordsSalt := Str(""),
    zoneName := Str("tempZone"),
    zonePort := Int(1247),
    parallelPortRangeBegin := Int(20000),
    parallelPortRangeEnd := Int(20199),
    controlPlanePort := Int(1248),
    schemaValidationBaseUri := Str(""),
    adminUsername := Str("rods"),
    zoneKey := Str("TEMPORARY_ZONE_KEY"),
    negotiationKey := Str("32_byte_server_negotiation_key__"),
    controlPlaneKey := Str("32_byte_server_control_plane_key"),
    adminPassword := Str("rods"),
    vaultDirectory := Str(""),
    catalogServiceProviderHost := Str("localhost"))

  /** `kwargs.get(key, current)`. A keyword is identified by the field it
      names (`KeyName` spells it); a keyword that names no field is ignored
      by `setup`, so the model does not represent it. */
  function Pick(kwargs: map<Key, Value>, key: Key, current: Value): Value {
    if key in kwargs then kwargs[key] else current
  }

  /** The effect of `setup(**kwargs)` on the values: a field whose keyword is
      supplied takes the supplied value and every other field keeps its value. */
  function Merge(s: Settings, kwargs: map<Key, Value>): (r: Settings)
    ensures forall k: Key :: Field(r, k) == Pick(kwargs, k, Field(s, k))
  {
    Settings(
      serviceAccountName := Pick(kwargs, ServiceAccountName, s.serviceAccountName),
      serviceAccountGroup := Pick(kwargs, ServiceAccountGroup, s.serviceAccountGroup),
      catalogServiceRole := Pick(kwargs, CatalogServiceRole, s.catalogServiceRole),
      odbcDriver := Pick(kwargs, OdbcDriver, s.odbcDriver),
      databaseServerHostname := Pick(kwargs, DatabaseServerHostname, s.databaseServerHostname),
      databaseServerPort := Pick(kwargs, DatabaseServerPort, s.databaseServerPort),
      databaseName := Pick(kwargs, DatabaseName, s.databaseName),
      databaseUsername := Pick(kwargs, DatabaseUsername, s.databaseUsername),
      databasePassword := Pick(kwargs, DatabasePassword, s.databasePassword),
      storedPasswordsSalt := Pick(kwargs, StoredPasswordsSalt, s.storedPasswordsSalt),
      zoneName := Pick(kwargs, ZoneName, s.zoneName),
      zonePort := Pick(kwargs, ZonePort, s.zonePort),
      parallelPortRangeBegin := Pick(kwargs, ParallelPortRangeBegin, s.parallelPortRangeBegin),
      parallelPortRangeEnd := Pick(kwargs, ParallelPortRangeEnd, s.parallelPortRangeEnd),
      controlPlanePort := Pick(kwargs, ControlPlanePort, s.controlPlanePort),
      schemaValidationBaseUri := Pick(kwargs, SchemaValidationBaseUri, s.schemaValidationBaseUri),
      adminUsername := Pick(kwargs, AdminUsername, s.adminUsername),
      zoneKey := Pick(kwargs, ZoneKey, s.zoneKey),
      negotiationKey := Pick(kwargs, NegotiationKey, s.negotiationKey),
      controlPlaneKey := Pick(kwargs, ControlPlaneKey, s.controlPlaneKey),
      adminPassword := Pick(kwargs, AdminPassword, s.adminPassword),
      vaultDirectory := Pick(kwargs, VaultDirectory, s.vaultDirectory),
      catalogServiceProviderHost := Pick(kwargs, CatalogServiceProviderHost, s.catalogServiceProviderHost))
  }

  /** Supplying no keyword changes nothing. */
  lemma MergeNothing(s: Settings)
    ensures Merge(s, map[]) == s
  {
  }

  /** Two successive `setup` calls amount to one call with both sets of
      keywords, the later call winning where both name a field. */
  lemma MergeTwice(s: Settings, a: map<Key, Value>, b: map<Key, Value>)
    ensures Merge(Merge(s, a), b) == Merge(s, a + b)
  {
  }

  /** Repeating the same `setup` call has no further effect. */
  lemma MergeIdempotent(s: Settings, kwargs: map<Key, Value>)
    ensures Merge(Merge(s, kwargs), kwargs) == Merge(s, kwargs)
  {
  }

  /** One answer of the setup script: `str()` of one of the builder's
      fields, or a fixed text (the role choice and the confirmations). */
  datatype Answer = FieldAnswer(key: Key) | Fixed(text: string)

  /** The answers for a catalog service consumer, in the order the setup
      script asks: the service account, role choice 2, the zone section with
      the provider's hostname and a confirmation, the keys and the admin
      password with a confirmation, the vault and a final confirmation. */
  const ConsumerScript: seq<Answer> := [
    FieldAnswer(ServiceAccountName), FieldAnswer(ServiceAccountGroup), Fixed(IntToString(2)),
    FieldAnswer(ZoneName), FieldAnswer(CatalogServiceProviderHost), FieldAnswer(ZonePort),
    FieldAnswer(ParallelPortRangeBegin), FieldAnswer(ParallelPortRangeEnd),
    FieldAnswer(ControlPlanePort), FieldAnswer(SchemaValidationBaseUri),
    FieldAnswer(AdminUsername), Fixed("y"),
    FieldAnswer(ZoneKey), FieldAnswer(NegotiationKey), FieldAnswer(ControlPlaneKey),
    FieldAnswer(AdminPassword), Fixed(""),
    FieldAnswer(VaultDirectory), Fixed("")]

  /** The answers for a catalog service provider: the service account, the
      empty (default) role choice, the database section with a confirmation
      after the database user, the zone section with a confirmation, the keys
      with a confirmation, the vault and a final confirmation. */
  const ProviderScript: seq<Answer> := [
    FieldAnswer(ServiceAccountName), FieldAnswer(ServiceAccountGroup), Fixed(""),
    FieldAnswer(OdbcDriver), FieldAnswer(DatabaseServerHostname), FieldAnswer(DatabaseServerPort),
    FieldAnswer(DatabaseName), FieldAnswer(DatabaseUsername), Fixed("y"),
    FieldAnswer(DatabasePassword), FieldAnswer(StoredPasswordsSalt),
    FieldAnswer(ZoneName), FieldAnswer(ZonePort), FieldAnswer(ParallelPortRangeBegin),
    FieldAnswer(ParallelPortRangeEnd), FieldAnswer(ControlPlanePort),
    FieldAnswer(SchemaValidationBaseUri), FieldAnswer(AdminUsername), Fixed("y"),
    FieldAnswer(ZoneKey), FieldAnswer(NegotiationKey), FieldAnswer(ControlPlaneKey),
    FieldAnswer(AdminPassword), Fixed(""),
    FieldAnswer(VaultDirectory), Fixed("")]

  /** The fields that only the provider's database section asks for. */
  const DatabaseKeys: set<Key> := {OdbcDriver, DatabaseServerHostname, DatabaseServerPort,
    DatabaseName, DatabaseUsername, DatabasePassword, StoredPasswordsSalt}

  function AnswerText(s: Settings, a: Answer): string {
    match a
    case FieldAnswer(k) => ToStr(Field(s, k))
    case Fixed(text) => text
  }

  /** The lines answering `script` for a builder holding `s`, one per answer. */
  function Answers(s: Settings, script: seq<Answer>): (lines: seq<string>)
  {
    seq(|script|, i requires 0 <= i < |script| => AnswerText(s, script[i]))
  }

  lemma AnswersAt(s: Settings, script: seq<Answer>, i: int)
    requires 0 <= i < |script|
    ensures |Answers(s, script)| == |script|
    ensures Answers(s, script)[i] == AnswerText(s, script[i])
  {
  }

  /** The answers depend only on the fields the script asks for. */
  lemma AnswersAgree(s1: Settings, s2: Settings, script: seq<Answer>)
    requires forall i :: 0 <= i < |script| && script[i].FieldAnswer? ==>
      Field(s1, script[i].key) == Field(s2, script[i].key)
    ensures Answers(s1, script) == Answers(s2, script)
  {
  }

  /** `build_input_for_catalog_consumer`'s list of answers. */
  function ConsumerLines(s: Settings): (lines: seq<string>)
    ensures |lines| == 19
  {
    Answers(s, ConsumerScript)
  }

  /** `build_input_for_catalog_provider`'s list of answers. */
  function ProviderLines(s: Settings): (lines: seq<string>)
    ensures |lines| == 26
  {
    Answers(s, ProviderScript)
  }

  lemma ConsumerLines1To3(s: Settings)
    ensures ConsumerLines(s)[0] == ToStr(s.serviceAccountName)
    ensures ConsumerLines(s)[1] == ToStr(s.serviceAccountGroup)
    ensures ConsumerLines(s)[2] == "2"
  {
    assert IntToString(2) == "2";
    AnswersAt(s, ConsumerScript, 0);
    AnswersAt(s, ConsumerScript, 1);
    AnswersAt(s, ConsumerScript, 2);
  }

  lemma ConsumerLines4To7(s: Settings)
    ensures ConsumerLines(s)[3] == ToStr(s.zoneName)
    ensures ConsumerLines(s)[4] == ToStr(s.catalogServiceProviderHost)
    ensures ConsumerLines(s)[5] == ToStr(s.zonePort)
    ensures ConsumerLines(s)[6] == ToStr(s.parallelPortRangeBegin)
  {
    AnswersAt(s, ConsumerScript, 3);
    AnswersAt(s, ConsumerScript, 4);
    AnswersAt(s, ConsumerScript, 5);
    AnswersAt(s, ConsumerScript, 6);
  }

  lemma ConsumerLines8To11(s: Settings)
    ensures ConsumerLines(s)[7] == ToStr(s.parallelPortRangeEnd)
    ensures ConsumerLines(s)[8] == ToStr(s.controlPlanePort)
    ensures ConsumerLines(s)[9] == ToStr(s.schemaValidationBaseUri)
    ensures ConsumerLines(s)[10] == ToStr(s.adminUsername)
  {
    AnswersAt(s, ConsumerScript, 7);
    AnswersAt(s, ConsumerScript, 8);
    AnswersAt(s, ConsumerScript, 9);
    AnswersAt(s, ConsumerScript, 10);
  }

  lemma ConsumerLines12To15(s: Settings)
    ensures ConsumerLines(s)[11] == "y"
    ensures ConsumerLines(s)[12] == ToStr(s.zoneKey)
    ensures ConsumerLines(s)[13] == ToStr(s.negotiationKey)
    ensures ConsumerLines(s)[14] == ToStr(s.controlPlaneKey)
  {
    AnswersAt(s, ConsumerScript, 11);
    AnswersAt(s, ConsumerScript, 12);
    AnswersAt(s, ConsumerScript, 13);
    AnswersAt(s, ConsumerScript, 14);
  }

  lemma ConsumerLines16To19(s: Settings)
    ensures ConsumerLines(s)[15] == ToStr(s.adminPassword)
    ensures ConsumerLines(s)[16] == ""
    ensures ConsumerLines(s)[17] == ToStr(s.vaultDirectory)
    ensures ConsumerLines(s)[18] == ""
  {
    AnswersAt(s, ConsumerScript, 15);
    AnswersAt(s, ConsumerScript, 16);
    AnswersAt(s, ConsumerScript, 17);
    AnswersAt(s, ConsumerScript, 18);
  }

  /** The consumer render is exactly these 19 answers, in this order. */
  lemma ConsumerLinesInOrder(s: Settings)
    ensures var lines := ConsumerLines(s);
      && |lines| == 19
      && lines[0] == ToStr(s.serviceAccountName)
      && lines[1] == ToStr(s.serviceAccountGroup)
      && lines[2] == "2"
      && lines[3] == ToStr(s.zoneName)
      && lines[4] == ToStr(s.catalogServiceProviderHost)
      && lines[5] == ToStr(s.zonePort)
      && lines[6] == ToStr(s.parallelPortRangeBegin)
      && lines[7] == ToStr(s.parallelPortRangeEnd)
      && lines[8] == ToStr(s.controlPlanePort)
      && lines[9] == ToStr(s.schemaValidationBaseUri)
      && lines[10] == ToStr(s.adminUsername)
      && lines[11] == "y"
      && lines[12] == ToStr(s.zoneKey)
      && lines[13] == ToStr(s.negotiationKey)
      && lines[14] == ToStr(s.controlPlaneKey)
      && lines[15] == ToStr(s.adminPassword)
      && lines[16] == ""
      && lines[17] == ToStr(s.vaultDirectory)
      && lines[18] == ""
  {
    ConsumerLines1To3(s);
    ConsumerLines4To7(s);
    ConsumerLines8To11(s);
    ConsumerLines12To15(s);
    ConsumerLines16To19(s);
  }

  lemma ProviderLines1To4(s: Settings)
    ensures ProviderLines(s)[0] == ToStr(s.serviceAccountName)
    ensures ProviderLines(s)[1] == ToStr(s.serviceAccountGroup)
    ensures ProviderLines(s)[2] == ""
    ensures ProviderLines(s)[3] == ToStr(s.odbcDriver)
  {
    AnswersAt(s, ProviderScript, 0);
    AnswersAt(s, ProviderScript, 1);
    AnswersAt(s, ProviderScript, 2);
    AnswersAt(s, ProviderScript, 3);
  }

  lemma ProviderLines5To8(s: Settings)
    ensures ProviderLines(s)[4] == ToStr(s.databaseServerHostname)
    ensures ProviderLines(s)[5] == ToStr(s.databaseServerPort)
    ensures ProviderLines(s)[6] == ToStr(s.databaseName)
    ensures ProviderLines(s)[7] == ToStr(s.databaseUsername)
  {
    AnswersAt(s, ProviderScript, 4);
    AnswersAt(s, ProviderScript, 5);
    AnswersAt(s, ProviderScript, 6);
    AnswersAt(s, ProviderScript, 7);
  }

  lemma ProviderLines9To12(s: Settings)
    ensures ProviderLines(s)[8] == "y"
    ensures ProviderLines(s)[9] == ToStr(s.databasePassword)
    ensures ProviderLines(s)[10] == ToStr(s.storedPasswordsSalt)
    ensures ProviderLines(s)[11] == ToStr(s.zoneName)
  {
    AnswersAt(s, ProviderScript, 8);
    AnswersAt(s, ProviderScript, 9);
    AnswersAt(s, ProviderScript, 10);
    AnswersAt(s, ProviderScript, 11);
  }

  lemma ProviderLines13To16(s: Settings)
    ensures ProviderLines(s)[12] == ToStr(s.zonePort)
    ensures ProviderLines(s)[13] == ToStr(s.parallelPortRangeBegin)
    ensures ProviderLines(s)[14] == ToStr(s.parallelPortRangeEnd)
    ensures ProviderLines(s)[15] == ToStr(s.controlPlanePort)
  {
    AnswersAt(s, ProviderScript, 12);
    AnswersAt(s, ProviderScript, 13);
    AnswersAt(s, ProviderScript, 14);
    AnswersAt(s, ProviderScript, 15);
  }

  lemma ProviderLines17To20(s: Settings)
    ensures ProviderLines(s)[16] == ToStr(s.schemaValidationBaseUri)
    ensures ProviderLines(s)[17] == ToStr(s.adminUsername)
    ensures ProviderLines(s)[18] == "y"
    ensures ProviderLines(s)[19] == ToStr(s.zoneKey)
  {
    AnswersAt(s, ProviderScript, 16);
    AnswersAt(s, ProviderScript, 17);
    AnswersAt(s, ProviderScript, 18);
    AnswersAt(s, ProviderScript, 19);
  }

  lemma ProviderLines21To23(s: Settings)
    ensures ProviderLines(s)[20] == ToStr(s.negotiationKey)
    ensures ProviderLines(s)[21] == ToStr(s.controlPlaneKey)
    ensures ProviderLines(s)[22] == ToStr(s.adminPassword)
  {
    AnswersAt(s, ProviderScript, 20);
    AnswersAt(s, ProviderScript, 21);
    AnswersAt(s, ProviderScript, 22);
  }

  lemma ProviderLines24To26(s: Settings)
    ensures ProviderLines(s)[23] == ""
    ensures ProviderLines(s)[24] == ToStr(s.vaultDirectory)
    ensures ProviderLines(s)[25] == ""
  {
    AnswersAt(s, ProviderScript, 23);
    AnswersAt(s, ProviderScript, 24);
    AnswersAt(s, ProviderScript, 25);
  }

  /** The provider render is exactly these 26 answers, in this order. */
  lemma ProviderLinesInOrder(s: Settings)
    ensures var lines := ProviderLines(s);
      && |lines| == 26
      && lines[0] == ToStr(s.serviceAccountName)
      && lines[1] == ToStr(s.serviceAccountGroup)
      && lines[2] == ""
      && lines[3] == ToStr(s.odbcDriver)
      && lines[4] == ToStr(s.databaseServerHostname)
      && lines[5] == ToStr(s.databaseServerPort)
      && lines[6] == ToStr(s.databaseName)
      && lines[7] == ToStr(s.databaseUsername)
      && lines[8] == "y"
      && lines[9] == ToStr(s.databasePassword)
      && lines[10] == ToStr(s.storedPasswordsSalt)
      && lines[11] == ToStr(s.zoneName)
      && lines[12] == ToStr(s.zonePort)
      && lines[13] == ToStr(s.parallelPortRangeBegin)
      && lines[14] == ToStr(s.parallelPortRangeEnd)
      && lines[15] == ToStr(s.controlPlanePort)
      && lines[16] == ToStr(s.schemaValidationBaseUri)
      && lines[17] == ToStr(s.adminUsername)
      && lines[18] == "y"
      && lines[19] == ToStr(s.zoneKey)
      && lines[20] == ToStr(s.negotiationKey)
      && lines[21] == ToStr(s.controlPlaneKey)
      && lines[22] == ToStr(s.adminPassword)
      && lines[23] == ""
      && lines[24] == ToStr(s.vaultDirectory)
      && lines[25] == ""
  {
    ProviderLines1To4(s);
    ProviderLines5To8(s);
    ProviderLines9To12(s);
    ProviderLines13To16(s);
    ProviderLines17To20(s);
    ProviderLines21To23(s);
    ProviderLines24To26(s);
  }

  /** The consumer script has 19 answers: line 3 is role choice "2", line 12
      confirms the zone section, lines 17 and 19 are empty confirmations, and
      lines 4 and 5 carry the zone name and the provider's hostname. */
  lemma ConsumerScriptShape(s: Settings)
    ensures var lines := ConsumerLines(s);
      && |lines| == 19
      && lines[2] == "2" && lines[11] == "y" && lines[16] == "" && lines[18] == ""
      && lines[3] == ToStr(s.zoneName) && lines[4] == ToStr(s.catalogServiceProviderHost)
  {
    ConsumerLinesInOrder(s);
  }

  /** The provider script has 26 answers: the role line 3 is empty, lines 9
      and 19 are "y" (after the database user and after the admin user), lines
      24 and 26 are empty confirmations, and line 5 carries the database
      server's hostname. */
  lemma ProviderScriptShape(s: Settings)
    ensures var lines := ProviderLines(s);
      && |lines| == 26
      && lines[2] == "" && lines[8] == "y" && lines[18] == "y" && lines[23] == "" && lines[25] == ""
      && lines[4] == ToStr(s.databaseServerHostname)
  {
    ProviderLinesInOrder(s);
  }

  /** `build_input_for_catalog_consumer`. */
  function BuildInputForCatalogConsumer(s: Settings): string {
    Join(ConsumerLines(s))
  }

  /** `build_input_for_catalog_provider`. */
  function BuildInputForCatalogProvider(s: Settings): string {
    Join(ProviderLines(s))
  }

  /** `build` on a 4.2.x builder holding `s`. */
  function Build(s: Settings): Result<string, SetupInputBuilder.BuilderError> {
    SetupInputBuilder.Build(s.catalogServiceRole,
      Ok(BuildInputForCatalogProvider(s)), Ok(BuildInputForCatalogConsumer(s)))
  }

  /** No value the builder holds contains a newline (numbers never do). */
  predicate NoNewlines(s: Settings) {
    forall k: Key :: NoNewline(ToStr(Field(s, k)))
  }

  /** None of the fixed answers of a script contains a newline. */
  predicate FixedAnswersOnOneLine(script: seq<Answer>) {
    forall i :: 0 <= i < |script| && script[i].Fixed? ==> NoNewline(script[i].text)
  }

  lemma ScriptLinesOnOneLine(s: Settings, script: seq<Answer>)
    requires NoNewlines(s) && FixedAnswersOnOneLine(script)
    ensures forall i :: 0 <= i < |script| ==> NoNewline(Answers(s, script)[i])
  {
    forall i | 0 <= i < |script|
      ensures NoNewline(Answers(s, script)[i])
    {
      AnswersAt(s, script, i);
    }
  }

  /** The consumer script read back line by line is exactly the answer list. */
  lemma ConsumerInputSplits(s: Settings)
    requires NoNewlines(s)
    ensures Split(BuildInputForCatalogConsumer(s)) == ConsumerLines(s)
  {
    assert FixedAnswersOnOneLine(ConsumerScript);
    ScriptLinesOnOneLine(s, ConsumerScript);
    SplitJoin(ConsumerLines(s));
  }

  /** The provider script read back line by line is exactly the answer list. */
  lemma ProviderInputSplits(s: Settings)
    requires NoNewlines(s)
    ensures Split(BuildInputForCatalogProvider(s)) == ProviderLines(s)
  {
    assert FixedAnswersOnOneLine(ProviderScript);
    ScriptLinesOnOneLine(s, ProviderScript);
    SplitJoin(ProviderLines(s));
  }

  /** A builder set up as a consumer builds the consumer script, and the
      script reads back as the consumer answers. */
  lemma ConsumerBuildReadsBack(s: Settings)
    requires NoNewlines(s)
    requires s.catalogServiceRole == Str("consumer")
    ensures Build(s) == Ok(BuildInputForCatalogConsumer(s))
    ensures Split(Build(s).value) == ConsumerLines(s)
  {
    ConsumerInputSplits(s);
  }

  /** `build` on a 4.2.x builder yields input exactly for the two known roles,
      the provider text for `'provider'` and the consumer text for
      `'consumer'`; any other role is the unsupported-role error. */
  lemma BuildRoles(s: Settings)
    ensures Build(s).Ok? <==> s.catalogServiceRole in {Str("provider"), Str("consumer")}
    ensures s.catalogServiceRole == Str("provider") ==> Build(s) == Ok(BuildInputForCatalogProvider(s))
    ensures s.catalogServiceRole == Str("consumer") ==> Build(s) == Ok(BuildInputForCatalogConsumer(s))
    ensures Build(s).Err? ==> Build(s) == Err(SetupInputBuilder.UnsupportedRole(s.catalogServiceRole))
  {
  }

  /** The script `build` yields answers the role prompt according to the
      role: 19 answers with choice "2" for a consumer, 26 answers with the
      empty (default) choice for a provider. */
  lemma BuildAnswersRolePrompt(s: Settings)
    requires NoNewlines(s)
    ensures s.catalogServiceRole == Str("consumer") ==>
      Build(s).Ok? && |Split(Build(s).value)| == 19 && Split(Build(s).value)[2] == "2"
    ensures s.catalogServiceRole == Str("provider") ==>
      Build(s).Ok? && |Split(Build(s).value)| == 26 && Split(Build(s).value)[2] == ""
  {
    ConsumerInputSplits(s);
    ProviderInputSplits(s);
    ConsumerScriptShape(s);
    ProviderScriptShape(s);
  }

  /** The consumer script asks for no database field. */
  lemma ConsumerScriptSkipsDatabase()
    ensures forall i :: 0 <= i < |ConsumerScript| && ConsumerScript[i].FieldAnswer? ==>
      ConsumerScript[i].key !in DatabaseKeys
  {
  }

  /** The consumer script has no database answers: changing any database
      field leaves it unchanged. */
  lemma ConsumerIgnoresDatabase(s: Settings, driver: Value, host: Value, port: Value,
                                name: Value, user: Value, password: Value, salt: Value)
    ensures ConsumerLines(s.(odbcDriver := driver, databaseServerHostname := host,
                             databaseServerPort := port, databaseName := name,
                             databaseUsername := user, databasePassword := password,
                             storedPasswordsSalt := salt)) == ConsumerLines(s)
  {
    ConsumerScriptSkipsDatabase();
    AnswersAgree(s.(odbcDriver := driver, databaseServerHostname := host,
                    databaseServerPort := port, databaseName := name,
                    databaseUsername := user, databasePassword := password,
                    storedPasswordsSalt := salt), s, ConsumerScript);
  }

  /** The provider script has no answer for the provider hostname. */
  lemma ProviderIgnoresProviderHost(s: Settings, host: Value)
    ensures ProviderLines(s.(catalogServiceProviderHost := host)) == ProviderLines(s)
  {
    assert forall i :: 0 <= i < |ProviderScript| ==> ProviderScript[i] != FieldAnswer(CatalogServiceProviderHost);
    AnswersAgree(s.(catalogServiceProviderHost := host), s, ProviderScript);
  }

  /** One step of the decimal rendering, with the division done. */
  lemma DecimalStep(n: nat, q: nat, d: nat)
    requires n == 10 * q + d && d < 10 && q >= 1
    ensures NatToString(n) == NatToString(q) + [DigitChar(d)]
  {
    assert n / 10 == q && n % 10 == d;
  }

  lemma Decimal1247()
    ensures NatToString(1247) == "1247" && NatToString(1248) == "1248"
  {
    DecimalStep(12, 1, 2);
    DecimalStep(124, 12, 4);
    DecimalStep(1247, 124, 7);
    DecimalStep(1248, 124, 8);
  }

  lemma Decimal5432()
    ensures NatToString(5432) == "5432"
  {
    DecimalStep(54, 5, 4);
    DecimalStep(543, 54, 3);
    DecimalStep(5432, 543, 2);
  }

  lemma Decimal20000()
    ensures NatToString(20000) == "20000"
  {
    DecimalStep(20, 2, 0);
    DecimalStep(200, 20, 0);
    DecimalStep(2000, 200, 0);
    DecimalStep(20000, 2000, 0);
  }

  lemma Decimal20199()
    ensures NatToString(20199) == "20199"
  {
    DecimalStep(20, 2, 0);
    DecimalStep(201, 20, 1);
    DecimalStep(2019, 201, 9);
    DecimalStep(20199, 2019, 9);
  }

  /** `str()` of the numbers among the defaults. */
  lemma DefaultNumbers()
    ensures IntToString(2) == "2"
    ensures IntToString(1247) == "1247" && IntToString(1248) == "1248"
    ensures IntToString(5432) == "5432"
    ensures IntToString(20000) == "20000" && IntToString(20199) == "20199"
  {
    Decimal1247();
    Decimal5432();
    Decimal20000();
    Decimal20199();
  }

  /** With the documented defaults, the consumer's zone section answers
      `tempZone` at `localhost` with ports 1247, 20000-20199 and 1248. */
  lemma DefaultConsumerZoneSection()
    ensures var lines := ConsumerLines(Defaults);
      && lines[3] == "tempZone" && lines[4] == "localhost" && lines[5] == "1247"
      && lines[6] == "20000" && lines[7] == "20199" && lines[8] == "1248"
  {
    ConsumerLinesInOrder(Defaults);
    DefaultNumbers();
  }

  /** With the documented defaults, the provider's database section answers
      the `ICAT` database on `localhost:5432` for user `irods`. */
  lemma DefaultProviderDatabaseSection()
    ensures var lines := ProviderLines(Defaults);
      && lines[4] == "localhost" && lines[5] == "5432" && lines[6] == "ICAT"
      && lines[7] == "irods" && lines[9] == "testpassword"
  {
    ProviderLinesInOrder(Defaults);
    DefaultNumbers();
  }

  datatype NameError = NameError(name: string)

  /** `setup` as the source has it: `kwargs.get(service_account_name, ...)`
      looks up a bare name that is not defined, so the first statement raises
      and no field is ever assigned. */
  function SetupAsWritten(s: Settings, kwargs: map<Key, Value>): (r: Result<Settings, NameError>)
    ensures r == Err(NameError("service_account_name"))
  {
    Err(NameError(KeyName(ServiceAccountName)))
  }

  /** The discrepancy: a caller asking for another zone name gets an error from
      the code as written, while the intended merge applies the name. */
  lemma SetupAsWrittenDropsOverrides()
    ensures SetupAsWritten(Defaults, map[ZoneName := Str("otherZone")]).Err?
    ensures Merge(Defaults, map[ZoneName := Str("otherZone")]).zoneName == Str("otherZone")
  {
  }

  /** The 4.2.x builder object. Its constructor and `setup` assign its
      fields in place; the fields are kept together as one `Settings` value. */
  class Builder {
    var settings: Settings

    /** A fresh builder holds the documented defaults. */
    constructor ()
      ensures settings == Defaults
      ensures settings.zoneName == Str("tempZone") && settings.zonePort == Int(1247)
      ensures settings.databaseServerPort == Int(5432) && settings.adminUsername == Str("rods")
      ensures settings.catalogServiceProviderHost == Str("localhost")
      ensures settings.catalogServiceRole == Str("")
    {
      settings := Defaults;
    }

    /** `setup(**kwargs)`: each field whose keyword is supplied takes the
        supplied value, the others keep theirs, and the same builder is
        returned so that calls chain. */
    method Setup(kwargs: map<Key, Value>) returns (self: Builder)
      modifies this
      ensures self == this
      ensures settings == Merge(old(settings), kwargs)
      ensures forall k: Key :: Field(settings, k) == Pick(kwargs, k, Field(old(settings), k))
    {
      settings := Merge(settings, kwargs);
      self := this;
    }

    /** `build` on this builder: it only reads the fields, so it changes
        nothing and two calls in a row give the same text. */
    function BuildInput(): Result<string, SetupInputBuilder.BuilderError>
      reads this
    {
      Build(settings)
    }
  }
}
