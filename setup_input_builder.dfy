/** The version-independent part of the setup-input builder: the abstract
    operations every version family must supply, and `build`, which picks the
    renderer from the catalog service role the builder holds. */
module SetupInputBuilder {
  import opened Outcomes
  import opened Lines

  /** The roles `build` knows how to render for. */
  datatype Role = Provider | Consumer

  datatype BuilderError =
    | NotInstantiable        // 'setup_input_builder should not be instantiated directly'
    | UnsupportedRole(role: Value)   // 'unsupported catalog service role [...]'

  /** The key of the role table: `'provider'` and `'consumer'`; any other
      value (the empty default, another string, a number) has no entry. */
  function RoleOf(role: Value): (r: Option<Role>)
    ensures r == Some(Provider) <==> role == Str("provider")
    ensures r == Some(Consumer) <==> role == Str("consumer")
    ensures r.None? <==> role !in {Str("provider"), Str("consumer")}
  {
    if role == Str("provider") then Some(Provider)
    else if role == Str("consumer") then Some(Consumer)
    else None
  }

  /** `build`: the output of the renderer the role selects, or the
      unsupported-role error when the role table has no entry. The two
      arguments are what the builder's own two renderers produce. */
  function Build(role: Value, provider: Result<string, BuilderError>,
                 consumer: Result<string, BuilderError>): (r: Result<string, BuilderError>)
    ensures RoleOf(role) == Some(Provider) ==> r == provider
    ensures RoleOf(role) == Some(Consumer) ==> r == consumer
    ensures RoleOf(role).None? ==> r == Err(UnsupportedRole(role))
  {
    match RoleOf(role)
    case Some(Provider) => provider
    case Some(Consumer) => consumer
    case None => Err(UnsupportedRole(role))
  }

  /** The base class's `setup`: it cannot be used on the base builder. */
  function AbstractSetup(kwargs: map<string, Value>): (r: Result<(), BuilderError>)
    ensures r.Err?
  {
    Err(NotInstantiable)
  }

  /** The base class's consumer renderer. */
  function AbstractBuildInputForCatalogConsumer(): (r: Result<string, BuilderError>)
    ensures r.Err?
  {
    Err(NotInstantiable)
  }

  /** The base class's provider renderer. */
  function AbstractBuildInputForCatalogProvider(): (r: Result<string, BuilderError>)
    ensures r.Err?
  {
    Err(NotInstantiable)
  }

  /** On the base builder `build` never yields any input, whatever the role. */
  lemma AbstractBuilderBuildsNothing(role: Value)
    ensures Build(role, AbstractBuildInputForCatalogProvider(),
                  AbstractBuildInputForCatalogConsumer()).Err?
  {
  }
}
