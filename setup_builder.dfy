/** Choice of the setup-input builder family from the iRODS version installed
    on a container. The version discovery itself is external: the triple is an
    input here. */
module SetupBuilder {
  import opened Outcomes

  datatype Version = Version(major: int, minor: int, patch: int)

  /** The builder families: the 4.2.x builder and the 4.3.x builder. */
  datatype Family = Release42 | Release43

  datatype VersionError =
    | OnlyMajor4       // 'only 4.x is supported right now'
    | OnlyMinor2Or3    // 'only 4.2.x and 4.3.x are supported right now'

  /** `make_setup_builder`: the major version is checked first, then the
      minor; the patch number plays no part. */
  function MakeSetupBuilder(v: Version): (r: Result<Family, VersionError>)
    ensures r == Err(OnlyMajor4) <==> v.major != 4
    ensures r == Err(OnlyMinor2Or3) <==> v.major == 4 && (v.minor < 2 || v.minor > 3)
    ensures r == Ok(Release42) <==> v.major == 4 && v.minor == 2
    ensures r == Ok(Release43) <==> v.major == 4 && v.minor == 3
  {
    if v.major != 4 then Err(OnlyMajor4)
    else if v.minor < 2 || v.minor > 3 then Err(OnlyMinor2Or3)
    else if v.minor == 2 then Ok(Release42)
    else Ok(Release43)
  }

  /** The selection depends on major and minor alone. */
  lemma PatchIsIgnored(v: Version, patch: int)
    ensures MakeSetupBuilder(v.(patch := patch)) == MakeSetupBuilder(v)
  {
  }

  /** A version is accepted exactly when it is 4.2.* or 4.3.*. */
  lemma SupportedVersions(v: Version)
    ensures MakeSetupBuilder(v).Ok? <==> v.major == 4 && 2 <= v.minor <= 3
  {
  }
}
