/** The service ids, parent definitions and tag names the extension writes, and the
    rule that names the argument alias of a filesystem. */
module Ids {

  /** The two kinds of service built by a factory registry. */
  datatype ServiceKind = AdapterKind | CacheKind

  const Prefix: string := "oneup_flysystem."

  /** `oneup_flysystem.<name>_adapter` and `oneup_flysystem.<name>_cache`. */
  function ServiceId(kind: ServiceKind, name: string): string {
    match kind
    case AdapterKind => Prefix + name + "_adapter"
    case CacheKind => Prefix + name + "_cache"
  }

  /** `oneup_flysystem.<name>_filesystem`. */
  function FilesystemId(name: string): string {
    Prefix + name + "_filesystem"
  }

  /** The cache decorator of an adapter: `<adapterId>_cached`. It depends on the
      adapter alone, not on the filesystem or the cache. */
  function DecoratorId(adapterId: string): string {
    adapterId + "_cached"
  }

  const StreamWrapperManagerId: string := "oneup_flysystem.stream_wrapper.manager"

  /** `oneup_flysystem.stream_wrapper.configuration.<name>`. */
  function StreamWrapperConfigurationId(name: string): string {
    "oneup_flysystem.stream_wrapper.configuration." + name
  }

  const CachedAdapterTemplate: string := "oneup_flysystem.adapter.cached"
  const FilesystemTemplate: string := "oneup_flysystem.filesystem"
  const StreamWrapperConfigurationTemplate: string := "oneup_flysystem.stream_wrapper.configuration.def"
  const StreamWrapperManagerClass: string := "Oneup\\FlysystemBundle\\StreamWrapper\\StreamWrapperManager"
  const FilesystemTag: string := "oneup_flysystem.filesystem"
  const FilesystemInterface: string := "League\\Flysystem\\FilesystemInterface"

  lemma ServiceIdInjective(kind: ServiceKind, a: string, b: string)
    requires ServiceId(kind, a) == ServiceId(kind, b)
    ensures a == b
  {
    var s := ServiceId(kind, a);
    assert a == s[|Prefix|..|Prefix| + |a|];
  }

  lemma FilesystemIdInjective(a: string, b: string)
    requires FilesystemId(a) == FilesystemId(b)
    ensures a == b
  {
    var s := FilesystemId(a);
    assert a == s[|Prefix|..|Prefix| + |a|];
  }

  lemma StreamWrapperConfigurationIdInjective(a: string, b: string)
    requires StreamWrapperConfigurationId(a) == StreamWrapperConfigurationId(b)
    ensures a == b
  {
    var s := StreamWrapperConfigurationId(a);
    assert a == s[45..];
  }

  /** A decorator never takes the id of a filesystem: the last characters differ. */
  lemma DecoratorIsNotFilesystem(adapterId: string, name: string)
    ensures DecoratorId(adapterId) != FilesystemId(name)
  {
    var d, f := DecoratorId(adapterId), FilesystemId(name);
    assert d[|d| - 1] == 'd';
    assert f[|f| - 1] == 'm';
  }

  /** No id the adapter, cache and filesystem passes write is the manager's id. */
  lemma ResolvedIdsAreNotManager(kind: ServiceKind, name: string, adapterId: string)
    ensures ServiceId(kind, name) != StreamWrapperManagerId
    ensures FilesystemId(name) != StreamWrapperManagerId
    ensures DecoratorId(adapterId) != StreamWrapperManagerId
  {
    var m := StreamWrapperManagerId;
    assert m[|m| - 3] == 'g' && m[|m| - 1] == 'r';
    var s := ServiceId(kind, name);
    assert s[|s| - 3] == (if kind == AdapterKind then 't' else 'c');
    var f := FilesystemId(name);
    assert f[|f| - 1] == 'm';
    var d := DecoratorId(adapterId);
    assert d[|d| - 1] == 'd';
  }

  /** No stream-wrapper configuration takes the manager's id. */
  lemma ConfigurationIsNotManager(name: string)
    ensures StreamWrapperConfigurationId(name) != StreamWrapperManagerId
  {
    var c := StreamWrapperConfigurationId(name);
    assert c[31] == 'c';
    assert StreamWrapperManagerId[31] == 'm';
  }

  /** ASCII lower case: PCRE's `i` flag without the `u` flag. */
  function LowerAscii(c: char): char {
    if 'A' <= c <= 'Z' then (c as int + 32) as char else c
  }

  /** `s` ends with the lower-case `suffix`, ignoring ASCII case. */
  predicate EndsWithIgnoringCase(s: string, suffix: string) {
    |suffix| <= |s| &&
    forall i | 0 <= i < |suffix| :: LowerAscii(s[|s| - |suffix| + i]) == suffix[i]
  }

  /** preg_match('~filesystem$~i', s): `$` matches at the end of the subject and also
      just before a final newline. */
  predicate MatchesFilesystemSuffix(s: string) {
    EndsWithIgnoringCase(s, "filesystem") ||
    (|s| > 0 && s[|s| - 1] == '\n' && EndsWithIgnoringCase(s[..|s| - 1], "filesystem"))
  }

  /** The argument alias name of filesystem `name`: the name itself when it already
      ends in "filesystem" in any case, otherwise the name with "Filesystem" appended. */
  function ArgumentAliasName(name: string): (r: string)
    ensures MatchesFilesystemSuffix(r)
    ensures name <= r && |r| <= |name| + |"Filesystem"|
    ensures r == name <==> MatchesFilesystemSuffix(name)
    ensures !MatchesFilesystemSuffix(name) ==> r == name + "Filesystem"
  {
    if MatchesFilesystemSuffix(name) then name
    else
      var r := name + "Filesystem";
      assert forall i | 0 <= i < 10 :: r[|r| - 10 + i] == "Filesystem"[i];
      r
  }

  /** Applying the rule twice appends nothing more. */
  lemma ArgumentAliasNameIdempotent(name: string)
    ensures ArgumentAliasName(ArgumentAliasName(name)) == ArgumentAliasName(name)
  {
  }

  /** "acme" does not end in "filesystem", so it gains the suffix. */
  lemma ArgumentAliasNameAppends()
    ensures ArgumentAliasName("acme") == "acmeFilesystem"
  {
    assert |"acme"| < |"filesystem"| && "acme"[3] != '\n';
  }

  /** "acme_filesystem" already ends in "filesystem" and keeps its name. */
  lemma ArgumentAliasNameKeepsSuffix()
    ensures ArgumentAliasName("acme_filesystem") == "acme_filesystem"
  {
    assert "acme_filesystem"[5..] == "filesystem";
    assert EndsWithIgnoringCase("acme_filesystem", "filesystem");
  }

  /** The match ignores case: "acmeFILESYSTEM" keeps its name. */
  lemma ArgumentAliasNameIgnoresCase()
    ensures ArgumentAliasName("acmeFILESYSTEM") == "acmeFILESYSTEM"
  {
    assert LowerAscii('F') == 'f' && LowerAscii('I') == 'i' && LowerAscii('L') == 'l' && LowerAscii('E') == 'e';
    assert LowerAscii('S') == 's' && LowerAscii('Y') == 'y' && LowerAscii('T') == 't' && LowerAscii('M') == 'm';
    assert EndsWithIgnoringCase("acmeFILESYSTEM", "filesystem");
  }
}
