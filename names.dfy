/** Canonical tracker version names.
    A core release is filed as "jenkins-<version>"; a plugin release as its artifactId,
    less one trailing "-plugin", followed by "-<version>". The name is the key the
    reconciler deduplicates on. */
module Names {

  type Name = string

  const CorePrefix: string := "jenkins-"
  const PluginSuffix: string := "-plugin"

  /** The name under which a core release with the given version is filed. */
  function CoreName(version: string): (name: Name)
    ensures |name| == |CorePrefix| + |version|
    ensures name[..|CorePrefix|] == CorePrefix && name[|CorePrefix|..] == version
  {
    CorePrefix + version
  }

  /** A string ends in "-plugin" exactly when it is some stem followed by "-plugin". */
  lemma SuffixSplit(s: string)
    ensures (exists stem: string :: stem + PluginSuffix == s)
        <==> |PluginSuffix| <= |s| && s[|s| - |PluginSuffix|..] == PluginSuffix
  {
    if |PluginSuffix| <= |s| && s[|s| - |PluginSuffix|..] == PluginSuffix {
      assert s[..|s| - |PluginSuffix|] + PluginSuffix == s;
    }
    if exists stem: string :: stem + PluginSuffix == s {
      var stem: string :| stem + PluginSuffix == s;
      assert s[|s| - |PluginSuffix|..] == PluginSuffix;
    }
  }

  /** Does the artifactId end in "-plugin"? */
  predicate HasPluginSuffix(artifactId: string): (b: bool)
    ensures b <==> exists stem: string :: stem + PluginSuffix == artifactId
  {
    SuffixSplit(artifactId);
    |PluginSuffix| <= |artifactId| && artifactId[|artifactId| - |PluginSuffix|..] == PluginSuffix
  }

  /** The artifactId with one trailing "-plugin" removed, if there is one. */
  function StripPluginSuffix(artifactId: string): (stem: string)
    ensures HasPluginSuffix(artifactId) ==> stem + PluginSuffix == artifactId
    ensures !HasPluginSuffix(artifactId) ==> stem == artifactId
  {
    if HasPluginSuffix(artifactId) then artifactId[..|artifactId| - |PluginSuffix|] else artifactId
  }

  /** The name under which a plugin release is filed. */
  function PluginName(artifactId: string, version: string): (name: Name)
  {
    StripPluginSuffix(artifactId) + "-" + version
  }

  /** A plugin release's name ends in "-" and its version, and what comes before is
      the artifactId itself or the artifactId less a trailing "-plugin". */
  lemma PluginNameParts(artifactId: string, version: string)
    ensures var name := PluginName(artifactId, version);
      && |version| < |name| && name[|name| - |version|..] == version && name[|name| - |version| - 1] == '-'
      && var stem := name[..|name| - |version| - 1];
         stem == artifactId || stem + PluginSuffix == artifactId
  {
  }

  /** Distinct core versions are filed under distinct names. */
  lemma CoreNameInjective(v: string, w: string)
    requires CoreName(v) == CoreName(w)
    ensures v == w
  {
  }

  /** A stem followed by "-plugin" is stripped back to the stem, and only that one
      suffix is removed: "x-plugin-plugin" becomes "x-plugin". */
  lemma StripAppendedSuffix(stem: string)
    ensures StripPluginSuffix(stem + PluginSuffix) == stem
  {
  }

  /** Two plugin releases of artifacts with the same stem and the same version share a
      name: "foo-plugin" and "foo" at the same version collide. */
  lemma PluginNameOfStem(stem: string, version: string)
    ensures PluginName(stem + PluginSuffix, version) == stem + "-" + version
    ensures !HasPluginSuffix(stem) ==> PluginName(stem, version) == stem + "-" + version
  {
  }

  /** Names of a core release, of a plugin with the suffix, of one without it, and of
      one whose artifactId repeats the suffix. */
  lemma NamingExamples()
    ensures CoreName("1.410") == "jenkins-1.410"
    ensures PluginName("foo-plugin", "1.2") == "foo-1.2"
    ensures PluginName("foo-plugin", "2.1") == "foo-2.1"
    ensures PluginName("bar", "3.0") == "bar-3.0"
    ensures PluginName("x-plugin-plugin", "1.0") == "x-plugin-1.0"
  {
  }

  /** A plugin whose artifactId is "jenkins-plugin" produces the same names as core:
      so a plugin release can share a name with a core release. */
  lemma CorePluginCollision(version: string)
    ensures PluginName("jenkins-plugin", version) == CoreName(version)
  {
  }
}
