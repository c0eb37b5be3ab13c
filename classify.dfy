/** Classification of configuration file names into the admin bucket and the standard bucket.
    The rule here is one rule consistent with every row of the two test tables: an admin
    config is a `.yaml` file whose name starts with `admin_`; a standard config is any other
    `.yaml` file. Other rules fit the same rows (one that also demands an `_rbac.yaml`
    suffix, for instance) and differ from this one on names the tables do not list. */
module Classify {

  /** Go's `strings.HasPrefix`. */
  predicate HasPrefix(s: string, prefix: string)
  {
    |prefix| <= |s| && s[..|prefix|] == prefix
  }

  /** Go's `strings.HasSuffix`. */
  predicate HasSuffix(s: string, suffix: string)
  {
    |suffix| <= |s| && s[|s| - |suffix|..] == suffix
  }

  lemma SuffixAt(s: string, suffix: string, k: int)
    requires HasSuffix(s, suffix) && 0 <= k < |suffix|
    ensures s[|s| - |suffix| + k] == suffix[k]
  {
  }

  /** The name carries the `.yaml` extension (and not `.yml` or none). */
  predicate HasYamlExtension(name: string)
  {
    HasSuffix(name, ".yaml")
  }

  predicate IsAdminConfig(name: string)
  {
    HasPrefix(name, "admin_") && HasYamlExtension(name)
  }

  predicate IsStandardConfig(name: string)
  {
    HasYamlExtension(name) && !IsAdminConfig(name)
  }

  /** Neither bucket accepts a file without the `.yaml` extension. */
  lemma ClassifiedHasYamlExtension(name: string)
    ensures IsAdminConfig(name) ==> HasYamlExtension(name)
    ensures IsStandardConfig(name) ==> HasYamlExtension(name)
  {
  }

  /** A `.yml` file is never classified: the two extensions cannot both end a name. */
  lemma YmlIsNeither(name: string)
    requires HasSuffix(name, ".yml")
    ensures !IsAdminConfig(name) && !IsStandardConfig(name)
  {
    SuffixAt(name, ".yml", 0);
    if HasYamlExtension(name) {
      SuffixAt(name, ".yaml", 1);
      assert false;
    }
  }

  /** The rows of the `isAdminConfig` test table. */
  lemma AdminConfigTable()
    ensures IsAdminConfig("admin_01_something_rbac.yaml")
    ensures IsAdminConfig("admin_something_rbac.yaml")
    ensures !IsAdminConfig("cfg_01_something")
    ensures !IsAdminConfig("admin_01_something_rbac")
    ensures !IsAdminConfig("admin_01_something_rbac.yml")
    ensures !IsAdminConfig("admin.yaml")
  {
    var a1, a2 := "admin_01_something_rbac.yaml", "admin_something_rbac.yaml";
    assert a1[..6] == "admin_";
    assert a1[|a1| - 5..] == ".yaml";
    assert a2[..6] == "admin_";
    assert a2[|a2| - 5..] == ".yaml";
    assert "cfg_01_something"[0] != "admin_"[0];
    assert "admin_01_something_rbac"[|"admin_01_something_rbac"| - 5] != ".yaml"[0];
    assert "admin_01_something_rbac.yml"[|"admin_01_something_rbac.yml"| - 5] != ".yaml"[0];
    assert "admin.yaml"[5] != "admin_"[5];
  }

  /** The rows of the `isStandardConfig` test table. */
  lemma StandardConfigTable()
    ensures IsStandardConfig("01_something_rbac.yaml")
    ensures IsStandardConfig("something_rbac.yaml")
    ensures !IsStandardConfig("admin_01_something.yaml")
    ensures !IsStandardConfig("cfg_01_something_rbac")
    ensures !IsStandardConfig("cfg_01_something_rbac.yml")
  {
    var s1, s2 := "01_something_rbac.yaml", "something_rbac.yaml";
    assert s1[|s1| - 5..] == ".yaml";
    assert s1[0] != 'a';
    assert s2[|s2| - 5..] == ".yaml";
    assert s2[0] != 'a';
    var n1 := "admin_01_something.yaml";
    assert n1[..6] == "admin_";
    assert n1[|n1| - 5..] == ".yaml";
    assert "cfg_01_something_rbac"[|"cfg_01_something_rbac"| - 5] != ".yaml"[0];
    assert "cfg_01_something_rbac.yml"[|"cfg_01_something_rbac.yml"| - 5] != ".yaml"[0];
  }
}
