/** LogStash::Environment: the runtime-environment predicates, the jar-directory helpers,
    the choice of Ruby binary, the jar lookup and the plugin load path. */
module Environment {
  import opened Wrappers

  /** The environment name used when LS_ENV is not set. */
  const DefaultEnv: string := "production"

  /** `env`: the value of LS_ENV, or "production" when the variable is unset. Ruby's `||`
      treats every string as present, the empty one included. */
  function Env(lsEnv: Option<string>): string
  {
    match lsEnv
    case None => DefaultEnv
    case Some(name) => name
  }

  /** String#downcase on one character: ASCII upper-case letters only. */
  function Lower(c: char): char
  {
    if 'A' <= c <= 'Z' then (c as int + 32) as char else c
  }

  function Downcase(s: string): string
  {
    seq(|s|, i requires 0 <= i < |s| => Lower(s[i]))
  }

  predicate IsProduction(env: string)
  {
    Downcase(env) == "production"
  }

  predicate IsDevelopment(env: string)
  {
    Downcase(env) == "development"
  }

  predicate IsTest(env: string)
  {
    Downcase(env) == "test"
  }

  /** Equality of two names up to the case of their ASCII letters, position by position. */
  predicate EqualsIgnoringCase(a: string, b: string)
  {
    |a| == |b| && forall i :: 0 <= i < |a| ==> Lower(a[i]) == Lower(b[i])
  }

  /** Comparing the downcased name with an all-lower-case word is case-insensitive equality. */
  lemma {:induction false} DowncaseMatches(s: string, word: string)
    requires Downcase(word) == word
    ensures Downcase(s) == word <==> EqualsIgnoringCase(s, word)
  {
    forall i | 0 <= i < |word|
      ensures Lower(word[i]) == word[i]
    {
      assert Downcase(word)[i] == Lower(word[i]);
    }
    if EqualsIgnoringCase(s, word) {
      assert forall i :: 0 <= i < |s| ==> Downcase(s)[i] == word[i];
    }
  }

  lemma ProductionIgnoresCase(env: string)
    ensures IsProduction(env) <==> EqualsIgnoringCase(env, "production")
  {
    DowncaseMatches(env, "production");
  }

  lemma DevelopmentIgnoresCase(env: string)
    ensures IsDevelopment(env) <==> EqualsIgnoringCase(env, "development")
  {
    DowncaseMatches(env, "development");
  }

  lemma TestIgnoresCase(env: string)
    ensures IsTest(env) <==> EqualsIgnoringCase(env, "test")
  {
    DowncaseMatches(env, "test");
  }

  lemma AtMostOneEnvironment(env: string)
    ensures !(IsProduction(env) && IsDevelopment(env))
    ensures !(IsProduction(env) && IsTest(env))
    ensures !(IsDevelopment(env) && IsTest(env))
  {
  }

  /** With LS_ENV unset the process runs in production. */
  lemma UnsetEnvIsProduction()
    ensures IsProduction(Env(None))
  {
  }

  /** "PRODUCTION" is production too. */
  lemma UpperCaseProduction()
    ensures IsProduction(Env(Some("PRODUCTION")))
  {
  }

  /** An empty LS_ENV is present, so it does not fall back to production, and it names
      none of the three environments. */
  lemma EmptyEnvIsNoEnvironment()
    ensures !IsProduction(Env(Some(""))) && !IsDevelopment(Env(Some(""))) && !IsTest(Env(Some("")))
  {
  }

  /** File.join for components that carry no separator of their own. */
  function Join(parts: seq<string>): string
  {
    if |parts| == 0 then ""
    else if |parts| == 1 then parts[0]
    else Join(parts[..|parts| - 1]) + "/" + parts[|parts| - 1]
  }

  lemma JoinThree(a: string, b: string, c: string)
    ensures Join([a, b]) == a + "/" + b
    ensures Join([a, b, c]) == a + "/" + b + "/" + c
  {
    assert [a, b, c][..2] == [a, b];
    assert [a, b][..1] == [a];
  }

  function RuntimeJarsRoot(dirName: string, package: string): (root: string)
    ensures root == dirName + "/" + package + "/" + "runtime-jars"
  {
    JoinThree(dirName, package, "runtime-jars");
    Join([dirName, package, "runtime-jars"])
  }

  function TestJarsRoot(dirName: string, package: string): (root: string)
    ensures root == dirName + "/" + package + "/" + "test-jars"
  {
    JoinThree(dirName, package, "test-jars");
    Join([dirName, package, "test-jars"])
  }

  /** The two jar roots share every component but the last. */
  lemma JarRootsDifferInLastComponent(dirName: string, package: string)
    ensures var parent := Join([dirName, package]);
      RuntimeJarsRoot(dirName, package) == parent + "/" + "runtime-jars" &&
      TestJarsRoot(dirName, package) == parent + "/" + "test-jars"
    ensures RuntimeJarsRoot(dirName, package) != TestJarsRoot(dirName, package)
  {
  }

  /** `ruby_bin`: plain "ruby" when USE_RUBY is "1", else the bundled JRuby launcher. */
  function RubyBin(useRuby: Option<string>): (bin: string)
    ensures bin == "ruby" <==> useRuby == Some("1")
    ensures useRuby != Some("1") ==> bin == "vendor" + "/" + "jruby" + "/" + "bin" + "/" + "jruby"
  {
    if useRuby == Some("1") then "ruby"
    else
      var parts := ["vendor", "jruby", "bin", "jruby"];
      assert parts[..3] == ["vendor", "jruby", "bin"];
      JoinThree("vendor", "jruby", "bin");
      Join(parts)
  }

  datatype EnvironmentError = MissingJars(pattern: string)

  /** `find_jars`: the jars the glob of `pattern` found, which is an error when it found none. */
  function FindJars(pattern: string, globbed: seq<string>): (r: Result<seq<string>, EnvironmentError>)
    ensures r.Err? <==> globbed == []
    ensures r.Ok? ==> r.value == globbed
    ensures r.Err? ==> r.error == MissingJars(pattern)
  {
    if globbed == [] then Err(MissingJars(pattern)) else Ok(globbed)
  }

  /** The interpreter's load path ($LOAD_PATH), where bare plugins are looked up. */
  class LoadPath {
    var entries: seq<string>

    constructor (entries: seq<string>)
      ensures this.entries == entries
    {
      this.entries := entries;
    }

    /** `add_plugin_path`: append one path at the end. */
    method AddPluginPath(path: string)
      modifies this
      ensures entries == old(entries) + [path]
    {
      entries := entries + [path];
    }
  }
}
