/**
 * The Conan recipe `LibbaseRecipe`: boolean build options with defaults, the
 * Windows-only option removed on other systems, user overrides resolved
 * against what remains, fail-fast validation, the dependency list and the
 * CMake cache variables.
 *
 * Options and cache variables are enumerations whose names are given by
 * `OptionText` and `VariableText`. Conan's own `check_min_cppstd` is not
 * modelled; its verdict is a parameter.
 */
module ConanRecipe {
  import opened Wrappers

  datatype OptionName = ModuleNet | ModuleWin | ModuleWx | Examples | Tests | Docs | WithTidy | WithAsan | WithTsan

  function OptionText(o: OptionName): (s: string)
  {
    match o
    case ModuleNet => "module_net"
    case ModuleWin => "module_win"
    case ModuleWx => "module_wx"
    case Examples => "examples"
    case Tests => "tests"
    case Docs => "docs"
    case WithTidy => "with_tidy"
    case WithAsan => "with_asan"
    case WithTsan => "with_tsan"
  }

  /** `default_options`. Every domain is `[True, False]`. */
  function Default(o: OptionName): (b: bool)
  {
    match o
    case ModuleNet => true
    case ModuleWin => true
    case ModuleWx => false
    case Examples => true
    case Tests => true
    case Docs => false
    case WithTidy => true
    case WithAsan => false
    case WithTsan => false
  }

  const SupportedOs: seq<string> := ["Windows", "Linux", "Macos"]

  datatype Package = GlogPackage | LibcurlPackage | WxwidgetsPackage | GtestPackage | BenchmarkPackage

  function PackageText(p: Package): string
  {
    match p
    case GlogPackage => "glog"
    case LibcurlPackage => "libcurl"
    case WxwidgetsPackage => "wxwidgets"
    case GtestPackage => "gtest"
    case BenchmarkPackage => "benchmark"
  }

  /** One `self.requires(...)` call: a package, its version range and the transitivity flags. */
  datatype Requirement = Requirement(package: Package, range: string, transitiveHeaders: bool, transitiveLibs: bool)
  {
    /** The reference string passed to `requires`, e.g. `glog/[~0.7]`. */
    function Ref(): string
    {
      PackageText(package) + "/" + range
    }
  }

  const Glog := Requirement(GlogPackage, "[~0.7]", true, true)
  const Libcurl := Requirement(LibcurlPackage, "[>=8.12 <9.0]", false, false)
  const Wxwidgets := Requirement(WxwidgetsPackage, "[>=3.2 <4.0]", false, false)
  const Gtest := Requirement(GtestPackage, "[~1.16]", false, false)
  const Benchmark := Requirement(BenchmarkPackage, "[~1.9]", false, false)

  /** A user override `-o name=value` as Conan receives it, as text. */
  datatype Override = Override(name: string, value: string)

  datatype RecipeError =
    | UnknownOption(name: string)
    | InvalidValue(name: string, value: string)
    | UnsupportedOs
    | ConflictingSanitizers
    | CppStdNotSupported

  /** The message of the `ConanInvalidConfiguration` that `validate` raises. */
  function Message(e: RecipeError): (m: string)
    requires e == UnsupportedOs || e == ConflictingSanitizers
  {
    if e == UnsupportedOs then "Unsupported OS" else "ASAN and TSAN cannot be used together"
  }

  /** The options that exist on `os` once `config_options` has run. */
  predicate Applicable(os: string, o: OptionName)
  {
    o != ModuleWin || os == "Windows"
  }

  /** The option an override names, if it names one that exists on `os`. */
  function LookupOption(os: string, name: string): (r: Option<OptionName>)
    ensures r.Some? ==> OptionText(r.value) == name && Applicable(os, r.value)
  {
    if name == "module_net" then Some(ModuleNet)
    else if name == "module_win" && os == "Windows" then Some(ModuleWin)
    else if name == "module_wx" then Some(ModuleWx)
    else if name == "examples" then Some(Examples)
    else if name == "tests" then Some(Tests)
    else if name == "docs" then Some(Docs)
    else if name == "with_tidy" then Some(WithTidy)
    else if name == "with_asan" then Some(WithAsan)
    else if name == "with_tsan" then Some(WithTsan)
    else None
  }

  /** Every applicable option is found under its own name. */
  lemma LookupFindsApplicable(os: string, o: OptionName)
    requires Applicable(os, o)
    ensures LookupOption(os, OptionText(o)) == Some(o)
  {
  }

  /** The value text Conan accepts for a boolean option, or `None`. */
  function ParseBool(v: string): (r: Option<bool>)
    ensures r == Some(true) <==> v == "True"
    ensures r == Some(false) <==> v == "False"
  {
    if v == "True" then Some(true) else if v == "False" then Some(false) else None
  }

  /** The options as `config_options` leaves them: the defaults of those that exist on `os`. */
  function PrunedDefaults(os: string): (opts: map<OptionName, bool>)
  {
    map o | Applicable(os, o) :: Default(o)
  }

  /** `module_win` exists exactly on Windows; every other option exists everywhere. */
  lemma PrunedDefaultsKeys(os: string)
    ensures ModuleWin in PrunedDefaults(os) <==> os == "Windows"
    ensures forall o :: o != ModuleWin ==> o in PrunedDefaults(os)
    ensures forall o :: o in PrunedDefaults(os) <==> Applicable(os, o)
  {
  }

  /**
   * Applies the overrides in order; the first that names an option that does
   * not exist on `os`, or carries a value outside the domain, aborts.
   */
  function ApplyOverrides(os: string, opts: map<OptionName, bool>, overrides: seq<Override>): (r: Result<map<OptionName, bool>, RecipeError>)
    ensures r.Ok? ==> r.value.Keys == opts.Keys
    ensures r.Err? ==> r.error.UnknownOption? || r.error.InvalidValue?
    decreases |overrides|
  {
    if overrides == [] then Ok(opts)
    else
      var o := overrides[0];
      match LookupOption(os, o.name)
      case None => Err(UnknownOption(o.name))
      case Some(opt) =>
        if opt !in opts then Err(UnknownOption(o.name))
        else match ParseBool(o.value)
          case None => Err(InvalidValue(o.name, o.value))
          case Some(b) => ApplyOverrides(os, opts[opt := b], overrides[1..])
  }

  /** An override is acceptable on `os` when it names an existing option and a valid value. */
  predicate Acceptable(os: string, o: Override)
  {
    LookupOption(os, o.name).Some? && ParseBool(o.value).Some?
  }

  /** `config_options` followed by Conan's resolution of the user's overrides. */
  function ResolveOptions(os: string, overrides: seq<Override>): (r: Result<map<OptionName, bool>, RecipeError>)
  {
    ApplyOverrides(os, PrunedDefaults(os), overrides)
  }

  /** Resolution succeeds exactly when every override is acceptable, and then yields exactly the options of `os`. */
  lemma {:induction false} ApplyOverridesSucceedsIff(os: string, opts: map<OptionName, bool>, overrides: seq<Override>)
    requires forall o :: o in opts <==> Applicable(os, o)
    ensures ApplyOverrides(os, opts, overrides).Ok? <==> forall i :: 0 <= i < |overrides| ==> Acceptable(os, overrides[i])
    decreases |overrides|
  {
    if overrides != [] {
      var o := overrides[0];
      if Acceptable(os, o) {
        var opt := LookupOption(os, o.name).value;
        ApplyOverridesSucceedsIff(os, opts[opt := ParseBool(o.value).value], overrides[1..]);
        assert forall i :: 1 <= i < |overrides| ==> overrides[i] == overrides[1..][i - 1];
      }
    }
  }

  /** Options that no override names keep their value. */
  lemma {:induction false} UnnamedOptionsKeepValue(os: string, opts: map<OptionName, bool>, overrides: seq<Override>, opt: OptionName)
    requires opt in opts && ApplyOverrides(os, opts, overrides).Ok?
    requires forall i :: 0 <= i < |overrides| ==> overrides[i].name != OptionText(opt)
    ensures ApplyOverrides(os, opts, overrides).value[opt] == opts[opt]
    decreases |overrides|
  {
    if overrides != [] {
      var o := overrides[0];
      var named := LookupOption(os, o.name).value;
      UnnamedOptionsKeepValue(os, opts[named := ParseBool(o.value).value], overrides[1..], opt);
    }
  }

  /** The last override of an option decides its value. */
  lemma {:induction false} LastOverrideWins(os: string, opts: map<OptionName, bool>, overrides: seq<Override>, k: nat)
    requires k < |overrides| && ApplyOverrides(os, opts, overrides).Ok?
    requires forall o :: Applicable(os, o) ==> o in opts
    requires forall i :: k < i < |overrides| ==> overrides[i].name != overrides[k].name
    ensures LookupOption(os, overrides[k].name).Some? && ParseBool(overrides[k].value).Some?
    ensures ApplyOverrides(os, opts, overrides).value[LookupOption(os, overrides[k].name).value]
            == ParseBool(overrides[k].value).value
    decreases |overrides|
  {
    var o := overrides[0];
    var opt := LookupOption(os, o.name).value;
    var next := opts[opt := ParseBool(o.value).value];
    if k == 0 {
      var rest := overrides[1..];
      forall i | 0 <= i < |rest| ensures rest[i].name != OptionText(opt) {
        assert rest[i] == overrides[i + 1];
      }
      UnnamedOptionsKeepValue(os, next, rest, opt);
    } else {
      LastOverrideWins(os, next, overrides[1..], k - 1);
    }
  }

  /** `validate`: fail-fast on the system, then the sanitizer pair, then the C++ standard. */
  function Validate(os: string, opts: map<OptionName, bool>, cppStd17Ok: bool): (r: Result<(), RecipeError>)
    requires WithAsan in opts && WithTsan in opts
    ensures r.Ok? <==> os in SupportedOs && !(opts[WithAsan] && opts[WithTsan]) && cppStd17Ok
    ensures os !in SupportedOs ==> r == Err(UnsupportedOs)
    ensures os in SupportedOs && opts[WithAsan] && opts[WithTsan] ==> r == Err(ConflictingSanitizers)
  {
    if os !in SupportedOs then Err(UnsupportedOs)
    else if opts[WithAsan] && opts[WithTsan] then Err(ConflictingSanitizers)
    else if !cppStd17Ok then Err(CppStdNotSupported)
    else Ok(())
  }

  function When(c: bool, s: seq<Requirement>): seq<Requirement>
  {
    if c then s else []
  }

  /** What `requirements` asks for, from the resolved options. */
  function RequiredPackages(opts: map<OptionName, bool>): seq<Requirement>
    requires ModuleNet in opts && ModuleWx in opts && Tests in opts
  {
    PackageList(opts[ModuleNet], opts[ModuleWx], opts[Tests])
  }

  /** The requirement list for the given `module_net`, `module_wx` and `tests` values. */
  function PackageList(net: bool, wx: bool, tests: bool): seq<Requirement>
  {
    [Glog] + When(net, [Libcurl]) + When(wx, [Wxwidgets]) + When(tests, [Gtest, Benchmark])
  }

  /** Membership in the requirement list, entry by entry. */
  lemma PackageListMembers(net: bool, wx: bool, tests: bool, x: Requirement)
    ensures x in PackageList(net, wx, tests) <==>
              x == Glog || (net && x == Libcurl) || (wx && x == Wxwidgets) || (tests && (x == Gtest || x == Benchmark))
    ensures x in PackageList(net, wx, tests)[1..] <==>
              (net && x == Libcurl) || (wx && x == Wxwidgets) || (tests && (x == Gtest || x == Benchmark))
  {
    var n, w, t := When(net, [Libcurl]), When(wx, [Wxwidgets]), When(tests, [Gtest, Benchmark]);
    assert PackageList(net, wx, tests) == [Glog] + (n + w + t);
    assert PackageList(net, wx, tests)[1..] == n + w + t;
  }

  /** glog heads the list and does not occur again. */
  lemma GlogOnce(net: bool, wx: bool, tests: bool)
    ensures PackageList(net, wx, tests)[0] == Glog
    ensures multiset(PackageList(net, wx, tests))[Glog] == 1
  {
    var all := PackageList(net, wx, tests);
    PackageListMembers(net, wx, tests, Glog);
    assert Glog !in all[1..];
    assert all == [Glog] + all[1..];
    assert multiset(all) == multiset([Glog]) + multiset(all[1..]);
  }

  /** Every package after glog is neither header- nor library-transitive. */
  lemma TailNotTransitive(net: bool, wx: bool, tests: bool)
    ensures forall x :: x in PackageList(net, wx, tests)[1..] ==> !x.transitiveHeaders && !x.transitiveLibs
  {
    forall x | x in PackageList(net, wx, tests)[1..] ensures !x.transitiveHeaders && !x.transitiveLibs {
      PackageListMembers(net, wx, tests, x);
    }
  }

  lemma PackageListProperties(net: bool, wx: bool, tests: bool)
    ensures PackageList(net, wx, tests)[0] == Glog
    ensures multiset(PackageList(net, wx, tests))[Glog] == 1
    ensures Libcurl in PackageList(net, wx, tests) <==> net
    ensures Wxwidgets in PackageList(net, wx, tests) <==> wx
    ensures Gtest in PackageList(net, wx, tests) <==> tests
    ensures Benchmark in PackageList(net, wx, tests) <==> tests
    ensures forall x :: x in PackageList(net, wx, tests)[1..] ==> !x.transitiveHeaders && !x.transitiveLibs
  {
    PackageListMembers(net, wx, tests, Libcurl);
    PackageListMembers(net, wx, tests, Wxwidgets);
    PackageListMembers(net, wx, tests, Gtest);
    PackageListMembers(net, wx, tests, Benchmark);
    GlogOnce(net, wx, tests);
    TailNotTransitive(net, wx, tests);
  }

  /**
   * glog is always first and required once, with its headers and libraries
   * transitive; libcurl follows `module_net`, wxwidgets `module_wx`, and gtest
   * and benchmark come together exactly when `tests` is set.
   */
  lemma RequiredPackagesProperties(opts: map<OptionName, bool>)
    requires ModuleNet in opts && ModuleWx in opts && Tests in opts
    ensures RequiredPackages(opts)[0] == Glog && Glog.transitiveHeaders && Glog.transitiveLibs
    ensures multiset(RequiredPackages(opts))[Glog] == 1
    ensures Libcurl in RequiredPackages(opts) <==> opts[ModuleNet]
    ensures Wxwidgets in RequiredPackages(opts) <==> opts[ModuleWx]
    ensures Gtest in RequiredPackages(opts) <==> opts[Tests]
    ensures Benchmark in RequiredPackages(opts) <==> Gtest in RequiredPackages(opts)
    ensures forall x :: x in RequiredPackages(opts)[1..] ==> !x.transitiveHeaders && !x.transitiveLibs
  {
    PackageListProperties(opts[ModuleNet], opts[ModuleWx], opts[Tests]);
  }

  datatype CacheVariable =
    | BuildModuleNet | BuildModuleWin | BuildModuleWx | BuildExamples | BuildTests
    | BuildPerformanceTests | BuildDocs | ClangTidy | BuildAsan | BuildTsan

  function VariableText(v: CacheVariable): (s: string)
  {
    match v
    case BuildModuleNet => "LIBBASE_BUILD_MODULE_NET"
    case BuildModuleWin => "LIBBASE_BUILD_MODULE_WIN"
    case BuildModuleWx => "LIBBASE_BUILD_MODULE_WX"
    case BuildExamples => "LIBBASE_BUILD_EXAMPLES"
    case BuildTests => "LIBBASE_BUILD_TESTS"
    case BuildPerformanceTests => "LIBBASE_BUILD_PERFORMANCE_TESTS"
    case BuildDocs => "LIBBASE_BUILD_DOCS"
    case ClangTidy => "LIBBASE_CLANG_TIDY"
    case BuildAsan => "LIBBASE_BUILD_ASAN"
    case BuildTsan => "LIBBASE_BUILD_TSAN"
  }

  /** The option each cache variable carries. */
  function Mirrored(v: CacheVariable): (o: OptionName)
  {
    match v
    case BuildModuleNet => ModuleNet
    case BuildModuleWin => ModuleWin
    case BuildModuleWx => ModuleWx
    case BuildExamples => Examples
    case BuildTests => Tests
    case BuildPerformanceTests => Tests
    case BuildDocs => Docs
    case ClangTidy => WithTidy
    case BuildAsan => WithAsan
    case BuildTsan => WithTsan
  }

  /** Only the Windows-module variable is guarded, by the same test as its option. */
  predicate Emitted(os: string, v: CacheVariable)
  {
    v != BuildModuleWin || os == "Windows"
  }

  /** What `generate` writes: each variable written on `os` holds the option it carries. */
  function CacheVariables(os: string, opts: map<OptionName, bool>): (r: map<CacheVariable, bool>)
    requires forall o :: Applicable(os, o) ==> o in opts
  {
    EmittedIsApplicable(os);
    map v | Emitted(os, v) :: opts[Mirrored(v)]
  }

  lemma EmittedIsApplicable(os: string)
    ensures forall v :: Emitted(os, v) ==> Applicable(os, Mirrored(v))
  {
    forall v | Emitted(os, v) ensures Applicable(os, Mirrored(v)) {
      match v
      case BuildModuleWin =>
      case _ =>
    }
  }

  /**
   * The Windows-module variable is written exactly on Windows; performance
   * tests follow `tests`; every variable is written from an option that exists.
   */
  lemma CacheVariablesProperties(os: string, opts: map<OptionName, bool>)
    requires forall o :: Applicable(os, o) ==> o in opts
    ensures BuildModuleWin in CacheVariables(os, opts) <==> os == "Windows"
    ensures forall v :: v != BuildModuleWin ==> v in CacheVariables(os, opts)
    ensures CacheVariables(os, opts)[BuildPerformanceTests] == CacheVariables(os, opts)[BuildTests] == opts[Tests]
    ensures forall v :: v in CacheVariables(os, opts) ==> Applicable(os, Mirrored(v)) && CacheVariables(os, opts)[v] == opts[Mirrored(v)]
  {
  }

  /** The `LibbaseRecipe` object during one Conan invocation. */
  class Recipe {
    const os: string
    /** `self.options`; `config_options` deletes from it. */
    var options: map<OptionName, bool>
    /** The `self.requires` calls made so far, in order. */
    var requirements: seq<Requirement>

    constructor (os: string)
      ensures this.os == os && requirements == []
      ensures forall o :: o in options && options[o] == Default(o)
    {
      this.os := os;
      options := map o | true :: Default(o);
      requirements := [];
    }

    /** `config_options`: off Windows, `module_win` no longer exists. */
    method ConfigOptions()
      modifies this
      ensures options == old(options) - (if os != "Windows" then {ModuleWin} else {})
      ensures requirements == old(requirements)
    {
      if os != "Windows" {
        options := options - {ModuleWin};
      }
    }

    /** `requirements`: one `requires` call per needed package, in the recipe's order. */
    method Requirements()
      requires ModuleNet in options && ModuleWx in options && Tests in options
      modifies this
      ensures options == old(options)
      ensures requirements == old(requirements) + RequiredPackages(options)
    {
      requirements := requirements + [Glog];
      if options[ModuleNet] {
        requirements := requirements + [Libcurl];
      }
      if options[ModuleWx] {
        requirements := requirements + [Wxwidgets];
      }
      if options[Tests] {
        requirements := requirements + [Gtest];
        requirements := requirements + [Benchmark];
      }
    }

    /** `generate`: the cache variables, one assignment at a time. */
    method Generate() returns (cacheVariables: map<CacheVariable, bool>)
      requires forall o :: Applicable(os, o) ==> o in options
      ensures cacheVariables == CacheVariables(os, options)
    {
      cacheVariables := map[];
      cacheVariables := cacheVariables[BuildModuleNet := options[ModuleNet]];
      if os == "Windows" {
        cacheVariables := cacheVariables[BuildModuleWin := options[ModuleWin]];
      }
      cacheVariables := cacheVariables[BuildModuleWx := options[ModuleWx]];
      cacheVariables := cacheVariables[BuildExamples := options[Examples]];
      cacheVariables := cacheVariables[BuildTests := options[Tests]];
      cacheVariables := cacheVariables[BuildPerformanceTests := options[Tests]];
      cacheVariables := cacheVariables[BuildDocs := options[Docs]];
      cacheVariables := cacheVariables[ClangTidy := options[WithTidy]];
      cacheVariables := cacheVariables[BuildAsan := options[WithAsan]];
      cacheVariables := cacheVariables[BuildTsan := options[WithTsan]];
    }
  }

  /** The products of one successful invocation. */
  datatype Configuration = Configuration(options: map<OptionName, bool>, requirements: seq<Requirement>, cacheVariables: map<CacheVariable, bool>)

  /**
   * One invocation: resolve the options of `os`, validate, then derive the
   * requirements and the cache variables. Any failure aborts with nothing
   * produced.
   */
  function Configure(os: string, overrides: seq<Override>, cppStd17Ok: bool): (r: Result<Configuration, RecipeError>)
  {
    match ResolveOptions(os, overrides)
    case Err(e) => Err(e)
    case Ok(opts) =>
      PrunedDefaultsKeys(os);
      match Validate(os, opts, cppStd17Ok)
      case Err(e) => Err(e)
      case Ok(_) => Ok(Configuration(opts, RequiredPackages(opts), CacheVariables(os, opts)))
  }

  /**
   * Configuration succeeds exactly when every override is acceptable, the
   * system is supported, the sanitizers do not clash and C++17 is available;
   * an unsupported system is reported before anything else `validate` checks.
   */
  lemma ConfigureOutcome(os: string, overrides: seq<Override>, cppStd17Ok: bool)
    ensures Configure(os, overrides, cppStd17Ok).Ok? <==>
              (forall i :: 0 <= i < |overrides| ==> Acceptable(os, overrides[i]))
              && os in SupportedOs && cppStd17Ok
              && ResolveOptions(os, overrides).Ok?
              && var opts := ResolveOptions(os, overrides).value;
                 !(opts[WithAsan] && opts[WithTsan])
    ensures Configure(os, overrides, cppStd17Ok).Ok? ==>
              var c := Configure(os, overrides, cppStd17Ok).value;
              (forall o :: o in c.options <==> Applicable(os, o)) && !(c.options[WithAsan] && c.options[WithTsan])
    ensures (forall i :: 0 <= i < |overrides| ==> Acceptable(os, overrides[i])) && os !in SupportedOs ==>
              Configure(os, overrides, cppStd17Ok) == Err(UnsupportedOs)
  {
    PrunedDefaultsKeys(os);
    ApplyOverridesSucceedsIff(os, PrunedDefaults(os), overrides);
  }
}
