/**
 * The log filter of src/logger/LoggerUtils.ts: a mutable object holding the
 * defaults (`config`) and the explicit domain and level sets plus output
 * switches (`loggerConfig`), and the `shouldLog` decision over them.
 */
module LoggerUtils {
  import opened Wrappers

  /** `LogLevel`. */
  datatype Level = Error | Warning | Info | Debug

  /** `LogDomain`: any string. */
  type Domain = string

  /** The `levelHierarchy` table of `shouldLog`: error 0, warning 1, info 2, debug 3. */
  function Rank(l: Level): (r: nat)
    ensures r <= 3
    ensures l == Error <==> r == 0
    ensures l == Warning <==> r == 1
    ensures l == Info <==> r == 2
    ensures l == Debug <==> r == 3
  {
    match l
    case Error => 0
    case Warning => 1
    case Info => 2
    case Debug => 3
  }

  /** `LoggerUtilsConfig`. */
  datatype UtilsConfig = UtilsConfig(defaultLevel: Level, defaultDomain: Domain,
                                     enableAllDomains: bool, enableAllLevels: bool)

  /** `LoggerConfig`. */
  datatype LoggerConfig = LoggerConfig(enabledDomains: set<Domain>, enabledLevels: set<Level>,
                                       enableTimestamp: bool, enableConsole: bool)

  /** `Partial<LoggerUtilsConfig>`: a key that is absent is `None`. */
  datatype UtilsOptions = UtilsOptions(defaultLevel: Option<Level>, defaultDomain: Option<Domain>,
                                       enableAllDomains: Option<bool>, enableAllLevels: Option<bool>)

  /** `Partial<LoggerConfig>`, the argument of `updateConfig`. */
  datatype ConfigUpdate = ConfigUpdate(enabledDomains: Option<set<Domain>>, enabledLevels: Option<set<Level>>,
                                       enableTimestamp: Option<bool>, enableConsole: Option<bool>)

  /** The constructor's argument when none is given. */
  const NoOptions := UtilsOptions(None, None, None, None)

  function GetOr<T>(o: Option<T>, default: T): (r: T)
    ensures o.Some? ==> r == o.value
    ensures o.None? ==> r == default
  {
    if o.Some? then o.value else default
  }

  /** `{ defaultLevel: 'info', defaultDomain: 'app', enableAllDomains: true, enableAllLevels: true, ...options }`. */
  function Merged(o: UtilsOptions): (c: UtilsConfig)
    ensures o.defaultLevel.Some? ==> c.defaultLevel == o.defaultLevel.value
    ensures o.defaultLevel.None? ==> c.defaultLevel == Info
    ensures o.defaultDomain.Some? ==> c.defaultDomain == o.defaultDomain.value
    ensures o.defaultDomain.None? ==> c.defaultDomain == "app"
    ensures o.enableAllDomains.Some? ==> c.enableAllDomains == o.enableAllDomains.value
    ensures o.enableAllDomains.None? ==> c.enableAllDomains
    ensures o.enableAllLevels.Some? ==> c.enableAllLevels == o.enableAllLevels.value
    ensures o.enableAllLevels.None? ==> c.enableAllLevels
  {
    UtilsConfig(GetOr(o.defaultLevel, Info), GetOr(o.defaultDomain, "app"),
                GetOr(o.enableAllDomains, true), GetOr(o.enableAllLevels, true))
  }

  /** The `loggerConfig` a fresh object (or `resetConfig`) ends with once `initializeDefaults` has run under `c`. */
  function Initialized(c: UtilsConfig): (lc: LoggerConfig)
    ensures lc.enableTimestamp && lc.enableConsole
    ensures c.enableAllDomains <==> lc.enabledDomains == {}
    ensures !c.enableAllDomains ==> lc.enabledDomains == {c.defaultDomain}
    ensures c.enableAllLevels <==> lc.enabledLevels == {}
    ensures !c.enableAllLevels ==> lc.enabledLevels == {c.defaultLevel}
  {
    LoggerConfig(if c.enableAllDomains then {} else {c.defaultDomain},
                 if c.enableAllLevels then {} else {c.defaultLevel},
                 true, true)
  }

  /** `isDomainEnabled` over a configuration. */
  predicate DomainEnabled(c: UtilsConfig, lc: LoggerConfig, d: Domain)
    ensures c.enableAllDomains ==> DomainEnabled(c, lc, d)
    ensures !c.enableAllDomains ==> (DomainEnabled(c, lc, d) <==> d in lc.enabledDomains)
  {
    c.enableAllDomains || d in lc.enabledDomains
  }

  /** `isLevelEnabled` over a configuration. */
  predicate LevelEnabled(c: UtilsConfig, lc: LoggerConfig, l: Level)
    ensures c.enableAllLevels ==> LevelEnabled(c, lc, l)
    ensures !c.enableAllLevels ==> (LevelEnabled(c, lc, l) <==> l in lc.enabledLevels)
  {
    c.enableAllLevels || l in lc.enabledLevels
  }

  /** `Math.min(...levels.map(l => levelHierarchy[l]))` for a non-empty level set. */
  function MinRank(levels: set<Level>): (m: nat)
    requires levels != {}
    ensures forall l :: l in levels ==> m <= Rank(l)
    ensures exists l :: l in levels && Rank(l) == m
  {
    if Error in levels then 0
    else if Warning in levels then 1
    else if Info in levels then 2
    else
      var l :| l in levels;
      assert l == Debug;
      3
  }

  /**
   * `shouldLog(level, domain)` over a configuration: the domain must be
   * enabled, and then either every level is admitted or the level is no more
   * severe than some enabled level; it is not required to be enabled itself.
   */
  predicate Admits(c: UtilsConfig, lc: LoggerConfig, level: Level, domain: Domain)
    ensures !DomainEnabled(c, lc, domain) ==> !Admits(c, lc, level, domain)
    ensures DomainEnabled(c, lc, domain) && c.enableAllLevels ==> Admits(c, lc, level, domain)
    ensures !c.enableAllLevels && lc.enabledLevels == {} ==> !Admits(c, lc, level, domain)
    ensures Admits(c, lc, level, domain) <==>
      DomainEnabled(c, lc, domain) &&
      (c.enableAllLevels || exists l :: l in lc.enabledLevels && Rank(l) <= Rank(level))
  {
    if !DomainEnabled(c, lc, domain) then false
    else if c.enableAllLevels then true
    else if lc.enabledLevels == {} then false
    else Rank(level) >= MinRank(lc.enabledLevels)
  }

  /** Admission is monotone toward less severe levels. */
  lemma AdmitsMonotone(c: UtilsConfig, lc: LoggerConfig, more: Level, less: Level, domain: Domain)
    requires Rank(more) <= Rank(less)
    requires Admits(c, lc, more, domain)
    ensures Admits(c, lc, less, domain)
  {
    if !c.enableAllLevels {
      var l :| l in lc.enabledLevels && Rank(l) <= Rank(more);
      assert Rank(l) <= Rank(less);
    }
  }

  /** Enabling only `error` (with level filtering on) admits every level in an enabled domain. */
  lemma ErrorAloneAdmitsAll(c: UtilsConfig, lc: LoggerConfig, level: Level, domain: Domain)
    requires Error in lc.enabledLevels
    requires DomainEnabled(c, lc, domain)
    ensures Admits(c, lc, level, domain)
  {
    assert Rank(Error) <= Rank(level);
  }

  /** `shouldLog` can admit a level that `isLevelEnabled` reports as disabled. */
  lemma AdmittedButNotEnabled(domain: Domain)
    ensures var c := UtilsConfig(Info, domain, true, false);
      var lc := LoggerConfig({}, {Warning}, true, true);
      Admits(c, lc, Debug, domain) && !LevelEnabled(c, lc, Debug)
  {
    var lc := LoggerConfig({}, {Warning}, true, true);
    assert Warning in lc.enabledLevels && Rank(Warning) <= Rank(Debug);
  }

  /**
   * After construction or reset: a default configuration admits every level
   * in every domain; with the domain flag off only the default domain is
   * enabled, and with the level flag off exactly the levels at least as
   * verbose as the default level are admitted.
   */
  lemma InitializedFilter(c: UtilsConfig, level: Level, domain: Domain)
    ensures c == Merged(NoOptions) ==> Admits(c, Initialized(c), level, domain)
    ensures !c.enableAllDomains ==> (DomainEnabled(c, Initialized(c), domain) <==> domain == c.defaultDomain)
    ensures !c.enableAllLevels ==> (LevelEnabled(c, Initialized(c), level) <==> level == c.defaultLevel)
    ensures !c.enableAllLevels && DomainEnabled(c, Initialized(c), domain) ==>
      (Admits(c, Initialized(c), level, domain) <==> Rank(c.defaultLevel) <= Rank(level))
  {
  }

  /** `Array.from(set)`: the elements once each; insertion order is not modelled. */
  method ToSeq<T>(s: set<T>) returns (q: seq<T>)
    ensures forall x :: x in q <==> x in s
    ensures forall i, j :: 0 <= i < j < |q| ==> q[i] != q[j]
  {
    q := [];
    var rest := s;
    while rest != {}
      invariant forall x :: x in s <==> x in q || x in rest
      invariant forall x :: x in q ==> x !in rest
      invariant forall i, j :: 0 <= i < j < |q| ==> q[i] != q[j]
      decreases rest
    {
      var x :| x in rest;
      q := q + [x];
      rest := rest - {x};
    }
  }

  class LoggerUtils {
    var config: UtilsConfig
    var loggerConfig: LoggerConfig

    /** `new LoggerUtils(options)`: merge the options into the defaults, then `initializeDefaults`. */
    constructor(options: UtilsOptions)
      ensures config == Merged(options)
      ensures loggerConfig == Initialized(config)
    {
      config := Merged(options);
      loggerConfig := LoggerConfig({}, {}, true, true);
      new;
      InitializeDefaults();
    }

    /**
     * `initializeDefaults`: clear the explicit domains if all domains are on,
     * otherwise add the default domain; the same for levels.
     */
    method InitializeDefaults()
      modifies this
      ensures config == old(config)
      ensures loggerConfig == old(loggerConfig).(
        enabledDomains := if config.enableAllDomains then {} else old(loggerConfig.enabledDomains) + {config.defaultDomain},
        enabledLevels := if config.enableAllLevels then {} else old(loggerConfig.enabledLevels) + {config.defaultLevel})
    {
      if config.enableAllDomains {
        EnableAllDomains();
      } else {
        EnableDomain(config.defaultDomain);
      }
      if config.enableAllLevels {
        EnableAllLevels();
      } else {
        EnableLevel(config.defaultLevel);
      }
    }

    /** `isDomainEnabled`. */
    predicate IsDomainEnabled(d: Domain)
      reads this
      ensures config.enableAllDomains ==> IsDomainEnabled(d)
      ensures !config.enableAllDomains ==> (IsDomainEnabled(d) <==> d in loggerConfig.enabledDomains)
    {
      DomainEnabled(config, loggerConfig, d)
    }

    /** `isLevelEnabled`. */
    predicate IsLevelEnabled(l: Level)
      reads this
      ensures config.enableAllLevels ==> IsLevelEnabled(l)
      ensures !config.enableAllLevels ==> (IsLevelEnabled(l) <==> l in loggerConfig.enabledLevels)
    {
      LevelEnabled(config, loggerConfig, l)
    }

    /** `shouldLog`: the domain gate, then the all-levels switch, then the severity comparison. */
    predicate ShouldLog(level: Level, domain: Domain)
      reads this
      ensures ShouldLog(level, domain) ==> IsDomainEnabled(domain)
      ensures IsDomainEnabled(domain) && config.enableAllLevels ==> ShouldLog(level, domain)
      ensures ShouldLog(level, domain) && !config.enableAllLevels ==>
        exists l :: l in loggerConfig.enabledLevels && Rank(l) <= Rank(level)
      ensures IsDomainEnabled(domain) && level in loggerConfig.enabledLevels ==> ShouldLog(level, domain)
    {
      Admits(config, loggerConfig, level, domain)
    }

    /** `enableDomain`: adding a domain already present changes nothing. */
    method EnableDomain(d: Domain)
      modifies this`loggerConfig
      ensures loggerConfig == old(loggerConfig).(enabledDomains := old(loggerConfig.enabledDomains) + {d})
      ensures IsDomainEnabled(d)
      ensures old(d in loggerConfig.enabledDomains) ==> loggerConfig == old(loggerConfig)
    {
      loggerConfig := loggerConfig.(enabledDomains := loggerConfig.enabledDomains + {d});
    }

    /** `disableDomain`: afterwards `d` is enabled exactly when all domains are; in that mode nothing observable changes. */
    method DisableDomain(d: Domain)
      modifies this`loggerConfig
      ensures loggerConfig == old(loggerConfig).(enabledDomains := old(loggerConfig.enabledDomains) - {d})
      ensures IsDomainEnabled(d) <==> config.enableAllDomains
      ensures config.enableAllDomains ==> forall x :: IsDomainEnabled(x)
    {
      loggerConfig := loggerConfig.(enabledDomains := loggerConfig.enabledDomains - {d});
    }

    /** `enableAllDomains`: empty the explicit set and turn the flag on. */
    method EnableAllDomains()
      modifies this
      ensures config == old(config).(enableAllDomains := true)
      ensures loggerConfig == old(loggerConfig).(enabledDomains := {})
      ensures forall x :: IsDomainEnabled(x)
    {
      loggerConfig := loggerConfig.(enabledDomains := {});
      config := config.(enableAllDomains := true);
    }

    /** `disableAllDomains`: empty the explicit set and turn the flag off, so no domain is enabled. */
    method DisableAllDomains()
      modifies this
      ensures config == old(config).(enableAllDomains := false)
      ensures loggerConfig == old(loggerConfig).(enabledDomains := {})
      ensures forall x :: !IsDomainEnabled(x) && !ShouldLog(Error, x)
    {
      loggerConfig := loggerConfig.(enabledDomains := {});
      config := config.(enableAllDomains := false);
    }

    /** `getEnabledDomains`. */
    method GetEnabledDomains() returns (ds: seq<Domain>)
      ensures forall x :: x in ds <==> x in loggerConfig.enabledDomains
      ensures forall i, j :: 0 <= i < j < |ds| ==> ds[i] != ds[j]
    {
      ds := ToSeq(loggerConfig.enabledDomains);
    }

    /** `enableLevel`: adding a level already present changes nothing. */
    method EnableLevel(l: Level)
      modifies this`loggerConfig
      ensures loggerConfig == old(loggerConfig).(enabledLevels := old(loggerConfig.enabledLevels) + {l})
      ensures IsLevelEnabled(l)
      ensures old(l in loggerConfig.enabledLevels) ==> loggerConfig == old(loggerConfig)
    {
      loggerConfig := loggerConfig.(enabledLevels := loggerConfig.enabledLevels + {l});
    }

    /** `disableLevel`: afterwards `l` is enabled exactly when all levels are. */
    method DisableLevel(l: Level)
      modifies this`loggerConfig
      ensures loggerConfig == old(loggerConfig).(enabledLevels := old(loggerConfig.enabledLevels) - {l})
      ensures IsLevelEnabled(l) <==> config.enableAllLevels
    {
      loggerConfig := loggerConfig.(enabledLevels := loggerConfig.enabledLevels - {l});
    }

    /** `enableAllLevels`: empty the explicit set and turn the flag on. */
    method EnableAllLevels()
      modifies this
      ensures config == old(config).(enableAllLevels := true)
      ensures loggerConfig == old(loggerConfig).(enabledLevels := {})
      ensures forall l :: IsLevelEnabled(l)
      ensures forall l, d :: ShouldLog(l, d) <==> IsDomainEnabled(d)
    {
      loggerConfig := loggerConfig.(enabledLevels := {});
      config := config.(enableAllLevels := true);
      forall l, d ensures ShouldLog(l, d) <==> IsDomainEnabled(d) {
        assert DomainEnabled(config, loggerConfig, d) ==> Admits(config, loggerConfig, l, d);
      }
    }

    /** `disableAllLevels`: empty the explicit set and turn the flag off, so nothing is logged. */
    method DisableAllLevels()
      modifies this
      ensures config == old(config).(enableAllLevels := false)
      ensures loggerConfig == old(loggerConfig).(enabledLevels := {})
      ensures forall l :: !IsLevelEnabled(l)
      ensures forall l, d :: !ShouldLog(l, d)
    {
      loggerConfig := loggerConfig.(enabledLevels := {});
      config := config.(enableAllLevels := false);
      forall l, d ensures !ShouldLog(l, d) {
        assert !Admits(config, loggerConfig, l, d);
      }
    }

    /** `getEnabledLevels`. */
    method GetEnabledLevels() returns (ls: seq<Level>)
      ensures forall x :: x in ls <==> x in loggerConfig.enabledLevels
      ensures forall i, j :: 0 <= i < j < |ls| ==> ls[i] != ls[j]
    {
      ls := ToSeq(loggerConfig.enabledLevels);
    }

    /** `getConfig`: a copy of the output configuration. */
    function GetConfig(): (lc: LoggerConfig)
      reads this
      ensures lc.enabledDomains == loggerConfig.enabledDomains && lc.enabledLevels == loggerConfig.enabledLevels
      ensures lc.enableTimestamp == loggerConfig.enableTimestamp && lc.enableConsole == loggerConfig.enableConsole
    {
      loggerConfig
    }

    /** `updateConfig`: overwrite exactly the fields given. */
    method UpdateConfig(u: ConfigUpdate)
      modifies this`loggerConfig
      ensures loggerConfig == LoggerConfig(
        GetOr(u.enabledDomains, old(loggerConfig.enabledDomains)),
        GetOr(u.enabledLevels, old(loggerConfig.enabledLevels)),
        GetOr(u.enableTimestamp, old(loggerConfig.enableTimestamp)),
        GetOr(u.enableConsole, old(loggerConfig.enableConsole)))
    {
      if u.enabledDomains.Some? {
        loggerConfig := loggerConfig.(enabledDomains := u.enabledDomains.value);
      }
      if u.enabledLevels.Some? {
        loggerConfig := loggerConfig.(enabledLevels := u.enabledLevels.value);
      }
      if u.enableTimestamp.Some? {
        loggerConfig := loggerConfig.(enableTimestamp := u.enableTimestamp.value);
      }
      if u.enableConsole.Some? {
        loggerConfig := loggerConfig.(enableConsole := u.enableConsole.value);
      }
    }

    /** `resetConfig`: fresh output configuration, then the defaults of the current flags. */
    method ResetConfig()
      modifies this
      ensures config == old(config)
      ensures loggerConfig == Initialized(config)
      ensures loggerConfig.enableTimestamp && loggerConfig.enableConsole
    {
      loggerConfig := LoggerConfig({}, {}, true, true);
      InitializeDefaults();
    }

    /** `setDefaultDomain`: takes effect on the filter only at the next reset. */
    method SetDefaultDomain(d: Domain)
      modifies this`config
      ensures config == old(config).(defaultDomain := d)
      ensures GetDefaultDomain() == d
    {
      config := config.(defaultDomain := d);
    }

    /** `setDefaultLevel`: takes effect on the filter only at the next reset. */
    method SetDefaultLevel(l: Level)
      modifies this`config
      ensures config == old(config).(defaultLevel := l)
      ensures GetDefaultLevel() == l
    {
      config := config.(defaultLevel := l);
    }

    /** `getDefaultDomain`. */
    function GetDefaultDomain(): (d: Domain)
      reads this
      ensures d == config.defaultDomain
    {
      config.defaultDomain
    }

    /** `getDefaultLevel`. */
    function GetDefaultLevel(): (l: Level)
      reads this
      ensures l == config.defaultLevel
    {
      config.defaultLevel
    }
  }
}
