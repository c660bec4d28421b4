/**
 * The plugin's bootstrap: the single `SmartSite_Optimizer` instance, the
 * PHP and WordPress version gate, and the choice of modules, admin screens
 * and WP-CLI commands made on `plugins_loaded`.
 */
module Plugin {
  import opened Wrappers
  import opened Php
  import opened Host
  import CacheManager
  import Analytics
  import ImageOptimizer
  import AdminInit

  /** `SSO_VERSION` */
  const Version: string := "1.0.0"

  /** The admin notice registered when a requirement is not met. */
  datatype Notice = PhpVersionNotice | WpVersionNotice

  /**
   * What the plugin learns from its environment: the PHP and WordPress
   * versions and `version_compare($a, $b, '<')` (opaque), `is_admin()`, the
   * `WP_CLI` constant when it is defined, the uploads directory, and the
   * host functions the modules are built with.
   */
  datatype Env = Env(
    phpVersion: string,
    wpVersion: string,
    older: (string, string) -> bool,
    isAdmin: bool,
    wpCli: Option<Value>,
    uploads: Path,
    md5: string -> Md5,
    fnmatch: (string, string) -> bool,
    san: Sanitisers,
    webpAvailable: bool,
    probe: string -> ImageOptimizer.ImageType,
    decode: string -> Option<ImageOptimizer.ImageSize>,
    encode: (string, ImageOptimizer.Encoding, (int, int)) -> Option<string>)

  /** `check_requirements`: the notice of the first requirement that fails, none when both hold. */
  function Requirements(env: Env): (r: Option<Notice>)
    ensures r.None? <==> !env.older(env.phpVersion, "7.4") && !env.older(env.wpVersion, "5.8")
    ensures r == Some(PhpVersionNotice) <==> env.older(env.phpVersion, "7.4")
  {
    if env.older(env.phpVersion, "7.4") then Some(PhpVersionNotice)
    else if env.older(env.wpVersion, "5.8") then Some(WpVersionNotice)
    else None
  }

  /** `! isset( $options[flag] ) || ! $options[flag]`: the module's switch is absent or falsy. */
  predicate Enabled(options: Value, flag: string) {
    !IsSet(options, flag) || Empty(Get(options, flag))
  }

  /** A module is built exactly when its switch reads as `empty()`. */
  lemma EnabledIffEmpty(options: Value, flag: string)
    ensures Enabled(options, flag) <==> Empty(Get(options, flag))
  {
  }

  /**
   * Settings saved through the settings page turn a module on exactly when
   * its switch was not posted as a truthy value.
   */
  lemma EnabledAfterSave(san: Sanitisers, input: Value, flag: string)
    requires flag in AdminInit.DisableFlags
    ensures Enabled(AdminInit.SanitizeOptions(san, input), flag) <==> Empty(Get(input, flag))
  {
    AdminInit.SanitizeOptionsFlags(san, input, flag);
  }

  /** `defined( 'WP_CLI' ) && WP_CLI` */
  predicate CliActive(env: Env) {
    env.wpCli.Some? && !Empty(env.wpCli.value)
  }

  /** The commands `load_cli` registers. */
  const Commands: seq<string> := ["sso cache", "sso optimize"]

  class SmartSiteOptimizer {
    const site: Site
    /** The asset manager keeps no state of its own here: whether it was built. */
    var assetManager: bool
    var cacheManager: CacheManager.CacheManager?
    var analytics: Analytics.Analytics?
    var imageOptimizer: ImageOptimizer.ImageOptimizer?
    /** Whether `Admin_Init` was built. */
    var admin: bool
    /** WP-CLI commands registered, in order. */
    var commands: seq<string>
    /** Admin notices registered, in order. */
    var notices: seq<Notice>

    /** The private constructor: no module yet (hook registration is not part of this model). */
    constructor (site: Site)
      ensures this.site == site
      ensures !assetManager && cacheManager == null && analytics == null && imageOptimizer == null
      ensures !admin && commands == [] && notices == []
    {
      this.site := site;
      assetManager := false;
      cacheManager := null;
      analytics := null;
      imageOptimizer := null;
      admin := false;
      commands := [];
      notices := [];
    }

    /** `load_modules`: each module whose switch is off in the stored settings is built. */
    method LoadModules(env: Env)
      modifies this`assetManager, this`cacheManager, this`analytics, this`imageOptimizer
      ensures var options := GetOption(site.options, "sso_options");
        && assetManager == (Enabled(options, "disable_asset_manager") || old(assetManager))
        && (if Enabled(options, "disable_cache")
            then fresh(cacheManager) && cacheManager.site == site
              && cacheManager.options == Section(site.options, "cache")
            else cacheManager == old(cacheManager))
        && (if Enabled(options, "disable_analytics")
            then fresh(analytics) && analytics.site == site
              && analytics.options == Section(site.options, "analytics")
            else analytics == old(analytics))
        && (if Enabled(options, "disable_image_optimizer")
            then fresh(imageOptimizer) && imageOptimizer.site == site
              && imageOptimizer.options == Section(site.options, "image_optimizer")
            else imageOptimizer == old(imageOptimizer))
    {
      var options := GetOption(site.options, "sso_options");
      if Enabled(options, "disable_asset_manager") {
        assetManager := true;
      }
      if Enabled(options, "disable_cache") {
        cacheManager := new CacheManager.CacheManager(site, env.uploads, env.md5, env.fnmatch, env.san);
      }
      if Enabled(options, "disable_analytics") {
        analytics := new Analytics.Analytics(site, env.md5);
      }
      if Enabled(options, "disable_image_optimizer") {
        imageOptimizer := new ImageOptimizer.ImageOptimizer(site, env.webpAvailable, env.probe, env.decode, env.encode);
      }
    }

    /** `init`: the version gate, then modules, admin screens and commands. */
    method Init(env: Env)
      modifies this`assetManager, this`cacheManager, this`analytics, this`imageOptimizer
      modifies this`admin, this`commands, this`notices
      ensures Requirements(env).Some? ==>
        && notices == old(notices) + [Requirements(env).value]
        && assetManager == old(assetManager) && cacheManager == old(cacheManager)
        && analytics == old(analytics) && imageOptimizer == old(imageOptimizer)
        && admin == old(admin) && commands == old(commands)
      ensures Requirements(env).None? ==>
        var options := GetOption(site.options, "sso_options");
        && notices == old(notices)
        && assetManager == (Enabled(options, "disable_asset_manager") || old(assetManager))
        && (Enabled(options, "disable_cache") <==> cacheManager != old(cacheManager))
        && (Enabled(options, "disable_analytics") <==> analytics != old(analytics))
        && (Enabled(options, "disable_image_optimizer") <==> imageOptimizer != old(imageOptimizer))
        && admin == (old(admin) || env.isAdmin)
        && commands == old(commands) + if CliActive(env) then Commands else []
    {
      var notice := CheckRequirements(env);
      if notice.Some? {
        return;
      }
      LoadModules(env);
      LoadAdmin(env);
      LoadCli(env);
    }

    /** `check_requirements`, registering the notice of a failed requirement. */
    method CheckRequirements(env: Env) returns (notice: Option<Notice>)
      modifies this`notices
      ensures notice == Requirements(env)
      ensures notices == old(notices) + if notice.Some? then [notice.value] else []
    {
      if env.older(env.phpVersion, "7.4") {
        notices := notices + [PhpVersionNotice];
        return Some(PhpVersionNotice);
      }
      if env.older(env.wpVersion, "5.8") {
        notices := notices + [WpVersionNotice];
        return Some(WpVersionNotice);
      }
      return None;
    }

    /** `load_admin` */
    method LoadAdmin(env: Env)
      modifies this`admin
      ensures admin == (old(admin) || env.isAdmin)
    {
      if env.isAdmin {
        admin := true;
      }
    }

    /** `load_cli` */
    method LoadCli(env: Env)
      modifies this`commands
      ensures commands == old(commands) + if CliActive(env) then Commands else []
    {
      if env.wpCli.Some? && !Empty(env.wpCli.value) {
        commands := commands + ["sso cache", "sso optimize"];
      }
    }
  }

  /** The static `$instance` slot of the class. */
  class Registry {
    var instance: SmartSiteOptimizer?

    constructor ()
      ensures instance == null
    {
      instance := null;
    }

    /** `get_instance`: the first call builds the plugin, every later call returns it. */
    method GetInstance(site: Site) returns (plugin: SmartSiteOptimizer)
      modifies this
      ensures instance == plugin
      ensures old(instance) != null ==> plugin == old(instance)
      ensures old(instance) == null ==> fresh(plugin) && plugin.site == site
    {
      if instance == null {
        instance := new SmartSiteOptimizer(site);
      }
      plugin := instance;
    }

    /** Two calls return one and the same object. */
    method GetInstanceTwice(site: Site) returns (first: SmartSiteOptimizer, second: SmartSiteOptimizer)
      modifies this
      ensures first == second && instance == first
    {
      first := GetInstance(site);
      second := GetInstance(site);
    }
  }
}
