/**
 * The plugin bootstrap `WC_SGTM_Webhook` (wc-sgtm-webhook.php): activation seeds the default
 * options without overwriting any, and `init` loads the components only when WooCommerce is
 * present, the admin and AJAX ones only in the admin area.
 */
module Bootstrap {
  import opened Wrappers
  import opened Helpers

  /** `WC_SGTM_VERSION`. */
  const PluginVersion := "3.0.0"

  /** The option defaults `activate` seeds, in their order. */
  const Defaults: seq<(string, string)> := [
    ("wc_sgtm_webhook_enabled", "no"),
    ("wc_sgtm_debug_mode", "no"),
    ("wc_sgtm_webhook_url", ""),
    ("wc_sgtm_container_id", ""),
    ("wc_sgtm_webhook_token", ""),
    ("wc_sgtm_version", PluginVersion)]

  /** The options after `add_option` of each pair of `defaults` in turn, for those `get_option` does not find. */
  function Seeded(opts: Options, defaults: seq<(string, string)>): Options {
    if defaults == [] then opts
    else
      var before := Seeded(opts, defaults[..|defaults| - 1]);
      var (key, value) := defaults[|defaults| - 1];
      if key in before then before else before[key := value]
  }

  /** The value the first pair of `defaults` with this key gives it, if any. */
  function DefaultOf(defaults: seq<(string, string)>, key: string): Option<string> {
    if defaults == [] then None
    else
      var before := DefaultOf(defaults[..|defaults| - 1], key);
      if before.Some? then before
      else if defaults[|defaults| - 1].0 == key then Some(defaults[|defaults| - 1].1)
      else None
  }

  /**
   * Seeding never overwrites: a key already set keeps its value, a missing key with a default
   * gets the first default given for it, and no other key appears.
   */
  lemma {:induction false} SeededSpec(opts: Options, defaults: seq<(string, string)>, key: string)
    ensures key in opts ==> key in Seeded(opts, defaults) && Seeded(opts, defaults)[key] == opts[key]
    ensures key !in opts ==> (key in Seeded(opts, defaults) <==> DefaultOf(defaults, key).Some?)
    ensures key !in opts && key in Seeded(opts, defaults) ==> Seeded(opts, defaults)[key] == DefaultOf(defaults, key).value
  {
    if defaults != [] {
      SeededSpec(opts, defaults[..|defaults| - 1], key);
    }
  }

  /** A key no pair names has no default. */
  lemma {:induction false} DefaultOfAbsent(defaults: seq<(string, string)>, key: string)
    requires forall j :: 0 <= j < |defaults| ==> defaults[j].0 != key
    ensures DefaultOf(defaults, key).None?
  {
    if defaults != [] {
      DefaultOfAbsent(defaults[..|defaults| - 1], key);
    }
  }

  /** With distinct keys, each pair gives its key its value. */
  lemma {:induction false} DefaultOfDistinct(defaults: seq<(string, string)>, i: int)
    requires forall j, k :: 0 <= j < k < |defaults| ==> defaults[j].0 != defaults[k].0
    requires 0 <= i < |defaults|
    ensures DefaultOf(defaults, defaults[i].0) == Some(defaults[i].1)
  {
    var front := defaults[..|defaults| - 1];
    if i < |front| {
      DefaultOfDistinct(front, i);
    } else {
      DefaultOfAbsent(front, defaults[i].0);
    }
  }

  /**
   * Activation with WooCommerce present leaves every existing option as it was, and every
   * default key absent before gets its default, the version among them.
   */
  lemma ActivationSeedsAll(opts: Options, i: int)
    requires 0 <= i < |Defaults|
    ensures forall key :: key in opts ==> key in Seeded(opts, Defaults) && Seeded(opts, Defaults)[key] == opts[key]
    ensures Defaults[i].0 in Seeded(opts, Defaults)
    ensures Defaults[i].0 !in opts ==> Seeded(opts, Defaults)[Defaults[i].0] == Defaults[i].1
  {
    forall key | key in opts
      ensures key in Seeded(opts, Defaults) && Seeded(opts, Defaults)[key] == opts[key]
    {
      SeededSpec(opts, Defaults, key);
    }
    SeededSpec(opts, Defaults, Defaults[i].0);
    DefaultOfDistinct(Defaults, i);
  }

  /** The site as activation sees it: the options table and whether the plugin is active. */
  class Site {
    var options: Options
    var active: bool

    constructor (options: Options)
      ensures this.options == options && active
    {
      this.options := options;
      active := true;
    }

    /**
     * `activate()`: without WooCommerce the plugin is deactivated and the request dies before
     * any option is written; otherwise each default is added when its option is absent.
     */
    method Activate(wooCommerce: bool)
      modifies this
      ensures !wooCommerce ==> !active && options == old(options)
      ensures wooCommerce ==> active == old(active) && options == Seeded(old(options), Defaults)
    {
      if !wooCommerce {
        active := false;
        return;
      }
      var i := 0;
      while i < |Defaults|
        invariant 0 <= i <= |Defaults|
        invariant options == Seeded(old(options), Defaults[..i])
        invariant active == old(active)
      {
        assert Defaults[..i + 1][..i] == Defaults[..i];
        var (key, value) := Defaults[i];
        if key !in options {
          options := options[key := value];
        }
        i := i + 1;
      }
      assert Defaults[..i] == Defaults;
    }
  }

  /** The components `init_components` instantiates. */
  datatype Component = CoreComponent | AdminComponent | AjaxComponent

  /**
   * `init()` on `plugins_loaded`: nothing without WooCommerce; otherwise the dispatcher, and
   * in the admin area the admin page and the AJAX handler as well.
   */
  function Init(wooCommerce: bool, isAdmin: bool): (loaded: set<Component>)
    ensures !wooCommerce ==> loaded == {}
    ensures wooCommerce ==> CoreComponent in loaded
    ensures AdminComponent in loaded <==> wooCommerce && isAdmin
    ensures AjaxComponent in loaded <==> wooCommerce && isAdmin
  {
    if !wooCommerce then {}
    else if isAdmin then {CoreComponent, AdminComponent, AjaxComponent}
    else {CoreComponent}
  }
}
