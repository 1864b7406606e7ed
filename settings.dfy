/** The settings view: a draft copy of the event configuration edited field
    by field and written back by the save button, which needs the
    configuration permission. Without it the view shows only a notice. */
module Settings {
  import opened JsRuntime
  import opened Types
  import opened Store
  import Auth

  class SettingsView {
    const app: AppState
    /** `hasPermission('manage:config')`, fixed when the view is built. */
    const canManageConfig: bool
    var tempConfig: EventConfig
    var isSaved: bool

    /** The draft starts as a copy of the configuration. */
    constructor (app: AppState, auth: Auth.AuthProvider)
      ensures this.app == app && tempConfig == app.config && !isSaved
      ensures canManageConfig == auth.HasPermission(Auth.ManageConfig, None, None)
      ensures !canManageConfig
    {
      this.app := app;
      canManageConfig := auth.HasPermission(Auth.ManageConfig, None, None);
      auth.UnscopedCheckRefused(Auth.ManageConfig);
      tempConfig := app.config;
      isSaved := false;
    }

    /** Without the permission only the restricted-access notice is shown and
        the form's inputs are not rendered. The setters below are modelled
        without that gate: they change only the draft, and `HandleSave`
        checks the permission again before the draft reaches the
        configuration. */
    predicate ShowsRestrictedNotice()
      reads this
    {
      !canManageConfig
    }

    /** `handleSave`: the draft replaces the whole configuration. */
    method HandleSave()
      modifies app`config, this`isSaved
      ensures canManageConfig ==> app.config == tempConfig && isSaved
      ensures !canManageConfig ==> app.config == old(app.config) && isSaved == old(isSaved)
    {
      if !canManageConfig {
        return;
      }
      app.config := tempConfig;
      isSaved := true;
    }

    /** The timer `handleSave` starts: two seconds later the confirmation
        is hidden again; the configuration is left alone. */
    method ClearSaved()
      modifies this`isSaved
      ensures !isSaved
    {
      isSaved := false;
    }

    method SetEventName(v: string)
      modifies this`tempConfig
      ensures tempConfig == old(tempConfig).(eventName := v)
    {
      tempConfig := tempConfig.(eventName := v);
    }

    method SetEventDate(v: string)
      modifies this`tempConfig
      ensures tempConfig == old(tempConfig).(eventDate := v)
    {
      tempConfig := tempConfig.(eventDate := v);
    }

    method SetTargetAttendees(v: int)
      modifies this`tempConfig
      ensures tempConfig == old(tempConfig).(targetAttendees := v)
    {
      tempConfig := tempConfig.(targetAttendees := v);
    }

    method SetTotalBudget(v: int)
      modifies this`tempConfig
      ensures tempConfig == old(tempConfig).(totalBudget := v)
    {
      tempConfig := tempConfig.(totalBudget := v);
    }

    method SetSponsorsTarget(v: int)
      modifies this`tempConfig
      ensures tempConfig == old(tempConfig).(sponsorsTarget := v)
    {
      tempConfig := tempConfig.(sponsorsTarget := v);
    }

    method SetUniversityTarget(v: int)
      modifies this`tempConfig
      ensures tempConfig == old(tempConfig).(universityTarget := v)
    {
      tempConfig := tempConfig.(universityTarget := v);
    }

    method SetStudentTarget(v: int)
      modifies this`tempConfig
      ensures tempConfig == old(tempConfig).(studentTarget := v)
    {
      tempConfig := tempConfig.(studentTarget := v);
    }

    /** A tier's input: that tier's target changes and nothing else. */
    method SetTierTarget(level: Tier, v: int)
      modifies this`tempConfig
      ensures tempConfig == old(tempConfig).(sponsorTargets := tempConfig.sponsorTargets)
      ensures tempConfig.sponsorTargets.Get(level) == v
      ensures forall t :: t != level ==> tempConfig.sponsorTargets.Get(t) == old(tempConfig).sponsorTargets.Get(t)
    {
      tempConfig := tempConfig.(sponsorTargets := tempConfig.sponsorTargets.Set(level, v));
    }
  }
}
