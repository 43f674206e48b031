/**
 * What both foreground services share: the notification channel, the notification
 * builder and the launch intent it opens, the notification text, the order in which
 * foreground service types are tried, and the part of the platform's `Service`
 * object these touch (stopped or not, the foreground notification shown).
 */
module ServiceBase {
  import opened Wrappers
  import Global

  /** `PackageManager.COMPONENT_ENABLED_STATE_*`. */
  const ComponentStateDefault := 0
  const ComponentStateEnabled := 1
  const ComponentStateDisabled := 2

  /** Android 8 (`O`), 12 (`S`), 14 (`UPSIDE_DOWN_CAKE`) and 10 (`Q`). */
  const SdkO := 26
  const SdkS := 31
  const SdkUpsideDownCake := 34
  const SdkQ := 29

  const ActionMain := "android.intent.action.MAIN"
  const CategoryLauncher := "android.intent.category.LAUNCHER"
  const FlagActivityNewTask: bv32 := 0x1000_0000
  const FlagActivityClearTop: bv32 := 0x0400_0000
  const FlagImmutable: bv32 := 0x0400_0000
  const FlagUpdateCurrent: bv32 := 0x0800_0000

  const DefaultTitle := "Bettbox"
  /** The separator between title and content: space, U+FE19 (presentation form for a vertical ellipsis), space. */
  const Separator := " \U{FE19} "
  const ChannelName := "SERVICE_CHANNEL"
  /** `NotificationManager.IMPORTANCE_LOW`. */
  const ImportanceLow := 2

  /** What `getComponentEnabledSetting` answered, or that it threw. */
  datatype SettingQuery = Setting(state: int) | SettingThrew

  /** What `getActivityInfo` answered for the light launcher activity, or that it threw. */
  datatype ManifestQuery = ManifestEnabled(enabled: bool) | ManifestThrew

  /** The two launcher activities of the app (the default and the light icon). */
  datatype Activity = MainActivity | MainActivityLight

  /** The component setting of an activity; a lookup that throws counts as the default state. */
  function EnabledState(q: SettingQuery): (state: int)
    ensures q.SettingThrew? ==> state == ComponentStateDefault
  {
    if q.SettingThrew? then ComponentStateDefault else q.state
  }

  /**
   * The activity the notification opens: an explicit setting of the light activity
   * decides first, then one of the default activity, then the manifest; any doubt
   * falls back to the default activity.
   */
  function LaunchTarget(defaultQuery: SettingQuery, lightQuery: SettingQuery, manifest: ManifestQuery): (a: Activity)
    ensures EnabledState(lightQuery) == ComponentStateEnabled ==> a == MainActivityLight
    ensures EnabledState(lightQuery) == ComponentStateDisabled ==> a == MainActivity
  {
    var lightState := EnabledState(lightQuery);
    var defaultState := EnabledState(defaultQuery);
    if lightState == ComponentStateEnabled then MainActivityLight
    else if lightState == ComponentStateDisabled then MainActivity
    else if defaultState == ComponentStateEnabled then MainActivity
    else if defaultState == ComponentStateDisabled then MainActivityLight
    else if manifest == ManifestEnabled(true) then MainActivityLight
    else MainActivity
  }

  /**
   * The light activity is chosen exactly when the light activity is switched on, or
   * nothing switches it off and either the default activity is switched off or the
   * manifest enables it.
   */
  lemma LightTargetExactly(defaultQuery: SettingQuery, lightQuery: SettingQuery, manifest: ManifestQuery)
    ensures LaunchTarget(defaultQuery, lightQuery, manifest) == MainActivityLight <==>
              || EnabledState(lightQuery) == ComponentStateEnabled
              || (EnabledState(lightQuery) != ComponentStateDisabled && EnabledState(defaultQuery) != ComponentStateEnabled
                  && (EnabledState(defaultQuery) == ComponentStateDisabled || manifest == ManifestEnabled(true)))
  {
  }

  /** A lookup that throws decides exactly as the default state would. */
  lemma ThrowingLookupIsDefault(defaultQuery: SettingQuery, lightQuery: SettingQuery, manifest: ManifestQuery)
    ensures LaunchTarget(SettingThrew, lightQuery, manifest) == LaunchTarget(Setting(ComponentStateDefault), lightQuery, manifest)
    ensures LaunchTarget(defaultQuery, SettingThrew, manifest) == LaunchTarget(defaultQuery, Setting(ComponentStateDefault), manifest)
  {
  }

  /** `isLightIconEnabled`: the light activity's setting is ENABLED; false when the lookup throws. */
  function IsLightIconEnabled(lightQuery: SettingQuery): (enabled: bool)
    ensures enabled <==> lightQuery.Setting? && lightQuery.state == ComponentStateEnabled
  {
    EnabledState(lightQuery) == ComponentStateEnabled
  }

  /** When the light icon is enabled the notification opens the light activity, whatever else is set. */
  lemma LightIconOpensLightActivity(defaultQuery: SettingQuery, lightQuery: SettingQuery, manifest: ManifestQuery)
    requires IsLightIconEnabled(lightQuery)
    ensures LaunchTarget(defaultQuery, lightQuery, manifest) == MainActivityLight
  {
  }

  function ActivityClassName(a: Activity): string {
    match a
    case MainActivity => "com.appshub.bettbox.MainActivity"
    case MainActivityLight => "com.appshub.bettbox.MainActivityLight"
  }

  datatype Intent = Intent(packageName: string, className: string, action: string, categories: seq<string>, flags: bv32)

  /** A `PendingIntent.getActivity` with request code 0. */
  datatype PendingIntent = PendingIntent(requestCode: int, intent: Intent, flags: bv32)

  /** The notification builder as `createBettboxNotificationBuilder` configures it. */
  datatype NotificationBuilder = NotificationBuilder(
    channelId: string,
    contentTitle: string,
    contentIntent: PendingIntent,
    categoryService: bool,
    immediate: bool,
    ongoing: bool,
    showWhen: bool,
    onlyAlertOnce: bool)

  /** The flags of the content intent: immutable from Android 12 on, always updating the current one. */
  function PendingIntentFlags(sdk: int): (flags: bv32)
    ensures flags & FlagUpdateCurrent == FlagUpdateCurrent
    ensures flags & FlagImmutable == FlagImmutable <==> sdk >= SdkS
  {
    if sdk >= SdkS then FlagImmutable | FlagUpdateCurrent else FlagUpdateCurrent
  }

  /** The launcher intent that brings the chosen activity to the front in a new task. */
  function LaunchIntent(packageName: string, target: Activity): (i: Intent)
    ensures i.packageName == packageName && i.className == ActivityClassName(target)
    ensures i.action == ActionMain && i.categories == [CategoryLauncher]
    ensures i.flags & FlagActivityNewTask != 0 && i.flags & FlagActivityClearTop != 0
  {
    Intent(packageName, ActivityClassName(target), ActionMain, [CategoryLauncher], FlagActivityNewTask | FlagActivityClearTop)
  }

  /**
   * `createBettboxNotificationBuilder`: an ongoing, silent-after-first-alert service
   * notification on the app's channel, titled "Bettbox", opening the launch target.
   */
  function CreateNotificationBuilder(sdk: int, packageName: string, defaultQuery: SettingQuery,
                                     lightQuery: SettingQuery, manifest: ManifestQuery): (b: NotificationBuilder)
    ensures b.channelId == Global.NotificationChannel && b.contentTitle == DefaultTitle
    ensures b.contentIntent.requestCode == 0 && b.contentIntent.flags == PendingIntentFlags(sdk)
    ensures b.contentIntent.intent == LaunchIntent(packageName, LaunchTarget(defaultQuery, lightQuery, manifest))
    ensures b.categoryService && b.ongoing && !b.showWhen && b.onlyAlertOnce
    ensures b.immediate <==> sdk >= SdkS
  {
    var intent := LaunchIntent(packageName, LaunchTarget(defaultQuery, lightQuery, manifest));
    NotificationBuilder(Global.NotificationChannel, DefaultTitle, PendingIntent(0, intent, PendingIntentFlags(sdk)),
                        true, sdk >= SdkS, true, false, true)
  }

  /**
   * Kotlin's `Char.isWhitespace`: the Unicode space, line and paragraph separators,
   * and the control characters tab to carriage return and U+001C to U+001F.
   */
  predicate IsWhitespace(c: char) {
    || '\t' <= c <= '\r'
    || '\U{1C}' <= c <= '\U{20}'
    || c == '\U{A0}' || c == '\U{1680}'
    || '\U{2000}' <= c <= '\U{200A}'
    || c == '\U{2028}' || c == '\U{2029}' || c == '\U{202F}' || c == '\U{205F}' || c == '\U{3000}'
  }

  /** `isBlank`: empty or only whitespace. */
  predicate IsBlank(s: string) {
    forall i :: 0 <= i < |s| ==> IsWhitespace(s[i])
  }

  /** A non-empty string is blank iff its last character is whitespace and the rest is blank. */
  lemma BlankBack(s: string)
    requires s != []
    ensures IsBlank(s) <==> IsBlank(s[..|s| - 1]) && IsWhitespace(s[|s| - 1])
  {
    if IsBlank(s[..|s| - 1]) && IsWhitespace(s[|s| - 1]) {
      forall i | 0 <= i < |s| - 1 ensures IsWhitespace(s[i]) {
        assert s[i] == s[..|s| - 1][i];
      }
    }
  }

  /** The index of the first non-whitespace character of `s` at or after `i`, or `|s|`. */
  function SkipWhitespace(s: string, i: nat): (n: nat)
    requires i <= |s|
    ensures i <= n <= |s|
    ensures forall k :: i <= k < n ==> IsWhitespace(s[k])
    ensures n < |s| ==> !IsWhitespace(s[n])
    decreases |s| - i
  {
    if i == |s| || !IsWhitespace(s[i]) then i else SkipWhitespace(s, i + 1)
  }

  /** `s` without its leading whitespace. */
  function TrimStart(s: string): (r: string)
    ensures |r| <= |s| && r == s[|s| - |r|..]
    ensures IsBlank(s[..|s| - |r|])
    ensures r != [] ==> !IsWhitespace(r[0])
    ensures r == [] <==> IsBlank(s)
  {
    var n := SkipWhitespace(s, 0);
    assert forall k :: 0 <= k < n ==> s[..n][k] == s[k];
    s[n..]
  }

  /** `s` without its trailing whitespace. */
  function TrimEnd(s: string): (r: string)
    ensures |r| <= |s| && r == s[..|r|]
    ensures IsBlank(s[|r|..])
    ensures r != [] ==> !IsWhitespace(r[|r| - 1])
    ensures r == [] <==> IsBlank(s)
  {
    if s == [] then s
    else if !IsWhitespace(s[|s| - 1]) then
      TrimEndKeeps(s);
      s
    else
      var r := TrimEnd(s[..|s| - 1]);
      TrimEndStep(s, r);
      r
  }

  /** A string that does not end with whitespace is its own trailing trim. */
  lemma TrimEndKeeps(s: string)
    requires s != [] && !IsWhitespace(s[|s| - 1])
    ensures s == s[..|s|] && IsBlank(s[|s|..])
    ensures !IsBlank(s)
  {
  }

  /** Trimming past one trailing whitespace character: what the front keeps, the whole string keeps. */
  lemma TrimEndStep(s: string, r: string)
    requires s != [] && IsWhitespace(s[|s| - 1])
    requires |r| <= |s| - 1 && r == s[..|s| - 1][..|r|]
    requires IsBlank(s[..|s| - 1][|r|..])
    requires r == [] <==> IsBlank(s[..|s| - 1])
    ensures |r| <= |s| && r == s[..|r|]
    ensures IsBlank(s[|r|..])
    ensures r == [] <==> IsBlank(s)
  {
    var dropped := s[|r|..];
    assert dropped[|dropped| - 1] == s[|s| - 1] && dropped[..|dropped| - 1] == s[..|s| - 1][|r|..];
    BlankBack(dropped);
    BlankBack(s);
  }

  /** `trim`: `s` without leading and trailing whitespace. */
  function Trim(s: string): (r: string)
  {
    TrimEnd(TrimStart(s))
  }

  /**
   * The trimmed string is a slice of the original with only whitespace around it,
   * and it neither starts nor ends with whitespace; it is empty exactly when the
   * original is blank.
   */
  lemma TrimIsSlice(s: string)
    ensures exists i, j :: 0 <= i <= j <= |s| && Trim(s) == s[i..j] && IsBlank(s[..i]) && IsBlank(s[j..])
    ensures Trim(s) != [] ==> !IsWhitespace(Trim(s)[0]) && !IsWhitespace(Trim(s)[|Trim(s)| - 1])
    ensures Trim(s) == [] <==> IsBlank(s)
  {
    var t := TrimStart(s);
    var r := TrimEnd(t);
    assert Trim(s) == r;
    var i := |s| - |t|;
    var j := i + |r|;
    assert s[i..j] == r by {
      assert t == s[i..] && r == t[..|r|];
    }
    assert IsBlank(s[j..]) by {
      assert s[j..] == t[|r|..];
    }
    assert IsBlank(t) <==> t == [] by {
      if t != [] {
        assert !IsWhitespace(t[0]);
      }
    }
    if r != [] {
      assert r[0] == t[0];
    }
  }

  /** Trimming twice trims nothing more. */
  lemma TrimIdempotent(s: string)
    ensures Trim(Trim(s)) == Trim(s)
  {
    TrimIsSlice(s);
    var r := Trim(s);
    if r != [] {
      assert TrimStart(r) == r;
      assert TrimEnd(r) == r;
    }
  }

  /** The notification's title line, and where the smaller (80%) part of it starts, if any. */
  datatype NotificationTitle = NotificationTitle(text: string, smallFrom: Option<nat>)

  /**
   * The title line both services show: a blank title becomes "Bettbox"; the content is
   * trimmed; with no content left the title alone is shown, otherwise title,
   * separator and content, with the content drawn smaller.
   */
  function NotificationText(title: string, content: string): (n: NotificationTitle)
    ensures n.smallFrom.Some? ==> n.smallFrom.value < |n.text|
  {
    var safeTitle := if IsBlank(title) then DefaultTitle else title;
    var safeContent := Trim(content);
    if IsBlank(safeContent) then NotificationTitle(safeTitle, None)
    else
      var combined := safeTitle + Separator + safeContent;
      var start := |safeTitle| + |Separator|;
      NotificationTitle(combined, if start < |combined| then Some(start) else None)
  }

  /**
   * The notification line is never blank; it starts with the title (or "Bettbox");
   * content that is blank after trimming adds nothing; otherwise exactly the trimmed
   * content follows the separator and is the part drawn smaller, which the length
   * guard of the source always lets through.
   */
  lemma NotificationTextShape(title: string, content: string)
    ensures var n := NotificationText(title, content);
            var safeTitle := if IsBlank(title) then DefaultTitle else title;
            && !IsBlank(n.text)
            && |safeTitle| <= |n.text| && n.text[..|safeTitle|] == safeTitle
            && (IsBlank(content) <==> n.smallFrom.None?)
            && (IsBlank(content) ==> n.text == safeTitle)
            && (!IsBlank(content) ==>
                  (&& n.smallFrom == Some(|safeTitle| + 3)
                   && n.text[|safeTitle|..|safeTitle| + 3] == Separator
                   && n.text[|safeTitle| + 3..] == Trim(content)))
  {
    var n := NotificationText(title, content);
    var safeTitle := if IsBlank(title) then DefaultTitle else title;
    TrimIsSlice(content);
    var t := Trim(content);
    assert IsBlank(t) <==> t == [] by {
      if t != [] {
        assert !IsWhitespace(t[0]);
      }
    }
    if !IsBlank(title) {
      assert !IsBlank(n.text) by {
        var k :| 0 <= k < |title| && !IsWhitespace(title[k]);
        assert n.text[k] == title[k];
      }
    } else {
      assert !IsBlank(n.text) by {
        assert n.text[0] == 'B';
      }
    }
  }

  /** The foreground service types a `startForeground` can ask for. */
  datatype ForegroundType = SpecialUse | DataSync | Untyped

  /** The order the two services try types in: special use, then data sync, then none, from Android 14 on. */
  function ServiceForegroundTypes(sdk: int): (types: seq<ForegroundType>)
    ensures types != [] && types[|types| - 1] == Untyped
    ensures sdk < SdkUpsideDownCake <==> types == [Untyped]
  {
    if sdk >= SdkUpsideDownCake then [SpecialUse, DataSync, Untyped] else [Untyped]
  }

  /** The order the shared `Service.startForeground(notification)` extension tries types in. */
  function ExtensionForegroundTypes(sdk: int): (types: seq<ForegroundType>)
    ensures types != [] && types[|types| - 1] == Untyped && SpecialUse !in types
    ensures sdk < SdkUpsideDownCake <==> types == [Untyped]
  {
    if sdk >= SdkUpsideDownCake then [DataSync, Untyped] else [Untyped]
  }

  /**
   * The position of the first type the platform accepts, trying them in order;
   * `None` when it refuses them all (the last refusal propagates).
   */
  function FirstAccepted(types: seq<ForegroundType>, refused: set<ForegroundType>): (k: Option<nat>)
    ensures k.Some? ==> k.value < |types| && types[k.value] !in refused
    ensures k.Some? ==> forall j :: 0 <= j < k.value ==> types[j] in refused
    ensures k.None? <==> forall j :: 0 <= j < |types| ==> types[j] in refused
  {
    if types == [] then None
    else if types[0] !in refused then Some(0)
    else
      match FirstAccepted(types[1..], refused)
      case None => None
      case Some(k) => Some(k + 1)
  }

  /** What the launcher activity lookups answer when a builder is created. */
  datatype LauncherQueries = LauncherQueries(defaultQuery: SettingQuery, lightQuery: SettingQuery, manifest: ManifestQuery)

  /** A built notification: the builder's settings and the title line set on it. */
  datatype Notification = Notification(builder: NotificationBuilder, title: NotificationTitle)

  /** A foreground notification as the platform shows it. */
  datatype Foreground = Foreground(id: int, notification: Notification, fgType: ForegroundType)

  /** The platform's `NotificationManager`: the channels registered so far, by id. */
  class NotificationManager {
    var channels: map<string, (string, int)>

    constructor ()
      ensures channels == map[]
    {
      channels := map[];
    }
  }

  /**
   * The part of the platform's `Service` object the services act on: whether it asked
   * to be stopped, the foreground notification it shows, and its notification
   * manager (absent when the system service lookup returns null).
   */
  class ServiceHost {
    const sdk: int
    const packageName: string
    const manager: NotificationManager?
    var selfStopped: bool
    var foreground: Option<Foreground>

    constructor (sdk: int, packageName: string, manager: NotificationManager?)
      ensures this.sdk == sdk && this.packageName == packageName && this.manager == manager
      ensures !selfStopped && foreground.None?
    {
      this.sdk := sdk;
      this.packageName := packageName;
      this.manager := manager;
      selfStopped := false;
      foreground := None;
    }

    /**
     * `ensureNotificationChannel`: from Android 8 on, registers the low-importance
     * service channel unless a channel with its id exists; an existing channel is kept.
     */
    method EnsureNotificationChannel()
      modifies manager
      ensures manager != null ==> (
                if sdk >= SdkO && Global.NotificationChannel !in old(manager.channels) then
                  manager.channels == old(manager.channels)[Global.NotificationChannel := (ChannelName, ImportanceLow)]
                else manager.channels == old(manager.channels))
      ensures manager != null && sdk >= SdkO ==> Global.NotificationChannel in manager.channels
    {
      if sdk >= SdkO && manager != null {
        if Global.NotificationChannel !in manager.channels {
          manager.channels := manager.channels[Global.NotificationChannel := (ChannelName, ImportanceLow)];
        }
      }
    }

    /**
     * Tries the foreground types in order until the platform accepts one. On success
     * the notification is shown with the first accepted type; when every type is
     * refused nothing changes and the failure is reported.
     */
    method StartForegroundTyped(notification: Notification, types: seq<ForegroundType>, refused: set<ForegroundType>)
      returns (started: bool)
      modifies this
      ensures selfStopped == old(selfStopped)
      ensures started <==> FirstAccepted(types, refused).Some?
      ensures started ==> foreground == Some(Foreground(Global.NotificationId, notification, types[FirstAccepted(types, refused).value]))
      ensures !started ==> foreground == old(foreground)
    {
      var i := 0;
      while i < |types| && types[i] in refused
        invariant 0 <= i <= |types|
        invariant forall j :: 0 <= j < i ==> types[j] in refused
      {
        i := i + 1;
      }
      if i == |types| {
        return false;
      }
      foreground := Some(Foreground(Global.NotificationId, notification, types[i]));
      return true;
    }

    /** The shared `Service.startForeground(notification)`: channel first, then data sync and untyped. */
    method StartForegroundWithNotification(notification: Notification, refused: set<ForegroundType>) returns (started: bool)
      modifies this, manager
      ensures selfStopped == old(selfStopped)
      ensures manager != null && sdk >= SdkO ==> Global.NotificationChannel in manager.channels
      ensures started <==> FirstAccepted(ExtensionForegroundTypes(sdk), refused).Some?
      ensures started ==> foreground.Some? && foreground.value.notification == notification && foreground.value.fgType != SpecialUse
      ensures !started ==> foreground == old(foreground)
    {
      EnsureNotificationChannel();
      started := StartForegroundTyped(notification, ExtensionForegroundTypes(sdk), refused);
    }

    /** `Service.stopSelf()` alone: the service asks to be stopped, its notification stays. */
    method StopSelf()
      modifies this`selfStopped
      ensures selfStopped
    {
      selfStopped := true;
    }

    /** The `stop` both services share: `stopSelf()`, and from Android 10 on the notification is removed. */
    method StopService()
      modifies this
      ensures selfStopped
      ensures foreground == if sdk >= SdkQ then None else old(foreground)
    {
      selfStopped := true;
      if sdk >= SdkQ {
        foreground := None;
      }
    }
  }
}
