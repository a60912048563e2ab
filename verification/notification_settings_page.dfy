/** `src/components/NotificationSettings.tsx`: the settings screen edits a
    local copy of the settings, one flat object per category holding
    `enabled` and the configuration keys, and saves it back category by
    category through the settings hook. */
module NotificationSettingsPage {
  import opened Text
  import opened Records
  import opened ListOps
  import opened UseNotificationSettings

  /** The screen's local copy: category to flat fields. */
  type LocalSettings = map<string, Fields>

  /** `{enabled, ...configuration}`: a configuration key named `enabled`
      overrides the column. */
  function Flatten(s: NotificationSetting): Fields
  {
    map["enabled" := BoolValue(s.enabled)] + s.configuration
  }

  /** `enabled` is always present, and is the configuration's own `enabled`
      when it has one; every other key is the configuration's. */
  lemma FlattenSpec(s: NotificationSetting)
    ensures "enabled" in Flatten(s)
    ensures Flatten(s)["enabled"] == if "enabled" in s.configuration then s.configuration["enabled"] else BoolValue(s.enabled)
    ensures forall k :: k != "enabled" ==>
      (k in Flatten(s) <==> k in s.configuration) && (k in s.configuration ==> Flatten(s)[k] == s.configuration[k])
  {
  }

  /** The initialisation effect: once at least one setting has loaded, the
      local copy becomes the flattened settings; before that it is kept. */
  function Initialise(settings: map<string, NotificationSetting>, local: LocalSettings): (r: LocalSettings)
    ensures |settings| == 0 ==> r == local
    ensures |settings| > 0 ==>
      r.Keys == settings.Keys && forall k :: k in settings ==> r[k] == Flatten(settings[k])
  {
    if |settings| > 0 then map k | k in settings :: Flatten(settings[k]) else local
  }

  /** `updateLocalSetting(category, key, value)`; a category not yet present
      starts from no fields. */
  function UpdateLocalSetting(local: LocalSettings, category: string, key: string, value: Value): LocalSettings
  {
    local[category := (if category in local then local[category] else map[])[key := value]]
  }

  /** Only `local[category][key]` changes: the category's other keys and
      every other category are as before. */
  lemma UpdateLocalSettingSpec(local: LocalSettings, category: string, key: string, value: Value)
    ensures var r := UpdateLocalSetting(local, category, key, value);
      r.Keys == local.Keys + {category}
      && key in r[category] && r[category][key] == value
      && (forall k :: k != key ==>
            (k in r[category] <==> category in local && k in local[category])
            && (category in local && k in local[category] ==> r[category][k] == local[category][k]))
      && (forall c :: c != category && c in local ==> r[c] == local[c])
  {
  }

  /** `const { enabled, ...configuration } = config`. */
  function SplitSetting(config: Fields): (Option<Value>, Fields)
  {
    (if "enabled" in config then Some(config["enabled"]) else None, config - {"enabled"})
  }

  /** Initialising and saving unchanged gives back the stored `enabled` and
      configuration, as long as the configuration has no `enabled` key. */
  lemma SaveRoundTrip(s: NotificationSetting)
    requires "enabled" !in s.configuration
    ensures SplitSetting(Flatten(s)) == (Some(BoolValue(s.enabled)), s.configuration)
  {
    assert Flatten(s) - {"enabled"} == s.configuration;
  }

  // ------------------------------------------------------------ reminder days

  /** `localSettings[category]?.reminderDays || []`. */
  function CurrentDays(local: LocalSettings, category: string): seq<int>
  {
    if category in local && "reminderDays" in local[category] && local[category]["reminderDays"].IntListValue?
    then local[category]["reminderDays"].xs
    else []
  }

  function NotDay(day: int): int -> bool { (d: int) => d != day }

  /** The day checkbox: checking appends the day, unchecking removes every
      occurrence of it. */
  function ToggleDay(local: LocalSettings, category: string, day: int, checked: bool): LocalSettings
  {
    var current := CurrentDays(local, category);
    UpdateLocalSetting(local, category, "reminderDays",
                       IntListValue(if checked then current + [day] else Filter(current, NotDay(day))))
  }

  /** Checking appends the day at the end; unchecking removes every
      occurrence of the day and keeps every occurrence of the other days, in
      their order. */
  lemma ToggleDaySpec(local: LocalSettings, category: string, day: int, checked: bool)
    ensures var after := CurrentDays(ToggleDay(local, category, day, checked), category);
      var before := CurrentDays(local, category);
      (checked ==> after == before + [day])
      && (!checked ==>
            IsSubsequence(after, before) && day !in after
            && (forall d :: d in before && d != day ==> d in after)
            && (forall d :: d != day ==> multiset(after)[d] == multiset(before)[d]))
  {
    FilterIsSubsequence(CurrentDays(local, category), NotDay(day));
    FilterMultiplicity(CurrentDays(local, category), NotDay(day));
  }

  /** Checking a day that was not there and unchecking it again restores the
      list. */
  lemma ToggleDayUndo(local: LocalSettings, category: string, day: int)
    requires day !in CurrentDays(local, category)
    ensures CurrentDays(ToggleDay(ToggleDay(local, category, day, true), category, day, false), category)
            == CurrentDays(local, category)
  {
    var before := CurrentDays(local, category);
    FilterAppendDropped(before, day);
  }

  lemma {:induction false} FilterAppendDropped(xs: seq<int>, day: int)
    requires day !in xs
    ensures Filter(xs + [day], NotDay(day)) == xs
  {
    if xs == [] {
      assert Filter([day], NotDay(day)) == Filter([], NotDay(day));
    } else {
      FilterAppendDropped(xs[1..], day);
      assert (xs + [day])[1..] == xs[1..] + [day];
    }
  }

  // ------------------------------------------------------------ save

  /** The number of writes that succeed before the first failure. */
  function LeadingWrites(replies: seq<Reply<NotificationSetting>>): (n: nat)
    ensures n <= |replies|
    ensures forall j :: 0 <= j < n ==> replies[j].Ok?
    ensures n < |replies| ==> replies[n].Err?
  {
    if replies == [] || replies[0].Err? then 0 else 1 + LeadingWrites(replies[1..])
  }

  /** The settings map after the first `n` writes, each successful write
      storing its row under its category. */
  function ApplyWrites(m: map<string, NotificationSetting>, order: seq<string>, replies: seq<Reply<NotificationSetting>>, n: nat)
    : map<string, NotificationSetting>
    requires n <= |order| == |replies|
  {
    if n == 0 then m
    else match replies[n - 1]
      case Ok(data) => ApplyWrites(m, order, replies, n - 1)[order[n - 1] := data]
      case Err(_) => ApplyWrites(m, order, replies, n - 1)
  }

  /** With distinct categories and successful writes, each written category
      holds its returned row and every other key is as before. */
  lemma {:induction false} ApplyWritesSpec(m: map<string, NotificationSetting>, order: seq<string>,
                                           replies: seq<Reply<NotificationSetting>>, n: nat)
    requires n <= |order| == |replies|
    requires forall i, j :: 0 <= i < j < |order| ==> order[i] != order[j]
    requires forall j :: 0 <= j < n ==> replies[j].Ok?
    ensures var r := ApplyWrites(m, order, replies, n);
      (forall j :: 0 <= j < n ==> order[j] in r && r[order[j]] == replies[j].data)
      && (forall k :: k !in order[..n] ==> (k in r <==> k in m) && (k in m ==> r[k] == m[k]))
  {
    if n > 0 {
      ApplyWritesSpec(m, order, replies, n - 1);
      forall k | k !in order[..n] ensures k !in order[..n - 1] && k != order[n - 1]
      {
        assert order[..n] == order[..n - 1] + [order[n - 1]];
      }
    }
  }

  /** The upsert made for one category. */
  function PayloadFor(local: LocalSettings, category: string, now: string): UpsertPayload
    requires category in local
  {
    var split := SplitSetting(local[category]);
    UpsertPayload(category, split.0, split.1, now, "setting_type")
  }

  const SavedAlert := "Settings saved successfully!"
  const SaveFailedAlert := "Failed to save settings. Please try again."

  /** `handleSaveSettings`: the categories are written one after the other,
      in `order` (the order of the local object's keys); the first failing
      write ends the save, and the writes before it stay in effect.
      `replies[i]` is the store's answer to the `i`-th write. */
  method SaveSettings(hook: NotificationSettingsHook, local: LocalSettings, order: seq<string>,
                      replies: seq<Reply<NotificationSetting>>, now: string)
    returns (payloads: seq<UpsertPayload>, alert: string)
    requires |replies| == |order|
    requires forall k :: k in order ==> k in local
    modifies hook
    ensures var n := LeadingWrites(replies);
      |payloads| == (if n < |order| then n + 1 else n)
      && (forall i :: 0 <= i < |payloads| ==> payloads[i] == PayloadFor(local, order[i], now))
      && hook.settings == ApplyWrites(old(hook.settings), order, replies, n)
      && (n == |order| ==> alert == SavedAlert && hook.error == old(hook.error))
      && (n < |order| ==>
            alert == SaveFailedAlert && hook.error == Some(Describe(replies[n].failure, "Failed to update setting")))
  {
    payloads := [];
    var i := 0;
    while i < |order|
      invariant 0 <= i <= |order| && i <= LeadingWrites(replies)
      invariant |payloads| == i
      invariant forall j :: 0 <= j < i ==> payloads[j] == PayloadFor(local, order[j], now)
      invariant hook.settings == ApplyWrites(old(hook.settings), order, replies, i)
      invariant hook.error == old(hook.error)
    {
      var split := SplitSetting(local[order[i]]);
      var payload, outcome := hook.UpdateSetting(order[i], split.0, split.1, now, replies[i]);
      payloads := payloads + [payload];
      if outcome.Err? {
        alert := SaveFailedAlert;
        return;
      }
      i := i + 1;
    }
    alert := SavedAlert;
  }
}
