/** `src/hooks/useNotificationSettings.ts`: the notification settings, cached
    as a map from `setting_type` to the stored row. Fetching rebuilds the map
    from the rows (a later row with the same type wins); updating upserts one
    row and replaces only that key. A failed store call leaves the map as it
    was and records the error. */
module UseNotificationSettings {
  import opened Text
  import opened Records

  /** The map built from the first `n` rows: each row is stored under its
      type, overwriting an earlier row of the same type. */
  function SettingsUpTo(rows: seq<NotificationSetting>, n: nat): map<string, NotificationSetting>
    requires n <= |rows|
  {
    if n == 0 then map[] else SettingsUpTo(rows, n - 1)[rows[n - 1].settingType := rows[n - 1]]
  }

  function SettingsMap(rows: seq<NotificationSetting>): map<string, NotificationSetting>
  {
    SettingsUpTo(rows, |rows|)
  }

  /** The keys are exactly the types that occur. */
  lemma {:induction false} SettingsKeys(rows: seq<NotificationSetting>, n: nat)
    requires n <= |rows|
    ensures forall k :: k in SettingsUpTo(rows, n) <==> exists i :: 0 <= i < n && rows[i].settingType == k
  {
    if n > 0 {
      SettingsKeys(rows, n - 1);
      var m := SettingsUpTo(rows, n);
      forall k
        ensures k in m <==> exists i :: 0 <= i < n && rows[i].settingType == k
      {
        if k == rows[n - 1].settingType {
          assert k in m;
        } else if k in m {
          assert k in SettingsUpTo(rows, n - 1);
          var i :| 0 <= i < n - 1 && rows[i].settingType == k;
          assert 0 <= i < n && rows[i].settingType == k;
        } else {
          forall i | 0 <= i < n ensures rows[i].settingType != k
          {
            if i < n - 1 {
              assert k !in SettingsUpTo(rows, n - 1);
            }
          }
        }
      }
    }
  }

  /** Each type maps to the last row of that type. */
  lemma {:induction false} SettingsLast(rows: seq<NotificationSetting>, n: nat, i: nat)
    requires i < n <= |rows|
    requires forall j :: i < j < n ==> rows[j].settingType != rows[i].settingType
    ensures rows[i].settingType in SettingsUpTo(rows, n) && SettingsUpTo(rows, n)[rows[i].settingType] == rows[i]
  {
    if i < n - 1 {
      SettingsLast(rows, n - 1, i);
    }
  }

  /** The row sent by `updateSetting`; the conflict column is always
      `setting_type`. `enabled` is whatever the caller passed (absent when it
      passed `undefined`). */
  datatype UpsertPayload = UpsertPayload(
    settingType: string, enabled: Option<Value>, configuration: Fields, updatedAt: string, onConflict: string)

  class NotificationSettingsHook {
    var settings: map<string, NotificationSetting>
    var loading: bool
    var error: Option<string>

    constructor ()
      ensures settings == map[] && loading && error == None
    {
      settings := map[];
      loading := true;
      error := None;
    }

    /** `fetchSettings`: on success the map is rebuilt from the rows (none
        reads as no rows), folding them in order; on failure only `error`
        changes. */
    method FetchSettings(reply: Reply<Option<seq<NotificationSetting>>>)
      modifies this
      ensures !loading
      ensures reply.Ok? ==>
        settings == SettingsMap(if reply.data.Some? then reply.data.value else []) && error == old(error)
      ensures reply.Err? ==>
        settings == old(settings) && error == Some(Describe(reply.failure, "An error occurred"))
    {
      loading := true;
      match reply {
        case Ok(data) =>
          var rows := if data.Some? then data.value else [];
          var acc: map<string, NotificationSetting> := map[];
          var i := 0;
          while i < |rows|
            invariant 0 <= i <= |rows|
            invariant acc == SettingsUpTo(rows, i)
          {
            acc := acc[rows[i].settingType := rows[i]];
            i := i + 1;
          }
          settings := acc;
        case Err(failure) =>
          error := Some(Describe(failure, "An error occurred"));
      }
      loading := false;
    }

    /** `updateSetting`: upserts the row for `settingType` and, on success,
        stores the returned row under that key; on failure the map is kept,
        `error` is set and the failure is handed back. */
    method UpdateSetting(settingType: string, enabled: Option<Value>, configuration: Fields, now: string,
                         reply: Reply<NotificationSetting>)
      returns (payload: UpsertPayload, outcome: Reply<NotificationSetting>)
      modifies this
      ensures payload == UpsertPayload(settingType, enabled, configuration, now, "setting_type")
      ensures outcome == reply && loading == old(loading)
      ensures reply.Ok? ==> settings == old(settings)[settingType := reply.data] && error == old(error)
      ensures reply.Err? ==>
        settings == old(settings) && error == Some(Describe(reply.failure, "Failed to update setting"))
    {
      payload := UpsertPayload(settingType, enabled, configuration, now, "setting_type");
      match reply {
        case Ok(data) =>
          settings := settings[settingType := data];
        case Err(failure) =>
          error := Some(Describe(failure, "Failed to update setting"));
      }
      outcome := reply;
    }
  }

  /** A successful update touches only its own key: every other key is
      present and mapped as before. */
  lemma UpsertKeepsOthers(settings: map<string, NotificationSetting>, settingType: string, row: NotificationSetting)
    ensures settingType in settings[settingType := row] && settings[settingType := row][settingType] == row
    ensures forall k :: k != settingType ==>
      (k in settings[settingType := row] <==> k in settings)
      && (k in settings ==> settings[settingType := row][k] == settings[k])
  {
  }

  /** Fetching after an upsert that the store appended as the last row gives
      the fetched map with that one key replaced. */
  lemma FetchAfterUpsert(rows: seq<NotificationSetting>, row: NotificationSetting)
    ensures SettingsMap(rows + [row]) == SettingsMap(rows)[row.settingType := row]
  {
    assert SettingsUpTo(rows + [row], |rows|) == SettingsUpTo(rows, |rows|) by {
      PrefixFold(rows, [row], |rows|);
    }
  }

  /** The map over a prefix does not depend on what follows it. */
  lemma {:induction false} PrefixFold(rows: seq<NotificationSetting>, more: seq<NotificationSetting>, n: nat)
    requires n <= |rows|
    ensures SettingsUpTo(rows + more, n) == SettingsUpTo(rows, n)
  {
    if n > 0 {
      PrefixFold(rows, more, n - 1);
      assert (rows + more)[n - 1] == rows[n - 1];
    }
  }
}
