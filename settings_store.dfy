/**
 * The settings table: a single row stored under the key 'default'. Reading
 * falls back to an empty row; saving merges a patch over the current row and
 * writes it back under 'default'.
 */
module SettingsStore {
  import opened Wrappers
  import opened Types

  const DEFAULT_KEY := "default"

  /** What a read yields when no row has been stored yet. */
  const EMPTY_SETTINGS := AppSettings(DEFAULT_KEY, None, None, None)

  /**
   * A `Partial<AppSettings>`. It may carry an `id`; the merge ignores it.
   */
  datatype SettingsPatch = SettingsPatch(
    id: Option<string>,
    githubToken: Change<string>,
    githubOwner: Change<string>,
    githubRepo: Change<string>)

  /** The settings read: the row at 'default', or the empty row if there is none. */
  function SettingsOrDefault(rows: map<string, AppSettings>): (r: AppSettings)
    ensures DEFAULT_KEY in rows ==> r == rows[DEFAULT_KEY]
    ensures DEFAULT_KEY !in rows ==> r == EMPTY_SETTINGS
    ensures KeyedBy(rows, (a: AppSettings) => a.id) ==> r.id == DEFAULT_KEY
  {
    if DEFAULT_KEY in rows then rows[DEFAULT_KEY] else EMPTY_SETTINGS
  }

  /**
   * `{...current, ...patch, id: 'default'}`: properties present in the patch
   * win, absent ones keep their current value, and the id is always 'default'.
   */
  function Merged(current: AppSettings, patch: SettingsPatch): (r: AppSettings)
    ensures r.id == DEFAULT_KEY
    ensures patch.githubToken.Keep? ==> r.githubToken == current.githubToken
    ensures patch.githubOwner.Keep? ==> r.githubOwner == current.githubOwner
    ensures patch.githubRepo.Keep? ==> r.githubRepo == current.githubRepo
    ensures patch.githubToken.Put? ==> r.githubToken == Some(patch.githubToken.value)
    ensures patch.githubOwner.Put? ==> r.githubOwner == Some(patch.githubOwner.value)
    ensures patch.githubRepo.Put? ==> r.githubRepo == Some(patch.githubRepo.value)
    ensures patch.githubToken.Clear? ==> r.githubToken.None?
    ensures patch.githubOwner.Clear? ==> r.githubOwner.None?
    ensures patch.githubRepo.Clear? ==> r.githubRepo.None?
  {
    AppSettings(DEFAULT_KEY,
      ApplyChange(current.githubToken, patch.githubToken),
      ApplyChange(current.githubOwner, patch.githubOwner),
      ApplyChange(current.githubRepo, patch.githubRepo))
  }

  /** `saveSettings(patch)`: a `put` of the merged row under 'default' and nowhere else. */
  function RowsAfterSave(rows: map<string, AppSettings>, patch: SettingsPatch): (r: map<string, AppSettings>)
    ensures r.Keys == rows.Keys + {DEFAULT_KEY}
    ensures forall k :: k in rows && k != DEFAULT_KEY ==> r[k] == rows[k]
    ensures r[DEFAULT_KEY] == Merged(SettingsOrDefault(rows), patch)
  {
    rows[DEFAULT_KEY := Merged(SettingsOrDefault(rows), patch)]
  }

  /** Merging the same patch twice gives the row that merging it once gives. */
  lemma MergeIdempotent(current: AppSettings, patch: SettingsPatch)
    ensures Merged(Merged(current, patch), patch) == Merged(current, patch)
  {
  }

  /** Saving the same patch twice stores the same table as saving it once. */
  lemma SaveIdempotent(rows: map<string, AppSettings>, patch: SettingsPatch)
    ensures RowsAfterSave(RowsAfterSave(rows, patch), patch) == RowsAfterSave(rows, patch)
  {
    var once := RowsAfterSave(rows, patch);
    assert SettingsOrDefault(once) == Merged(SettingsOrDefault(rows), patch);
    MergeIdempotent(SettingsOrDefault(rows), patch);
  }

  /** Saving keeps the table a singleton: its only key is 'default'. */
  lemma SaveKeepsSingleton(rows: map<string, AppSettings>, patch: SettingsPatch)
    requires rows.Keys <= {DEFAULT_KEY}
    ensures RowsAfterSave(rows, patch).Keys == {DEFAULT_KEY}
    ensures KeyedBy(RowsAfterSave(rows, patch), (a: AppSettings) => a.id)
  {
  }

  /** After any save the read yields the merged row, whatever id the patch carried. */
  lemma ReadAfterSave(rows: map<string, AppSettings>, patch: SettingsPatch)
    ensures SettingsOrDefault(RowsAfterSave(rows, patch)).id == DEFAULT_KEY
    ensures SettingsOrDefault(RowsAfterSave(rows, patch)) == Merged(SettingsOrDefault(rows), patch)
  {
  }

  class SettingsTable {
    var rows: map<string, AppSettings>

    ghost predicate Valid()
      reads this
    {
      KeyedBy(rows, (a: AppSettings) => a.id) && rows.Keys <= {DEFAULT_KEY}
    }

    constructor ()
      ensures Valid() && rows == map[]
    {
      rows := map[];
    }

    /** The live settings value: the stored row, or the empty row. */
    function Settings(): (r: AppSettings)
      reads this
      requires Valid()
      ensures r.id == DEFAULT_KEY
    {
      SettingsOrDefault(rows)
    }

    method SaveSettings(newSettings: SettingsPatch)
      requires Valid()
      modifies this
      ensures Valid()
      ensures rows == RowsAfterSave(old(rows), newSettings)
      ensures Settings() == Merged(old(Settings()), newSettings)
    {
      var merged := Merged(Settings(), newSettings);
      rows := rows[DEFAULT_KEY := merged];
    }
  }
}
