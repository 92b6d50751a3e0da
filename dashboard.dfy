/**
 * The dashboard's profile editor: a record of eight text fields edited in place, saved to
 * local storage only when the user presses save, loaded once when the page mounts, and a
 * sidebar that selects which of four sections is shown.
 */
module Dashboard {
  import opened Wrappers
  import opened ProfileJson
  import LocalStorage

  /** The storage key the profile is saved under. */
  const StorageKey := "cvos_profile"

  /** The keys of `ProfileData`. */
  datatype Field = FullName | Title | Email | Phone | Summary | Experience | Education | Skills

  /** The sidebar sections. */
  datatype Section = ProfileSection | ExperienceSection | EducationSection | SkillsSection

  /** The initial, all-empty profile. */
  const EmptyProfile := ProfileData("", "", "", "", "", "", "", "")

  /** The position of a field's key in the stored JSON object. */
  function FieldIndex(f: Field): (i: nat)
    ensures i < |Keys|
  {
    match f
    case FullName => 0
    case Title => 1
    case Email => 2
    case Phone => 3
    case Summary => 4
    case Experience => 5
    case Education => 6
    case Skills => 7
  }

  /** `formData[field]`: the value stored under the field's key. */
  function Get(p: ProfileData, f: Field): (r: string)
    ensures r == Values(p)[FieldIndex(f)]
  {
    match f
    case FullName => p.fullName
    case Title => p.title
    case Email => p.email
    case Phone => p.phone
    case Summary => p.summary
    case Experience => p.experience
    case Education => p.education
    case Skills => p.skills
  }

  /** `{ ...prev, [field]: value }`: the field takes the value as given, whatever its length,
      and the seven other fields keep theirs. */
  function Set(p: ProfileData, f: Field, v: string): (r: ProfileData)
    ensures Get(r, f) == v
    ensures forall g :: g != f ==> Get(r, g) == Get(p, g)
  {
    match f
    case FullName => p.(fullName := v)
    case Title => p.(title := v)
    case Email => p.(email := v)
    case Phone => p.(phone := v)
    case Summary => p.(summary := v)
    case Experience => p.(experience := v)
    case Education => p.(education := v)
    case Skills => p.(skills := v)
  }

  /** How the mount-time load ended: nothing (or an empty string) was stored, the stored
      profile was loaded, or JSON.parse threw on the stored text. */
  datatype LoadOutcome = KeptDefaults | Loaded | ParseFailed

  /** The dashboard page's state. */
  class DashboardPage {
    var formData: ProfileData
    var isSaved: bool
    var activeSection: Section

    /** The first render: empty profile, not saved, the profile section shown. */
    constructor ()
      ensures formData == EmptyProfile && !isSaved && activeSection == ProfileSection
    {
      formData := EmptyProfile;
      isSaved := false;
      activeSection := ProfileSection;
    }

    /** The mount effect: a stored, non-empty text replaces the profile with its parse; when
        nothing usable is stored the profile stays as it is. On text JSON.parse rejects, the
        uncaught throw ends the effect before `setFormData`: `ParseFailed` records that throw. */
    method LoadOnMount(storage: LocalStorage.Storage) returns (outcome: LoadOutcome)
      modifies this`formData
      ensures var saved := storage.GetItem(StorageKey);
        if saved == None || saved == Some("") then outcome == KeptDefaults && formData == old(formData)
        else match Parse(saved.value)
          case Some(p) => outcome == Loaded && formData == p
          case None => outcome == ParseFailed && formData == old(formData)
    {
      var saved := storage.GetItem(StorageKey);
      if saved == None || saved.value == "" {
        outcome := KeptDefaults;
      } else {
        match Parse(saved.value)
        case Some(p) =>
          formData := p;
          outcome := Loaded;
        case None =>
          outcome := ParseFailed;
      }
    }

    /** `handleInputChange(field, value)`: one field takes the value and the profile is marked
        unsaved; the store is not touched. */
    method HandleInputChange(f: Field, v: string)
      modifies this`formData, this`isSaved
      ensures formData == Set(old(formData), f, v)
      ensures !isSaved
    {
      formData := Set(formData, f, v);
      isSaved := false;
    }

    /** `handleSave`: writes the profile's JSON text under the storage key and marks it saved. */
    method HandleSave(storage: LocalStorage.Storage)
      modifies storage, this`isSaved
      ensures storage.items == old(storage.items)[StorageKey := Stringify(formData)]
      ensures isSaved
    {
      storage.SetItem(StorageKey, Stringify(formData));
      isSaved := true;
    }

    /** A sidebar button: shows its section and changes nothing else. */
    method SelectSection(s: Section)
      modifies this`activeSection
      ensures activeSection == s
    {
      activeSection := s;
    }
  }

  /** A new session over a store with nothing saved starts from the empty profile. */
  method FreshSessionWithoutSave(storage: LocalStorage.Storage) returns (page: DashboardPage)
    requires StorageKey !in storage.items
    ensures page.formData == EmptyProfile && page.activeSection == ProfileSection && !page.isSaved
  {
    page := new DashboardPage();
    var outcome := page.LoadOnMount(storage);
  }

  /** Saving and then opening the dashboard in a new session shows the profile that was saved. */
  method SaveThenReload(page: DashboardPage, storage: LocalStorage.Storage) returns (reloaded: DashboardPage, outcome: LoadOutcome)
    modifies page, storage
    ensures outcome == Loaded && reloaded.formData == page.formData == old(page.formData)
    ensures page.isSaved && !reloaded.isSaved && reloaded.activeSection == ProfileSection
  {
    page.HandleSave(storage);
    reloaded := new DashboardPage();
    ParseStringify(page.formData);
    outcome := reloaded.LoadOnMount(storage);
  }

  /** Editing, saving and opening the dashboard again in a new session shows the saved profile. */
  method EditSaveReload(storage: LocalStorage.Storage, f: Field, v: string) returns (reloaded: ProfileData)
    modifies storage
    ensures Get(reloaded, f) == v
    ensures StorageKey in storage.items && Parse(storage.items[StorageKey]) == Some(reloaded)
  {
    var page := new DashboardPage();
    var _ := page.LoadOnMount(storage);
    page.HandleInputChange(f, v);
    page.HandleSave(storage);
    var saved := page.formData;
    var next := new DashboardPage();
    var outcome := next.LoadOnMount(storage);
    ParseStringify(saved);
    reloaded := next.formData;
  }
}
