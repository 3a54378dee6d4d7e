/**
 * The card's state and the user's actions on it: whether the edit form is
 * open, the profile in memory, and the one browser-storage entry (key
 * 'bizCardProfile') that survives a page reload. The stored record is the
 * profile itself: serialising to JSON and parsing it back is the identity here.
 */
module App {
  import opened Wrappers
  import opened Profiles
  import VCard

  /** A snapshot of everything the actions read or change. */
  datatype AppState = AppState(isEditMode: bool, profile: Profile, stored: Option<Profile>)

  /** A page load before the startup effect: view mode and the default record; storage is as found. */
  function Initial(stored: Option<Profile>): AppState
  {
    AppState(false, Default, stored)
  }

  /** The startup effect: a stored record, if any, replaces the profile in memory. */
  function Loaded(s: AppState): AppState
  {
    match s.stored
    case Some(saved) => s.(profile := saved)
    case None => s
  }

  /** A reload of the page: memory is lost, storage is kept, and the startup effect runs. */
  function Restarted(s: AppState): AppState
  {
    Loaded(Initial(s.stored))
  }

  /** Save: store the profile in memory and close the form. */
  function Saved(s: AppState): AppState
  {
    s.(stored := Some(s.profile), isEditMode := false)
  }

  /** Reset: back to the default record, storage entry removed, form closed. */
  function ResetState(s: AppState): AppState
  {
    AppState(false, Default, None)
  }

  /** A change event from the input named `f`. */
  function Changed(s: AppState, f: Field, v: string): AppState
  {
    s.(profile := With(s.profile, f, v))
  }

  /** The edit button: flip the mode, nothing else. */
  function Toggled(s: AppState): AppState
  {
    s.(isEditMode := !s.isEditMode)
  }

  /** After a reload the card is in view mode, storage is untouched, and the profile is the stored one or the default. */
  lemma StartupSpec(s: AppState)
    ensures !Restarted(s).isEditMode
    ensures Restarted(s).stored == s.stored
    ensures Restarted(s).profile == if s.stored.Some? then s.stored.value else Default
  {
  }

  /**
   * Saving stores the profile in memory and leaves it as it is; saving twice is
   * saving once; and a reload after saving finds exactly the saved state.
   */
  lemma SaveSpec(s: AppState)
    ensures Saved(s).profile == s.profile && Saved(s).stored == Some(s.profile) && !Saved(s).isEditMode
    ensures Saved(Saved(s)) == Saved(s)
    ensures Restarted(Saved(s)) == Saved(s)
  {
  }

  /**
   * Reset gives the same state from any state (so it is idempotent), and a
   * reload after it shows the default record with nothing stored.
   */
  lemma ResetSpec(s: AppState, t: AppState)
    ensures ResetState(s) == ResetState(t)
    ensures ResetState(s) == AppState(false, Default, None)
    ensures ResetState(ResetState(s)) == ResetState(s)
    ensures Restarted(ResetState(s)) == ResetState(s)
  {
  }

  /** The toggle flips only the mode (so it keeps unsaved edits), and toggling twice restores the state. */
  lemma ToggleSpec(s: AppState, f: Field, v: string)
    ensures Toggled(s).isEditMode != s.isEditMode
    ensures Toggled(s).profile == s.profile && Toggled(s).stored == s.stored
    ensures Toggled(Toggled(s)) == s
    ensures Toggled(Changed(s, f, v)).profile == With(s.profile, f, v)
  {
  }

  /**
   * A change updates one field of the profile in memory and nothing else: the
   * mode and the storage entry stay, so a reload forgets it unless it is saved.
   */
  lemma ChangeSpec(s: AppState, f: Field, v: string)
    ensures Changed(s, f, v).isEditMode == s.isEditMode
    ensures Changed(s, f, v).stored == s.stored
    ensures Get(Changed(s, f, v).profile, f) == v
    ensures forall g :: g != f ==> Get(Changed(s, f, v).profile, g) == Get(s.profile, g)
    ensures Restarted(Changed(s, f, v)) == Restarted(s)
    ensures Restarted(Saved(Changed(s, f, v))).profile == With(s.profile, f, v)
  {
  }

  /** The user's actions on the card. */
  datatype Event = Toggle | Change(field: Field, value: string) | Save | Reset {
    /** Only Save and Reset write to storage. */
    predicate Commits()
    {
      Save? || Reset?
    }
  }

  function Step(s: AppState, e: Event): AppState
  {
    match e
    case Toggle => Toggled(s)
    case Change(f, v) => Changed(s, f, v)
    case Save => Saved(s)
    case Reset => ResetState(s)
  }

  /** The state after the events, one after the other. */
  function Run(s: AppState, events: seq<Event>): AppState
    decreases events
  {
    if events == [] then s else Run(Step(s, events[0]), events[1..])
  }

  /**
   * Any session of toggles and edits without Save or Reset leaves the storage
   * entry as it was, so a reload afterwards gives the same card as a reload
   * before it: unsaved edits are lost.
   */
  lemma {:induction false} UncommittedRun(s: AppState, events: seq<Event>)
    requires forall k :: 0 <= k < |events| ==> !events[k].Commits()
    ensures Run(s, events).stored == s.stored
    ensures Restarted(Run(s, events)) == Restarted(s)
    decreases events
  {
    if events != [] {
      UncommittedRun(Step(s, events[0]), events[1..]);
    }
  }

  /**
   * Whatever is edited after a Save without a later Save or Reset, a reload
   * brings back the profile as it was saved.
   */
  lemma {:induction false} ReloadAfterSave(s: AppState, events: seq<Event>)
    requires forall k :: 0 <= k < |events| ==> !events[k].Commits()
    ensures Restarted(Run(s, [Save] + events)).profile == s.profile
  {
    assert ([Save] + events)[1..] == events;
    UncommittedRun(Saved(s), events);
  }

  /** The browser-storage entry 'bizCardProfile', which outlives the card. */
  class Storage {
    var slot: Option<Profile>

    constructor (initial: Option<Profile>)
      ensures slot == initial
    {
      slot := initial;
    }
  }

  /** The mounted card component with its two pieces of state. */
  class App {
    var isEditMode: bool
    var profile: Profile
    const storage: Storage

    function State(): AppState
      reads this, storage
    {
      AppState(isEditMode, profile, storage.slot)
    }

    /** The initial render: view mode, default record; storage is read only by the startup effect. */
    constructor (storage: Storage)
      ensures this.storage == storage
      ensures State() == Initial(storage.slot)
    {
      this.storage := storage;
      isEditMode := false;
      profile := Default;
    }

    /** The startup effect, run once after the first render. */
    method LoadOnStartup()
      modifies this
      ensures State() == Loaded(old(State()))
    {
      var saved := storage.slot;
      if saved.Some? {
        profile := saved.value;
      }
    }

    method SaveProfile()
      modifies this, storage
      ensures State() == Saved(old(State()))
    {
      storage.slot := Some(profile);
      isEditMode := false;
    }

    method ResetProfile()
      modifies this, storage
      ensures State() == ResetState(old(State()))
    {
      profile := Default;
      storage.slot := None;
      isEditMode := false;
    }

    method HandleChange(f: Field, v: string)
      modifies this
      ensures State() == Changed(old(State()), f, v)
    {
      profile := With(profile, f, v);
    }

    method ToggleEditMode()
      modifies this
      ensures State() == Toggled(old(State()))
    {
      isEditMode := !isEditMode;
    }

    /** The text and file name of the "Save Contact" download; nothing changes. */
    method DownloadVCard() returns (text: string, fileName: string)
      ensures text == VCard.Text(profile)
      ensures fileName == VCard.FileName(profile.name)
    {
      text := VCard.Text(profile);
      fileName := VCard.FileName(profile.name);
    }
  }

  /**
   * First visit: edit a field, save, reload the page. The reloaded card shows
   * the edited profile.
   */
  method EditSaveReload(f: Field, v: string) returns (reloaded: Profile)
    ensures reloaded == With(Default, f, v)
  {
    var storage := new Storage(None);
    var app := new App(storage);
    app.LoadOnStartup();
    app.ToggleEditMode();
    app.HandleChange(f, v);
    app.SaveProfile();
    var again := new App(storage);
    again.LoadOnStartup();
    reloaded := again.profile;
  }

  /**
   * First visit: edit a field and leave the form with the toggle. The edit is
   * still on the card, but a reload shows the default record again.
   */
  method EditToggleReload(f: Field, v: string) returns (shown: Profile, reloaded: Profile)
    ensures shown == With(Default, f, v)
    ensures reloaded == Default
  {
    var storage := new Storage(None);
    var app := new App(storage);
    app.LoadOnStartup();
    app.ToggleEditMode();
    app.HandleChange(f, v);
    app.ToggleEditMode();
    shown := app.profile;
    var again := new App(storage);
    again.LoadOnStartup();
    reloaded := again.profile;
  }

  /**
   * A saved edit followed by Reset: the reloaded card shows the default record
   * and the storage entry is gone.
   */
  method SaveResetReload(f: Field, v: string) returns (reloaded: Profile, slot: Option<Profile>)
    ensures reloaded == Default
    ensures slot == None
  {
    var storage := new Storage(None);
    var app := new App(storage);
    app.LoadOnStartup();
    app.ToggleEditMode();
    app.HandleChange(f, v);
    app.SaveProfile();
    app.ToggleEditMode();
    app.ResetProfile();
    var again := new App(storage);
    again.LoadOnStartup();
    reloaded := again.profile;
    slot := storage.slot;
  }

  /** Exporting the default card yields a well-formed card with its six values, named Richard_Chelson.vcf. */
  method ExportDefault() returns (text: string, fileName: string)
    ensures VCard.Parse(text) == Some(VCard.ContactOf(Default))
    ensures fileName == "Richard" + "_" + "Chelson" + ".vcf"
  {
    var storage := new Storage(None);
    var app := new App(storage);
    app.LoadOnStartup();
    text, fileName := app.DownloadVCard();
    VCard.DefaultExport();
  }
}
