/** The durable operator overlay (src/backend_state.rs): which backends are fenced
  * off, in memory and in a file that is replaced by a rename.
  */
module BackendState {
  import opened Wrappers
  import opened Backend

  const SCHEMA_VERSION: nat := 1

  /** Only `Draining` and `Disabled` are stored; a missing entry means `Active`. */
  type Overlay = map<BackendId, Mode>

  datatype StateFile = StateFile(schemaVersion: nat, backends: Overlay)

  datatype Contents = Missing | Unparsable | Parsed(file: StateFile)

  datatype LoadError = ParseError | UnsupportedSchema(version: nat) | EmptyId | StoredActive(id: BackendId)

  predicate ValidOverlay(o: Overlay) {
    forall id <- o :: id.name != "" && o[id] != Active
  }

  function ModeOf(o: Overlay, id: BackendId): Mode {
    if id in o then o[id] else Active
  }

  function WithMode(o: Overlay, id: BackendId, mode: Mode): Overlay {
    if mode == Active then o - {id} else o[id := mode]
  }

  function Written(o: Overlay): Contents { Parsed(StateFile(SCHEMA_VERSION, o)) }

  predicate Loadable(c: Contents) {
    match c
    case Missing => true
    case Unparsable => false
    case Parsed(file) => file.schemaVersion == SCHEMA_VERSION && ValidOverlay(file.backends)
  }

  /** What a restart reads back. */
  function Loaded(c: Contents): Overlay
    requires Loadable(c)
  {
    if c.Missing? then map[] else c.file.backends
  }

  /** A restart from these contents keeps the backend fenced. */
  predicate FencedIn(c: Contents, id: BackendId) { Loadable(c) && id in Loaded(c) }

  /** How a write of the file can end: renamed and synced, failed with the old file in
    * place, or renamed but not synced. */
  datatype Outcome = Synced | NotRenamed | Unsynced

  /** What reading the file gives now, and all it may hold after a power loss: whatever
    * was last synced or has been renamed into place since. */
  datatype File = File(visible: Contents, possible: set<Contents>)
  {
    predicate Valid() { visible in possible && forall c <- possible :: Loadable(c) }
  }

  /** The overlay in memory and the file. */
  datatype Store = Store(overlay: Overlay, file: File)
  {
    predicate Valid() { ValidOverlay(overlay) && file.Valid() }
  }

  function SyncedFile(c: Contents): File { File(c, {c}) }

  function StoreMode(s: Store, id: BackendId, mode: Mode, outcome: Outcome): (Store, bool) {
    var next := WithMode(s.overlay, id, mode);
    if !ValidOverlay(next) then (s, false)
    else
      match outcome
      case Synced => (Store(next, SyncedFile(Written(next))), true)
      case NotRenamed => (s, false)
      case Unsynced => (s.(file := File(Written(next), s.file.possible + {Written(next)})), false)
  }

  /** A process that starts reads the file. */
  function Started(file: File): Store
    requires Loadable(file.visible)
  {
    Store(Loaded(file.visible), file)
  }

  class BackendStateStore {
    var overlay: Overlay
    var file: File

    function View(): Store
      reads this
    {
      Store(overlay, file)
    }

    constructor (file: File)
      requires Loadable(file.visible)
      ensures View() == Started(file)
    {
      overlay := if file.visible.Missing? then map[] else file.visible.file.backends;
      this.file := file;
    }

    static method Load(file: File) returns (r: Result<BackendStateStore, LoadError>)
      ensures r.Ok? <==> Loadable(file.visible)
      ensures r.Ok? ==> fresh(r.value) && r.value.View() == Started(file)
      ensures file.visible.Missing? ==> r.Ok? && r.value.overlay == map[]
      ensures file.visible.Unparsable? ==> r == Err(ParseError)
      ensures file.visible.Parsed? && file.visible.file.schemaVersion != 1 ==> r == Err(UnsupportedSchema(file.visible.file.schemaVersion))
      ensures file.visible.Parsed? && file.visible.file.schemaVersion == 1 ==>
                var backends := file.visible.file.backends;
                && (r.Ok? <==> forall id <- backends :: id.name != "" && backends[id] != Active)
                && (r.Ok? ==> r.value.overlay == backends)
                && (r.Err? ==> r.error == EmptyId || (r.error.StoredActive? && r.error.id in backends && backends[r.error.id] == Active))
    {
      match file.visible {
        case Unparsable => return Err(ParseError);
        case Missing =>
        case Parsed(state) =>
          if state.schemaVersion != SCHEMA_VERSION {
            return Err(UnsupportedSchema(state.schemaVersion));
          }
          var unchecked := state.backends.Keys;
          while unchecked != {}
            invariant unchecked <= state.backends.Keys
            invariant forall id <- state.backends :: id in unchecked || (id.name != "" && state.backends[id] != Active)
            decreases |unchecked|
          {
            var id :| id in unchecked;
            if id.name == "" {
              return Err(EmptyId);
            }
            if state.backends[id] == Active {
              return Err(StoredActive(id));
            }
            unchecked := unchecked - {id};
          }
      }
      var store := new BackendStateStore(file);
      r := Ok(store);
    }

    /** Change the overlay and write it; a failed write restores the overlay. */
    method SetStoredMode(id: BackendId, mode: Mode, outcome: Outcome) returns (ok: bool)
      modifies this
      ensures (View(), ok) == StoreMode(old(View()), id, mode, outcome)
    {
      var previous := overlay;
      match mode {
        case Active => overlay := overlay - {id};
        case Draining => overlay := overlay[id := Draining];
        case Disabled => overlay := overlay[id := Disabled];
      }
      ok := SaveFile(outcome);
      if !ok {
        overlay := previous;
      }
    }

    method SaveFile(outcome: Outcome) returns (ok: bool)
      modifies this`file
      ensures ok <==> ValidOverlay(overlay) && outcome == Synced
      ensures file == if !ValidOverlay(overlay) || outcome == NotRenamed then old(file)
                      else if outcome == Synced then SyncedFile(Written(overlay))
                      else File(Written(overlay), old(file).possible + {Written(overlay)})
    {
      if exists id <- overlay :: id.name == "" || overlay[id] == Active {
        return false;
      }
      match outcome {
        case NotRenamed => return false;
        case Unsynced =>
          file := File(Written(overlay), file.possible + {Written(overlay)});
          return false;
        case Synced =>
          file := File(Written(overlay), {Written(overlay)});
          return true;
      }
    }
  }

  // ---- Any run of changes, kills and power losses ----

  /** A killed process leaves the file as it is to the next one; a power loss leaves any
    * of its possible contents. */
  datatype Event =
    | Save(id: BackendId, mode: Mode, outcome: Outcome)
    | Restart
    | PowerLoss(left: Contents)

  function StepStore(s: Store, e: Event): Store
    requires s.Valid()
  {
    match e
    case Save(id, mode, outcome) => StoreMode(s, id, mode, outcome).0
    case Restart => Started(s.file)
    case PowerLoss(left) => if left in s.file.possible then Started(SyncedFile(left)) else s
  }

  lemma StepStoreValid(s: Store, e: Event)
    requires s.Valid()
    ensures StepStore(s, e).Valid()
  {
  }

  function RunStore(contents: Contents, events: seq<Event>): (s: Store)
    requires Loadable(contents)
    ensures s.Valid()
  {
    if events == [] then Started(SyncedFile(contents))
    else
      var before := RunStore(contents, events[..|events| - 1]);
      StepStoreValid(before, events[|events| - 1]);
      StepStore(before, events[|events| - 1])
  }

  /** A save that succeeds syncs the new overlay, a power loss leaves one synced content;
    * in between an activation which fails after its rename puts the fence in doubt. */
  function FirmAfter(s: Store, e: Event, id: BackendId, firm: bool): bool
    requires s.Valid()
  {
    match e
    case Save(i, mode, outcome) =>
      if StoreMode(s, i, mode, outcome).1 then id in WithMode(s.overlay, i, mode)
      else firm && !(i == id && mode == Active && outcome == Unsynced)
    case Restart => firm
    case PowerLoss(left) => if left in s.file.possible then id in Loaded(left) else firm
  }

  /** The fence was synced, and no activation of the backend has failed after its rename
    * since. */
  predicate Firm(contents: Contents, events: seq<Event>, id: BackendId)
    requires Loadable(contents)
  {
    if events == [] then id in Loaded(contents)
    else
      var front, e := events[..|events| - 1], events[|events| - 1];
      FirmAfter(RunStore(contents, front), e, id, Firm(contents, front, id))
  }

  /** One step of the argument: `firm` says exactly whether all possible contents fence the
    * backend, and then so does the overlay. */
  predicate FirmExact(s: Store, id: BackendId, firm: bool) {
    && ((forall c <- s.file.possible :: FencedIn(c, id)) <==> firm)
    && (firm ==> id in s.overlay)
  }

  lemma SaveFirm(s: Store, i: BackendId, mode: Mode, outcome: Outcome, id: BackendId, firm: bool)
    requires s.Valid() && FirmExact(s, id, firm)
    ensures var (t, ok) := StoreMode(s, i, mode, outcome);
            FirmExact(t, id, if ok then id in t.overlay else firm && !(i == id && mode == Active && outcome == Unsynced))
  {
    var (t, ok) := StoreMode(s, i, mode, outcome);
    var next := WithMode(s.overlay, i, mode);
    if !ok && outcome == Unsynced && ValidOverlay(next) {
      assert Written(next) in t.file.possible && Loaded(Written(next)) == next;
      assert firm ==> (id in next <==> !(i == id && mode == Active));
      assert forall c <- s.file.possible :: c in t.file.possible;
    }
  }

  lemma StartFirm(contents: Contents, id: BackendId)
    requires Loadable(contents)
    ensures FirmExact(Started(SyncedFile(contents)), id, id in Loaded(contents))
  {
    assert contents in SyncedFile(contents).possible;
  }

  lemma EventFirm(s: Store, e: Event, id: BackendId, firm: bool)
    requires s.Valid() && FirmExact(s, id, firm)
    ensures FirmExact(StepStore(s, e), id, FirmAfter(s, e, id, firm))
  {
    match e
    case Save(i, mode, outcome) => SaveFirm(s, i, mode, outcome, id, firm);
    case Restart => assert s.file.visible in s.file.possible;
    case PowerLoss(left) =>
      if left in s.file.possible {
        StartFirm(left, id);
      }
  }

  /** Exactly when a fence survives: whatever the file may hold can be read back, and all
    * of it still fences the backend, if and only if the fence was synced and no
    * activation of the backend has failed after its rename since - however often the
    * process was killed or the power lost. */
  lemma {:induction false} FenceSurvivesCrash(contents: Contents, events: seq<Event>, id: BackendId)
    requires Loadable(contents)
    ensures var s := RunStore(contents, events);
            && (forall c <- s.file.possible :: Loadable(c))
            && ((forall c <- s.file.possible :: FencedIn(c, id)) <==> Firm(contents, events, id))
            && (Firm(contents, events, id) ==> id in s.overlay)
    decreases |events|
  {
    if events == [] {
      StartFirm(contents, id);
    } else {
      var front, e := events[..|events| - 1], events[|events| - 1];
      FenceSurvivesCrash(contents, front, id);
      EventFirm(RunStore(contents, front), e, id, Firm(contents, front, id));
    }
  }

  /** A write that reports success is read back as the overlay it wrote. */
  lemma SavedIsReadBack(s: Store, id: BackendId, mode: Mode, outcome: Outcome)
    requires s.Valid() && StoreMode(s, id, mode, outcome).1
    ensures var after := StoreMode(s, id, mode, outcome).0;
            && ModeOf(after.overlay, id) == mode
            && (forall other :: other != id ==> ModeOf(after.overlay, other) == ModeOf(s.overlay, other))
            && forall c <- after.file.possible :: Loadable(c) && Loaded(c) == after.overlay
  {
  }

  /** A disabled backend whose activation failed to sync is still disabled in memory, but a
    * power loss may restart it active. */
  lemma FailedActivationLosesFence(id: BackendId) returns (events: seq<Event>, left: Contents)
    requires id.name != ""
    ensures var s := RunStore(Missing, events);
            && ModeOf(s.overlay, id) == Disabled
            && left in s.file.possible && Loadable(left) && ModeOf(Loaded(left), id) == Active
  {
    var disable, activate := Save(id, Disabled, Synced), Save(id, Active, Unsynced);
    events := [disable, activate];
    assert events[..1] == [disable] && [disable][..0] == [];
    var fenced := WithMode(map[], id, Disabled);
    assert RunStore(Missing, [disable]).overlay == fenced;
    left := Written(fenced - {id});
  }

  /** A process killed between the rename and the sync leaves a fence that the next one
    * reads, but that a power loss may undo. */
  lemma KilledSaveLosesFence(id: BackendId) returns (events: seq<Event>, left: Contents)
    requires id.name != ""
    ensures var s := RunStore(Missing, events);
            && ModeOf(s.overlay, id) == Disabled
            && left in s.file.possible && Loadable(left) && ModeOf(Loaded(left), id) == Active
  {
    var disable := Save(id, Disabled, Unsynced);
    events := [disable, Restart];
    assert events[..1] == [disable] && [disable][..0] == [];
    var fenced := WithMode(map[], id, Disabled);
    assert RunStore(Missing, [disable]).file.visible == Written(fenced);
    left := Missing;
  }
}
