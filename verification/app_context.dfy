/**
 * The stateful part of the store (contexts/AppContext.tsx): the provider's
 * two cells, `state` and `loaded`, and the device storage it reads once at
 * start-up and writes after every change.
 *
 * Storage is a map from keys to what is stored under them. Only the blob's
 * meaning is modelled, not its JSON text: it is the empty string, text that
 * does not parse, or the serialisation of some state.
 */
module AppContext {
  import opened Types
  import opened StoreOps

  datatype Blob = EmptyText | Unparsable | Snapshot(state: AppState)

  /**
   * What the start-up load adopts: a stored snapshot, if the key is
   * present, non-empty, readable and parses; the default state otherwise.
   */
  function LoadedState(storage: map<string, Blob>, readFails: bool): (r: AppState)
    ensures !readFails && StorageKey in storage && storage[StorageKey].Snapshot? ==> r == storage[StorageKey].state
    ensures readFails || StorageKey !in storage || !storage[StorageKey].Snapshot? ==> r == DefaultState
  {
    if readFails || StorageKey !in storage then DefaultState
    else match storage[StorageKey]
      case EmptyText => DefaultState   // `if (raw)`: the empty string is falsy
      case Unparsable => DefaultState  // `JSON.parse` throws; the catch only warns
      case Snapshot(st) => st
  }

  /** What a write of `s` leaves in storage: the whole state under the one key, every other key as it was. */
  function Written(storage: map<string, Blob>, s: AppState): (r: map<string, Blob>)
    ensures StorageKey in r && r[StorageKey] == Snapshot(s)
    ensures forall k :: k in storage && k != StorageKey ==> k in r && r[k] == storage[k]
    ensures r.Keys == storage.Keys + {StorageKey}
  {
    storage[StorageKey := Snapshot(s)]
  }

  /** A completed save followed by a load gives back exactly the saved state. */
  lemma SaveThenLoad(storage: map<string, Blob>, s: AppState)
    ensures LoadedState(Written(storage, s), false) == s
  {
  }

  /** A corrupt or empty stored value loads the same as a missing one: the default state. */
  lemma CorruptLoadsAsMissing(storage: map<string, Blob>)
    requires StorageKey in storage && !storage[StorageKey].Snapshot?
    ensures LoadedState(storage, false) == LoadedState(storage - {StorageKey}, false) == DefaultState
  {
  }

  /** `AppProvider`: the in-memory state, the loaded flag and the device storage. */
  class Provider {
    var state: AppState
    var loaded: bool
    var storage: map<string, Blob>

    /** Before the load has settled the state is still the default one. */
    ghost predicate Valid()
      reads this
    {
      !loaded ==> state == DefaultState
    }

    /** What consumers see: nothing until loaded (`if (!loaded) return null`), then the current state. */
    function Exposed(): (r: Option<AppState>)
      reads this
      ensures r.None? <==> !loaded
      ensures r.Some? ==> r.value == state
    {
      if loaded then Some(state) else None
    }

    /** Mounting the provider: default state, not loaded, storage as the device holds it. */
    constructor (deviceStorage: map<string, Blob>)
      ensures Valid()
      ensures state == DefaultState && !loaded && storage == deviceStorage
    {
      state := DefaultState;
      loaded := false;
      storage := deviceStorage;
    }

    /**
     * The mount effect, run once: read the key, adopt what parses, and in
     * every case, error or not, become loaded. Loading never writes storage.
     */
    method Load(readFails: bool)
      requires Valid() && !loaded
      modifies this
      ensures Valid() && loaded
      ensures state == LoadedState(old(storage), readFails)
      ensures storage == old(storage)
    {
      if !readFails && StorageKey in storage {
        match storage[StorageKey]
        case EmptyText =>
        case Unparsable =>
        case Snapshot(st) => state := st;
      }
      loaded := true;
    }

    /**
     * `saveState`: the in-memory state is replaced first and unconditionally;
     * only then is the whole state written under the one key, which may fail
     * (`ok` false) and leaves storage as it was if it does.
     */
    method SaveState(s: AppState, writeOk: bool) returns (ok: bool)
      requires Valid() && loaded
      modifies this
      ensures Valid() && loaded
      ensures state == s
      ensures ok == writeOk
      ensures storage == if writeOk then Written(old(storage), s) else old(storage)
    {
      state := s;
      if writeOk {
        storage := Written(storage, s);
      }
      ok := writeOk;
    }

    method AddMood(input: MoodInput, env: CallEnv, writeOk: bool) returns (ok: bool)
      requires Valid() && loaded
      modifies this
      ensures Valid() && loaded && ok == writeOk
      ensures state == StoreOps.AddMood(old(state), input, env)
      ensures storage == if writeOk then Written(old(storage), state) else old(storage)
    {
      ok := SaveState(StoreOps.AddMood(state, input, env), writeOk);
    }

    method AddJournal(input: JournalInput, env: CallEnv, writeOk: bool) returns (ok: bool)
      requires Valid() && loaded
      modifies this
      ensures Valid() && loaded && ok == writeOk
      ensures state == StoreOps.AddJournal(old(state), input, env)
      ensures storage == if writeOk then Written(old(storage), state) else old(storage)
    {
      ok := SaveState(StoreOps.AddJournal(state, input, env), writeOk);
    }

    method AddSleep(input: SleepInput, env: CallEnv, writeOk: bool) returns (ok: bool)
      requires Valid() && loaded
      modifies this
      ensures Valid() && loaded && ok == writeOk
      ensures state == StoreOps.AddSleep(old(state), input, env)
      ensures storage == if writeOk then Written(old(storage), state) else old(storage)
    {
      ok := SaveState(StoreOps.AddSleep(state, input, env), writeOk);
    }

    method AddActivity(input: ActivityInput, env: CallEnv, writeOk: bool) returns (ok: bool)
      requires Valid() && loaded
      modifies this
      ensures Valid() && loaded && ok == writeOk
      ensures state == StoreOps.AddActivity(old(state), input, env)
      ensures storage == if writeOk then Written(old(storage), state) else old(storage)
    {
      ok := SaveState(StoreOps.AddActivity(state, input, env), writeOk);
    }
  }

  /**
   * A session: mount, load, add one activity with a successful write, then
   * mount again on what storage now holds and load: the second session
   * starts from exactly the state the first one ended with.
   */
  method RestartAfterAdd(device: map<string, Blob>, input: ActivityInput, env: CallEnv, readFails: bool)
    returns (before: AppState, after: AppState)
    ensures before == StoreOps.AddActivity(LoadedState(device, readFails), input, env)
    ensures after == before
  {
    var p := new Provider(device);
    p.Load(readFails);
    var _ := p.AddActivity(input, env, true);
    before := p.state;
    var q := new Provider(p.storage);
    q.Load(false);
    after := q.state;
  }
}
