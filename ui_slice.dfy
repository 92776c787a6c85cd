/**
 * The `ui` part of the application store: whether the persisted state was
 * rehydrated, whether the catalog was initialised, and where the card list
 * should scroll back to. A setter replaces one field and copies the others.
 */
module UiSlice {
  import opened Wrappers

  /** The saved position of the virtualised card list, as the list library reports it. */
  datatype ScrollSnapshot = ScrollSnapshot(scrollTop: int, ranges: seq<(int, int)>)

  datatype UiState = UiState(hydrated: bool, initialized: bool, listScrollRestore: Option<ScrollSnapshot>)

  /** `getInitialUIState`: nothing hydrated, nothing initialised, no scroll position. */
  function InitialUiState(): (u: UiState)
    ensures !u.hydrated && !u.initialized && u.listScrollRestore == None
  {
    UiState(false, false, None)
  }

  /** The state `setHydrated` leaves: `hydrated` set, the other fields copied. */
  function Hydrated(u: UiState): (r: UiState)
    ensures r.hydrated
    ensures r.initialized == u.initialized && r.listScrollRestore == u.listScrollRestore
  {
    u.(hydrated := true)
  }

  /** The state `setListScrollRestore` leaves: the snapshot stored, the other fields copied. */
  function WithScrollRestore(u: UiState, snapshot: Option<ScrollSnapshot>): (r: UiState)
    ensures r.listScrollRestore == snapshot
    ensures r.hydrated == u.hydrated && r.initialized == u.initialized
  {
    u.(listScrollRestore := snapshot)
  }

  /** Hydrating twice is hydrating once. */
  lemma HydratedIdempotent(u: UiState)
    ensures Hydrated(Hydrated(u)) == Hydrated(u)
  {
  }

  /** The two setters touch different fields, so their order does not matter. */
  lemma SettersCommute(u: UiState, snapshot: Option<ScrollSnapshot>)
    ensures Hydrated(WithScrollRestore(u, snapshot)) == WithScrollRestore(Hydrated(u), snapshot)
  {
  }

  /** Storing a snapshot forgets the one stored before. */
  lemma LastSnapshotWins(u: UiState, first: Option<ScrollSnapshot>, second: Option<ScrollSnapshot>)
    ensures WithScrollRestore(WithScrollRestore(u, first), second) == WithScrollRestore(u, second)
  {
  }

  /** The store object holding the `ui` record; the setters replace the record. */
  class UiStore {
    var ui: UiState

    constructor ()
      ensures ui == InitialUiState()
    {
      ui := InitialUiState();
    }

    /** `setHydrated`. */
    method SetHydrated()
      modifies this
      ensures ui == Hydrated(old(ui))
    {
      ui := ui.(hydrated := true);
    }

    /** `setListScrollRestore`. */
    method SetListScrollRestore(snapshot: Option<ScrollSnapshot>)
      modifies this
      ensures ui == WithScrollRestore(old(ui), snapshot)
    {
      ui := ui.(listScrollRestore := snapshot);
    }
  }
}
