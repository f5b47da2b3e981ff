/**
 * `UiService`: the application-wide dialog and menu flags. The selected game, the login and
 * register dialogs and the mobile menu are each held in a subject; `libraryChanged$` is an event
 * stream, modelled by the number of events emitted so far; the `modal-open` class on the document
 * body is modelled by a flag that `updateBodyScroll` recomputes.
 */
module Ui {
  import opened Wrappers

  /** What `openGameModal` publishes: `{ id, platforms }`. */
  datatype Selection = Selection(id: int, platforms: Option<seq<string>>)

  /** The service's observable state. */
  datatype UiState = UiState(
    selectedGame: Option<Selection>,
    showLogin: bool,
    showRegister: bool,
    menuOpen: bool,
    bodyModalOpen: bool,
    libraryChanged: nat)

  /** The public operations of the service. */
  datatype UiOp =
    | OpenGame(id: int, platforms: Option<seq<string>>)
    | CloseGame
    | OpenLogin
    | CloseLogin
    | OpenRegister
    | CloseRegister
    | ToggleMenu
    | CloseMenu
    | NotifyLibraryChanged

  /** Every subject at its initial value, no event emitted, no class on the body. */
  const Initial := UiState(None, false, false, false, false, 0)

  /** `isModalOpen`: a game is selected or one of the auth dialogs is shown. */
  predicate ModalOpen(s: UiState) {
    s.selectedGame.Some? || s.showLogin || s.showRegister
  }

  /** The login and register dialogs are never shown together. */
  predicate Exclusive(s: UiState) {
    !(s.showLogin && s.showRegister)
  }

  /** The body class reflects whether a dialog is open. */
  predicate Synced(s: UiState) {
    s.bodyModalOpen == ModalOpen(s)
  }

  /** The operations that end with `updateBodyScroll`. */
  predicate IsModalOp(op: UiOp) {
    !(op.ToggleMenu? || op.CloseMenu? || op.NotifyLibraryChanged?)
  }

  /** `updateBodyScroll`: add the class when a dialog is open, remove it otherwise. */
  function Rescroll(s: UiState): (t: UiState)
    ensures Synced(t)
    ensures t.(bodyModalOpen := s.bodyModalOpen) == s
  {
    s.(bodyModalOpen := ModalOpen(s))
  }

  /** One operation of the service. */
  function Step(s: UiState, op: UiOp): UiState {
    match op
    case OpenGame(id, platforms) => Rescroll(s.(selectedGame := Some(Selection(id, platforms))))
    case CloseGame => Rescroll(s.(selectedGame := None))
    case OpenLogin => Rescroll(s.(showRegister := false, showLogin := true, menuOpen := false))
    case CloseLogin => Rescroll(s.(showLogin := false))
    case OpenRegister => Rescroll(s.(showLogin := false, showRegister := true, menuOpen := false))
    case CloseRegister => Rescroll(s.(showRegister := false))
    case ToggleMenu => s.(menuOpen := !s.menuOpen)
    case CloseMenu => s.(menuOpen := false)
    case NotifyLibraryChanged => s.(libraryChanged := s.libraryChanged + 1)
  }

  /** The operations in order. */
  function Run(s: UiState, ops: seq<UiOp>): UiState
    decreases |ops|
  {
    if ops == [] then s else Run(Step(s, ops[0]), ops[1..])
  }

  /** How many of the operations emit a library-changed event. */
  function Notifications(ops: seq<UiOp>): (n: nat)
    ensures n <= |ops|
  {
    if ops == [] then 0 else (if ops[0].NotifyLibraryChanged? then 1 else 0) + Notifications(ops[1..])
  }

  /** Opening one auth dialog closes the other one and the mobile menu, and marks the body. */
  lemma OpenDialogCloses(s: UiState)
    ensures var t := Step(s, OpenLogin); t.showLogin && !t.showRegister && !t.menuOpen && t.bodyModalOpen
    ensures var t := Step(s, OpenRegister); t.showRegister && !t.showLogin && !t.menuOpen && t.bodyModalOpen
    ensures Step(s, OpenLogin).selectedGame == s.selectedGame == Step(s, OpenRegister).selectedGame
  {
  }

  /** After any dialog operation the body class equals `isModalOpen`. */
  lemma ModalOpSyncsBody(s: UiState, op: UiOp)
    requires IsModalOp(op)
    ensures Synced(Step(s, op))
    ensures Step(s, op).libraryChanged == s.libraryChanged
  {
  }

  /** The menu operations and the notification never touch the dialogs or the body class. */
  lemma OtherOpsKeepDialogs(s: UiState, op: UiOp)
    requires !IsModalOp(op)
    ensures var t := Step(s, op);
      t.selectedGame == s.selectedGame && t.showLogin == s.showLogin &&
      t.showRegister == s.showRegister && t.bodyModalOpen == s.bodyModalOpen
    ensures op.ToggleMenu? ==> Step(s, op).menuOpen == !s.menuOpen
    ensures op.CloseMenu? ==> !Step(s, op).menuOpen
    ensures op.NotifyLibraryChanged? ==> Step(s, op) == s.(libraryChanged := s.libraryChanged + 1)
  {
  }

  /** Every operation keeps the two auth dialogs exclusive and the body class in step. */
  lemma StepKeepsInvariant(s: UiState, op: UiOp)
    requires Exclusive(s) && Synced(s)
    ensures Exclusive(Step(s, op)) && Synced(Step(s, op))
  {
  }

  /** From the initial state, no sequence of operations shows both dialogs or desynchronises the body. */
  lemma {:induction false} RunKeepsInvariant(s: UiState, ops: seq<UiOp>)
    requires Exclusive(s) && Synced(s)
    ensures Exclusive(Run(s, ops)) && Synced(Run(s, ops))
    decreases |ops|
  {
    if ops != [] {
      StepKeepsInvariant(s, ops[0]);
      RunKeepsInvariant(Step(s, ops[0]), ops[1..]);
    }
  }

  /** `notifyLibraryChanged` emits exactly one event per call, and nothing else emits. */
  lemma {:induction false} RunCountsNotifications(s: UiState, ops: seq<UiOp>)
    ensures Run(s, ops).libraryChanged == s.libraryChanged + Notifications(ops)
    decreases |ops|
  {
    if ops != [] {
      StepCounts(s, ops[0]);
      RunCountsNotifications(Step(s, ops[0]), ops[1..]);
    }
  }

  lemma StepCounts(s: UiState, op: UiOp)
    ensures Step(s, op).libraryChanged == s.libraryChanged + if op.NotifyLibraryChanged? then 1 else 0
  {
  }

  class UiService {
    var selectedGame: Option<Selection>
    var showLogin: bool
    var showRegister: bool
    var isMobileMenuOpen: bool
    var bodyModalOpen: bool
    var libraryChanged: nat

    function State(): UiState
      reads this
    {
      UiState(selectedGame, showLogin, showRegister, isMobileMenuOpen, bodyModalOpen, libraryChanged)
    }

    /**
     * The two auth dialogs are never shown together and the body class matches `isModalOpen`:
     * established by the constructor, kept by every dialog operation, untouched by the others.
     */
    ghost predicate Valid()
      reads this
    {
      Exclusive(State()) && Synced(State())
    }

    constructor ()
      ensures State() == Initial && Valid()
    {
      selectedGame, showLogin, showRegister, isMobileMenuOpen := None, false, false, false;
      bodyModalOpen, libraryChanged := false, 0;
    }

    function IsModalOpen(): (r: bool)
      reads this
      ensures r == ModalOpen(State())
    {
      selectedGame.Some? || showLogin || showRegister
    }

    method UpdateBodyScroll()
      modifies this`bodyModalOpen
      ensures State() == Rescroll(old(State()))
    {
      bodyModalOpen := IsModalOpen();
    }

    method OpenGameModal(gameId: int, platforms: Option<seq<string>>)
      modifies this`selectedGame, this`bodyModalOpen
      ensures State() == Step(old(State()), OpenGame(gameId, platforms))
      ensures old(Valid()) ==> Valid()
    {
      selectedGame := Some(Selection(gameId, platforms));
      UpdateBodyScroll();
    }

    method CloseGameModal()
      modifies this`selectedGame, this`bodyModalOpen
      ensures State() == Step(old(State()), CloseGame)
      ensures old(Valid()) ==> Valid()
    {
      selectedGame := None;
      UpdateBodyScroll();
    }

    method OpenLoginModal()
      modifies this`showRegister, this`showLogin, this`isMobileMenuOpen, this`bodyModalOpen
      ensures State() == Step(old(State()), OpenLogin)
      ensures old(Valid()) ==> Valid()
    {
      showRegister := false;
      showLogin := true;
      CloseMobileMenu();
      UpdateBodyScroll();
    }

    method CloseLoginModal()
      modifies this`showLogin, this`bodyModalOpen
      ensures State() == Step(old(State()), CloseLogin)
      ensures old(Valid()) ==> Valid()
    {
      showLogin := false;
      UpdateBodyScroll();
    }

    method OpenRegisterModal()
      modifies this`showRegister, this`showLogin, this`isMobileMenuOpen, this`bodyModalOpen
      ensures State() == Step(old(State()), OpenRegister)
      ensures old(Valid()) ==> Valid()
    {
      showLogin := false;
      showRegister := true;
      CloseMobileMenu();
      UpdateBodyScroll();
    }

    method CloseRegisterModal()
      modifies this`showRegister, this`bodyModalOpen
      ensures State() == Step(old(State()), CloseRegister)
      ensures old(Valid()) ==> Valid()
    {
      showRegister := false;
      UpdateBodyScroll();
    }

    method ToggleMobileMenu()
      modifies this`isMobileMenuOpen
      ensures State() == Step(old(State()), ToggleMenu)
      ensures Valid() == old(Valid())
    {
      isMobileMenuOpen := !isMobileMenuOpen;
    }

    method CloseMobileMenu()
      modifies this`isMobileMenuOpen
      ensures State() == Step(old(State()), CloseMenu)
      ensures Valid() == old(Valid())
    {
      isMobileMenuOpen := false;
    }

    method NotifyLibraryChanged()
      modifies this`libraryChanged
      ensures State() == Step(old(State()), UiOp.NotifyLibraryChanged)
      ensures Valid() == old(Valid())
    {
      libraryChanged := libraryChanged + 1;
    }
  }
}
