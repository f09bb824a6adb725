/**
 * Discovery of the host's message manager: `findCandidate` and
 * `locateAppMessagesManager` of the page hook.
 */
module Discovery {
  import opened Wrappers

  /**
   * The function stored in a manager's `sendFile` member: the host's own implementation
   * (identified by `id`), or the hook's `patchedSendFile` wrapper around a captured
   * original.
   */
  datatype SendFn = HostSendFile(id: nat) | TtlWrapper(original: SendFn)

  /**
   * A host object reachable from the page's global namespace. Whether its three
   * members are functions does not change (the hook only replaces one function by
   * another); `sendFile` and the `__viewOncePatched` marker are what the hook writes.
   */
  class Manager {
    const sendFileIsFunction: bool
    const sendTextMessageIsFunction: bool
    const sendMultiMediaIsFunction: bool
    var sendFile: SendFn
    var viewOncePatched: bool

    constructor (sendFileIsFunction: bool, sendTextMessageIsFunction: bool,
                 sendMultiMediaIsFunction: bool, sendFile: SendFn)
      ensures this.sendFileIsFunction == sendFileIsFunction
      ensures this.sendTextMessageIsFunction == sendTextMessageIsFunction
      ensures this.sendMultiMediaIsFunction == sendMultiMediaIsFunction
      ensures this.sendFile == sendFile && !viewOncePatched
    {
      this.sendFileIsFunction := sendFileIsFunction;
      this.sendTextMessageIsFunction := sendTextMessageIsFunction;
      this.sendMultiMediaIsFunction := sendMultiMediaIsFunction;
      this.sendFile := sendFile;
      viewOncePatched := false;
    }
  }

  /**
   * What reading one candidate location yields: no object (undefined, null, a primitive
   * or a function), an exception (a throwing getter on the location or on one of the
   * object's members), or an object.
   */
  datatype Slot = NotAnObject | Throwing | Object(manager: Manager)

  /**
   * The page's global namespace as the search sees it: `window.appMessagesManager`,
   * `window.managers?.appMessagesManager`, and the value of each key of
   * `Object.keys(window)`, in order.
   */
  datatype Window = Window(appMessagesManager: Slot, managersAppMessagesManager: Slot, globals: seq<Slot>)

  /** The locations in the order they are searched. */
  function Slots(w: Window): seq<Slot>
  {
    [w.appMessagesManager, w.managersAppMessagesManager] + w.globals
  }

  /** Every manager object the namespace refers to. */
  function Managers(w: Window): set<Manager>
  {
    set i | 0 <= i < |Slots(w)| && Slots(w)[i].Object? :: Slots(w)[i].manager
  }

  /**
   * `findCandidate`: an object whose `sendFile`, `sendTextMessage` and `sendMultiMedia`
   * are functions. A candidate is always an object that can be read, and its `sendFile`
   * can be bound, as `patchSendFile` does.
   */
  predicate FindCandidate(s: Slot): (r: bool)
    ensures r ==> s.Object? && s.manager.sendFileIsFunction
  {
    s.Object? &&
    s.manager.sendFileIsFunction && s.manager.sendTextMessageIsFunction && s.manager.sendMultiMediaIsFunction
  }

  /** The result of a search: the index in `Slots(w)` of the manager found, none, or an escaped exception. */
  datatype Located = Found(at: nat) | NotFound | Threw

  /** The first index at or after `from` whose global is a candidate; throwing globals are skipped. */
  function ScanGlobals(globals: seq<Slot>, from: nat): Option<nat>
    requires from <= |globals|
    decreases |globals| - from
  {
    if from == |globals| then None
    else if FindCandidate(globals[from]) then Some(from)
    else ScanGlobals(globals, from + 1)
  }

  /**
   * `locateAppMessagesManager()`. The two well-known paths are read outside any
   * `try`, so an exception there escapes the search; the scan of the global keys
   * catches and skips it.
   */
  function Locate(w: Window): (r: Located)
    ensures r.Found? ==> r.at < |Slots(w)| && FindCandidate(Slots(w)[r.at])
    ensures r.Threw? ==> w.appMessagesManager.Throwing? || w.managersAppMessagesManager.Throwing?
  {
    ScanGlobalsIsFirst(w.globals, 0);
    if w.appMessagesManager.Throwing? then Threw
    else if FindCandidate(w.appMessagesManager) then Found(0)
    else if w.managersAppMessagesManager.Throwing? then Threw
    else if FindCandidate(w.managersAppMessagesManager) then Found(1)
    else
      match ScanGlobals(w.globals, 0)
      case Some(i) => Found(i + 2)
      case None => NotFound
  }

  /** Location `i` is the first candidate, and the search reaches it without an exception. */
  predicate IsFirstMatch(w: Window, i: nat)
  {
    i < |Slots(w)| && FindCandidate(Slots(w)[i]) &&
    (forall j :: 0 <= j < i ==> !FindCandidate(Slots(w)[j])) &&
    !(i > 0 && w.appMessagesManager.Throwing?) &&
    !(i > 1 && w.managersAppMessagesManager.Throwing?)
  }

  lemma {:induction false} ScanGlobalsIsFirst(globals: seq<Slot>, from: nat)
    requires from <= |globals|
    ensures ScanGlobals(globals, from).Some? ==>
      var i := ScanGlobals(globals, from).value;
      from <= i < |globals| && FindCandidate(globals[i]) &&
      forall j :: from <= j < i ==> !FindCandidate(globals[j])
    ensures ScanGlobals(globals, from).None? ==>
      forall j :: from <= j < |globals| ==> !FindCandidate(globals[j])
    decreases |globals| - from
  {
    if from < |globals| && !FindCandidate(globals[from]) {
      ScanGlobalsIsFirst(globals, from + 1);
    }
  }

  /**
   * The search returns the first candidate in the order appMessagesManager,
   * managers.appMessagesManager, then the global keys; it returns null exactly when no
   * location is a candidate and neither well-known path throws; it throws exactly when a
   * well-known path it reads throws.
   */
  lemma LocateIsFirstMatch(w: Window)
    ensures forall i :: Locate(w) == Found(i) <==> IsFirstMatch(w, i)
    ensures Locate(w) == NotFound <==>
      !w.appMessagesManager.Throwing? && !w.managersAppMessagesManager.Throwing? &&
      forall j :: 0 <= j < |Slots(w)| ==> !FindCandidate(Slots(w)[j])
    ensures Locate(w) == Threw <==>
      w.appMessagesManager.Throwing? ||
      (!FindCandidate(w.appMessagesManager) && w.managersAppMessagesManager.Throwing?)
  {
    var s := Slots(w);
    assert forall j :: 0 <= j < |w.globals| ==> s[j + 2] == w.globals[j];
    ScanGlobalsIsFirst(w.globals, 0);
    forall i: nat | IsFirstMatch(w, i) ensures Locate(w) == Found(i) {
      if i >= 2 {
        var k := ScanGlobals(w.globals, 0);
        assert FindCandidate(w.globals[i - 2]) && s[i] == w.globals[i - 2];
        if k.None? {
          assert false;
        } else if k.value != i - 2 {
          assert false;
        }
      }
    }
    if Locate(w).Found? {
      var i := Locate(w).at;
      if i >= 2 {
        forall j | 2 <= j < i ensures !FindCandidate(s[j]) {
          assert s[j] == w.globals[j - 2];
        }
      }
      assert IsFirstMatch(w, i);
    }
    if Locate(w) == NotFound {
      forall j | 2 <= j < |s| ensures !FindCandidate(s[j]) {
        assert s[j] == w.globals[j - 2];
      }
    }
  }

  /** The search as the page hook runs it: two checks, then a loop over the keys with an early return. */
  method LocateAppMessagesManager(w: Window) returns (r: Located)
    ensures r == Locate(w)
  {
    if w.appMessagesManager.Throwing? { return Threw; }
    if FindCandidate(w.appMessagesManager) { return Found(0); }
    if w.managersAppMessagesManager.Throwing? { return Threw; }
    if FindCandidate(w.managersAppMessagesManager) { return Found(1); }
    var i := 0;
    while i < |w.globals|
      invariant 0 <= i <= |w.globals|
      invariant ScanGlobals(w.globals, 0) == ScanGlobals(w.globals, i)
    {
      match w.globals[i] {
        case Throwing =>
          // the exception is caught and the key skipped
        case NotAnObject =>
        case Object(_) =>
          if FindCandidate(w.globals[i]) { return Found(i + 2); }
      }
      i := i + 1;
    }
    return NotFound;
  }
}
