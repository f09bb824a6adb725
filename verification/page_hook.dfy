/**
 * The page hook's state and driving logic: the `set-ttl` listener, `patchSendFile`,
 * `tick`, and the start-up tick followed by the retry interval.
 */
module PageHook {
  import opened Wrappers
  import opened JsValues
  import opened TtlTransform
  import opened Discovery

  /** A manager's patch-relevant state: the `__viewOncePatched` marker and its `sendFile`. */
  datatype PatchState = PatchState(marked: bool, sendFile: SendFn)

  function StateOf(m: Manager): PatchState
    reads m
  {
    PatchState(m.viewOncePatched, m.sendFile)
  }

  /** How many `patchedSendFile` wrappers sit around the host's own implementation. */
  function WrapDepth(f: SendFn): nat
  {
    match f
    case HostSendFile(_) => 0
    case TtlWrapper(inner) => WrapDepth(inner) + 1
  }

  /** The effect of `patchSendFile` on a manager. */
  function Patch(s: PatchState): (t: PatchState)
    ensures t.marked
    ensures s.marked ==> t == s
    ensures !s.marked ==> t.sendFile == TtlWrapper(s.sendFile)
    ensures WrapDepth(t.sendFile) == WrapDepth(s.sendFile) + (if s.marked then 0 else 1)
  {
    if s.marked then s else PatchState(true, TtlWrapper(s.sendFile))
  }

  function PatchTimes(s: PatchState, n: nat): PatchState
    decreases n
  {
    if n == 0 then s else Patch(PatchTimes(s, n - 1))
  }

  /** However often a manager is patched, its sendFile is wrapped exactly once (if it was unmarked). */
  lemma {:induction false} RepeatedPatchWrapsOnce(s: PatchState, n: nat)
    requires n >= 1
    ensures PatchTimes(s, n) == Patch(s)
    ensures WrapDepth(PatchTimes(s, n).sendFile) == WrapDepth(s.sendFile) + (if s.marked then 0 else 1)
    decreases n
  {
    if n > 1 {
      RepeatedPatchWrapsOnce(s, n - 1);
    }
  }

  /** The host implementation at the bottom of a chain of wrappers. */
  function Root(f: SendFn): nat
  {
    match f
    case HostSendFile(id) => id
    case TtlWrapper(inner) => Root(inner)
  }

  /**
   * Calling `sendFile` with `opts` while the hook's selection is `ttl`; `host` stands for
   * the host's implementations, whose result is returned as it is. However many wrappers
   * there are, the host receives the options transformed once (the transformer is
   * idempotent), and the original ones when there is no wrapper.
   */
  function Call<R>(f: SendFn, ttl: Option<int>, opts: Value, host: (nat, Value) -> R): (r: R)
    ensures r == host(Root(f), if WrapDepth(f) == 0 then opts else Apply(opts, ttl).result)
    decreases f
  {
    match f
    case HostSendFile(id) => host(id, opts)
    case TtlWrapper(original) =>
      ApplyIdempotent(opts, ttl);
      Call(original, ttl, Apply(opts, ttl).result, host)
  }

  /** The wrapper passes the transformed options to the original and returns its result unchanged. */
  lemma PatchedSendForwards<R>(id: nat, marked: bool, ttl: Option<int>, opts: Value, host: (nat, Value) -> R)
    ensures Call(Patch(PatchState(marked, HostSendFile(id))).sendFile, ttl, opts, host)
      == if marked then host(id, opts) else host(id, Apply(opts, ttl).result)
  {
  }

  /**
   * `patchSendFile(manager)`: nothing on null or on a marked manager; otherwise wrap
   * `sendFile` once and set the marker. (Binding a `sendFile` that is not a function
   * would throw; the caller only passes managers it found.)
   */
  method PatchSendFile(manager: Manager?)
    requires manager != null && !manager.viewOncePatched ==> manager.sendFileIsFunction
    modifies manager
    ensures manager != null ==> StateOf(manager) == Patch(old(StateOf(manager)))
  {
    if manager == null || manager.viewOncePatched {
      return;
    }
    var original := manager.sendFile;
    manager.sendFile := TtlWrapper(original);
    manager.viewOncePatched := true;
  }

  /** The manager a search finds, if any. */
  function Target(w: Window): Option<Manager>
  {
    match Locate(w)
    case Found(i) => if i < |Slots(w)| && Slots(w)[i].Object? then Some(Slots(w)[i].manager) else None
    case NotFound => None
    case Threw => None
  }

  lemma TargetIsCandidate(w: Window)
    ensures Target(w).Some? <==> Locate(w).Found?
    ensures Target(w).Some? ==> Target(w).value in Managers(w) && Target(w).value.sendFileIsFunction
  {
  }

  /** What `tick()` does: true when a manager was found, false when none, or an escaped exception. */
  datatype TickOutcome = Matched | NoMatch | Raised

  function TickOf(w: Window): (r: TickOutcome)
    ensures r == Matched <==> Target(w).Some?
  {
    TargetIsCandidate(w);
    match Locate(w)
    case Found(_) => Matched
    case NotFound => NoMatch
    case Threw => Raised
  }

  /** `tick()`: search, and patch the manager found. */
  method Tick(w: Window) returns (r: TickOutcome)
    modifies Managers(w)
    ensures r == TickOf(w)
    ensures forall m :: m in Managers(w) ==>
      StateOf(m) == if Target(w) == Some(m) then Patch(old(StateOf(m))) else old(StateOf(m))
  {
    var found := LocateAppMessagesManager(w);
    TargetIsCandidate(w);
    if found.Found? {
      var m := Target(w).value;
      PatchSendFile(m);
      return Matched;
    }
    return if found.NotFound? then NoMatch else Raised;
  }

  /** The retry interval: not (yet) scheduled, running, or cleared. */
  datatype Timer = Unscheduled | Running | Cleared

  /** All managers referred to by a sequence of namespace snapshots. */
  function AllManagers(worlds: seq<Window>): set<Manager>
  {
    set k, i | 0 <= k < |worlds| && 0 <= i < |Slots(worlds[k])| && Slots(worlds[k])[i].Object? ::
      Slots(worlds[k])[i].manager
  }

  lemma ManagersInAll(worlds: seq<Window>, k: nat)
    requires k < |worlds|
    ensures Managers(worlds[k]) <= AllManagers(worlds)
  {
  }

  /** The first interval step at or after `k` whose tick finds a manager. */
  function FirstMatchFrom(worlds: seq<Window>, k: nat): (r: Option<nat>)
    requires k <= |worlds|
    ensures r.Some? ==> k <= r.value < |worlds| && TickOf(worlds[r.value]) == Matched
    ensures r.Some? ==> forall j :: k <= j < r.value ==> TickOf(worlds[j]) != Matched
    ensures r.None? ==> forall j :: k <= j < |worlds| ==> TickOf(worlds[j]) != Matched
    decreases |worlds| - k
  {
    if k == |worlds| then None
    else if TickOf(worlds[k]) == Matched then Some(k)
    else FirstMatchFrom(worlds, k + 1)
  }

  /** The managers patched by a run: the one found at start-up and the one found on the step that clears the interval. */
  function PatchedByRun(worlds: seq<Window>): set<Manager>
    requires |worlds| > 0
  {
    (if Target(worlds[0]).Some? then {Target(worlds[0]).value} else {}) +
    (if TickOf(worlds[0]) != Raised && FirstMatchFrom(worlds, 1).Some?
     then {Target(worlds[FirstMatchFrom(worlds, 1).value]).value} else {})
  }

  /** The state of one page hook: `state.ttlSeconds` and the retry interval. */
  class Hook {
    var ttlSeconds: Option<int>
    var timer: Timer

    /** The hook script starts: `state.ttlSeconds` is null and the listener is attached. */
    constructor ()
      ensures ttlSeconds == None && timer == Unscheduled
    {
      ttlSeconds := None;
      timer := Unscheduled;
    }

    /** The `set-ttl` listener: `state.ttlSeconds` becomes the event's detail (null or a number). */
    method OnSetTtl(detail: Option<int>)
      modifies this
      ensures ttlSeconds == detail && timer == old(timer)
    {
      ttlSeconds := detail;
    }

    /** The host calling the manager's `sendFile(opts)` now. */
    function Send<R>(m: Manager, opts: Value, host: (nat, Value) -> R): R
      reads this, m
    {
      Call(m.sendFile, ttlSeconds, opts, host)
    }

    /**
     * The first `tick()` when the script loads, then `setInterval`. If that tick throws,
     * the script stops there and no interval is ever scheduled; otherwise the interval is
     * scheduled whether or not the tick found a manager.
     */
    method Start(w: Window) returns (r: TickOutcome)
      requires timer == Unscheduled
      modifies this, Managers(w)
      ensures r == TickOf(w)
      ensures timer == (if r == Raised then Unscheduled else Running)
      ensures ttlSeconds == old(ttlSeconds)
      ensures forall m :: m in Managers(w) ==>
        StateOf(m) == if Target(w) == Some(m) then Patch(old(StateOf(m))) else old(StateOf(m))
    {
      r := Tick(w);
      if r != Raised {
        timer := Running;
      }
    }

    /**
     * One firing of the interval: tick, and clear the interval when it returns true. An
     * exception thrown by the tick ends that firing only; the interval keeps running.
     */
    method OnInterval(w: Window) returns (r: TickOutcome)
      requires timer == Running
      modifies this, Managers(w)
      ensures r == TickOf(w)
      ensures timer == (if r == Matched then Cleared else Running)
      ensures ttlSeconds == old(ttlSeconds)
      ensures forall m :: m in Managers(w) ==>
        StateOf(m) == if Target(w) == Some(m) then Patch(old(StateOf(m))) else old(StateOf(m))
    {
      r := Tick(w);
      if r == Matched {
        timer := Cleared;
      }
    }

    /**
     * The interval firing at steps 1, 2, ... of `worlds` (step 0 being the start-up tick),
     * until one firing finds a manager and clears the interval, or the steps run out.
     */
    method Retry(worlds: seq<Window>) returns (stop: Option<nat>)
      requires |worlds| > 0 && timer == Running
      modifies this, AllManagers(worlds)
      ensures stop == FirstMatchFrom(worlds, 1)
      ensures timer == (if stop.Some? then Cleared else Running)
      ensures ttlSeconds == old(ttlSeconds)
      ensures forall m :: m in AllManagers(worlds) ==>
        StateOf(m) == if stop.Some? && Target(worlds[stop.value]) == Some(m) then Patch(old(StateOf(m)))
          else old(StateOf(m))
    {
      var k := 1;
      stop := None;
      while k < |worlds| && stop.None?
        invariant 1 <= k <= |worlds|
        invariant ttlSeconds == old(ttlSeconds)
        invariant stop.None? ==> timer == Running && FirstMatchFrom(worlds, 1) == FirstMatchFrom(worlds, k)
        invariant stop.Some? ==> timer == Cleared && stop == FirstMatchFrom(worlds, 1)
        invariant forall m :: m in AllManagers(worlds) ==>
          StateOf(m) == if stop.Some? && Target(worlds[stop.value]) == Some(m) then Patch(old(StateOf(m)))
            else old(StateOf(m))
      {
        ManagersInAll(worlds, k);
        var r := OnInterval(worlds[k]);
        if r == Matched {
          stop := Some(k);
        }
        k := k + 1;
      }
    }

    /**
     * The hook's discovery loop over discrete steps: `worlds[0]` is the namespace when the
     * script loads, `worlds[k]` the namespace at the k-th firing of the interval. Returns
     * how many ticks ran. The interval is cleared on the first firing that finds a manager
     * and never fires again; every manager is wrapped at most once.
     */
    method Run(worlds: seq<Window>) returns (ticks: nat)
      requires |worlds| > 0 && timer == Unscheduled
      modifies this, AllManagers(worlds)
      ensures ttlSeconds == old(ttlSeconds)
      ensures TickOf(worlds[0]) == Raised ==> timer == Unscheduled && ticks == 1
      ensures TickOf(worlds[0]) != Raised && FirstMatchFrom(worlds, 1).Some? ==>
        timer == Cleared && ticks == FirstMatchFrom(worlds, 1).value + 1
      ensures TickOf(worlds[0]) != Raised && FirstMatchFrom(worlds, 1).None? ==>
        timer == Running && ticks == |worlds|
      ensures forall m :: m in AllManagers(worlds) ==>
        StateOf(m) == if m in PatchedByRun(worlds) then Patch(old(StateOf(m))) else old(StateOf(m))
    {
      ManagersInAll(worlds, 0);
      var r := Start(worlds[0]);
      if r == Raised {
        return 1;
      }
      label Started:
      var stop := Retry(worlds);
      ticks := if stop.Some? then stop.value + 1 else |worlds|;
      forall m | m in AllManagers(worlds)
        ensures StateOf(m) == if m in PatchedByRun(worlds) then Patch(old(StateOf(m))) else old(StateOf(m))
      {
        var s0 := old(StateOf(m));
        var s1 := old@Started(StateOf(m));
        if m in Managers(worlds[0]) {
          assert s1 == if Target(worlds[0]) == Some(m) then Patch(s0) else s0;
        } else {
          assert s1 == s0;
        }
      }
    }
  }

  /**
   * The listener and the patch together: after the page selects 10 seconds and a
   * manager is patched, the host's `sendFile` receives `{media: [{}], pFlags: {}}` as
   * `{media: [{ttl_seconds: 10}], pFlags: {ttl_seconds: true}, ttl_seconds: 10}`.
   */
  method SelectTenSecondsThenSend<R>(host: (nat, Value) -> R) returns (sent: R)
    ensures
      var entry := Obj(EmptyObject().fields.(ttlSeconds := Num(10)));
      var flags := Obj(EmptyObject().fields.(ttlSeconds := Bool(true)));
      sent == host(7, Obj(EmptyObject().fields.(media := PlainArray([entry]), pFlags := flags, ttlSeconds := Num(10))))
  {
    var hook := new Hook();
    hook.OnSetTtl(Some(10));
    var manager := new Manager(true, true, true, HostSendFile(7));
    PatchSendFile(manager);
    TenSecondsScenario();
    sent := hook.Send(manager, Obj(EmptyObject().fields.(media := PlainArray([EmptyObject()]), pFlags := EmptyObject())), host);
  }
}
