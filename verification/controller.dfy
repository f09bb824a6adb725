/**
 * The content script: the TTL options and their `<select>` values, the change handlers
 * of the floating control and of the copy injected into pop-ups, the broadcast to the
 * page, and start-up.
 */
module Controller {
  import opened Wrappers
  import opened NumberText
  import opened TtlStorage
  import opened Discovery
  import opened PageHook

  /** One entry of `TTL_OPTIONS`: null for no timer, 0 for view once, otherwise seconds. */
  datatype TtlOption = TtlOption(value: Option<int>, caption: string)

  const TTL_OPTIONS: seq<TtlOption> := [
    TtlOption(None, "No timer"),
    TtlOption(Some(0), "View once"),
    TtlOption(Some(3), "3s"),
    TtlOption(Some(10), "10s"),
    TtlOption(Some(30), "30s")
  ]

  /**
   * The `<option>` value of a selection: `'none'` for null, `String(n)` for a number.
   * It is never "", the value of a control with nothing selected, and only null is
   * written as `'none'`.
   */
  function EncodeSelectValue(value: Option<int>): (raw: string)
    ensures raw != ""
    ensures raw == "none" <==> value.None?
  {
    if value.None? then "none"
    else
      ParseIntTextOfIntText(value.value);
      assert ParseIntText("none").None? by { assert !IsDigit('n'); }
      IntText(value.value)
  }

  /** The values a control's options can carry: `'none'` and integer text. */
  predicate IsSelectValue(raw: string)
  {
    raw == "none" || ParseIntText(raw).Some?
  }

  /**
   * `raw === 'none' ? null : Number(raw)`. Every such value other than "-0" (which reads
   * as 0) is the encoding of what it decodes to.
   */
  function DecodeSelectValue(raw: string): (value: Option<int>)
    requires IsSelectValue(raw)
    ensures raw != "-0" ==> EncodeSelectValue(value) == raw
    ensures raw == "-0" ==> value == Some(0)
  {
    if raw == "none" then None
    else
      var value := Some(ParseIntText(raw).value);
      if raw == "-0" then ParseNegativeZero(); value
      else
        IntTextOfParseIntText(raw);
        value
  }

  /** Every selection survives a trip through its `<option>` value. */
  lemma SelectValueRoundTrip(value: Option<int>)
    ensures IsSelectValue(EncodeSelectValue(value))
    ensures DecodeSelectValue(EncodeSelectValue(value)) == value
  {
    if value.Some? {
      ParseIntTextOfIntText(value.value);
    }
  }

  /** The `<option>` values of the controls, in the order of `TTL_OPTIONS`. */
  function OptionValues(): (values: seq<string>)
    ensures |values| == |TTL_OPTIONS|
    ensures forall i :: 0 <= i < |values| ==> IsSelectValue(values[i])
  {
    seq(|TTL_OPTIONS|, i requires 0 <= i < |TTL_OPTIONS| =>
      SelectValueRoundTrip(TTL_OPTIONS[i].value); EncodeSelectValue(TTL_OPTIONS[i].value))
  }

  /**
   * Each option's value decodes to that option's selection, so no two options share a
   * value and choosing an option selects exactly its TTL.
   */
  lemma OptionValuesRoundTrip()
    ensures forall i :: 0 <= i < |TTL_OPTIONS| ==>
      IsSelectValue(OptionValues()[i]) && DecodeSelectValue(OptionValues()[i]) == TTL_OPTIONS[i].value
    ensures forall i, j :: 0 <= i < j < |TTL_OPTIONS| ==> OptionValues()[i] != OptionValues()[j]
  {
    forall i | 0 <= i < |TTL_OPTIONS|
      ensures IsSelectValue(OptionValues()[i]) && DecodeSelectValue(OptionValues()[i]) == TTL_OPTIONS[i].value
    {
      SelectValueRoundTrip(TTL_OPTIONS[i].value);
    }
  }

  /** A `<select>` element: its options' values and its current `value`. */
  class SelectControl {
    const options: seq<string>
    var value: string

    /** `value` is one of the options, or "" when no option is selected. */
    ghost predicate Valid()
      reads this
    {
      value in options || value == ""
    }

    /** A new select with these options; its first option starts selected. */
    constructor (options: seq<string>)
      requires |options| > 0
      ensures this.options == options && value == options[0] && Valid()
    {
      this.options := options;
      value := options[0];
    }

    /** Assigning `value`: a value no option carries leaves no option selected. */
    method SetValue(raw: string)
      modifies this
      ensures value == (if raw in options then raw else "")
      ensures Valid()
    {
      value := if raw in options then raw else "";
    }
  }

  /**
   * The page's window as the content script reaches it: the page hook once its script
   * has run, and whether the hook script inserted by `injectPageHook` is still loading.
   * `onLoadBroadcast` is the selection that script element's `load` handler broadcasts,
   * or None for a handler that only revokes the blob URL.
   */
  class PageWindow {
    var hook: Hook?
    var scriptLoading: bool
    var onLoadBroadcast: Option<Option<int>>

    constructor ()
      ensures hook == null && !scriptLoading && onLoadBroadcast == None
    {
      hook := null;
      scriptLoading := false;
      onLoadBroadcast := None;
    }
  }

  /**
   * `dispatchTtlToPage(value)`: the page hook's listener, when it is attached, receives
   * the value at once; when no hook has run yet, the event is lost.
   */
  method DispatchTtlToPage(page: PageWindow, value: Option<int>)
    modifies page.hook
    ensures page.hook != null ==> page.hook.ttlSeconds == value && page.hook.timer == old(page.hook.timer)
  {
    if page.hook != null {
      page.hook.OnSetTtl(value);
    }
  }

  /** What the main control shows for a stored selection. */
  function ShownValue(stored: Option<int>): string
  {
    if EncodeSelectValue(stored) in OptionValues() then EncodeSelectValue(stored) else ""
  }

  /** A stored selection that is one of the options is shown as that option; any other stored number shows none. */
  lemma ShownValueSelectsStored(stored: Option<int>)
    ensures (exists i :: 0 <= i < |TTL_OPTIONS| && TTL_OPTIONS[i].value == stored) ==>
      IsSelectValue(ShownValue(stored)) && DecodeSelectValue(ShownValue(stored)) == stored
    ensures !(exists i :: 0 <= i < |TTL_OPTIONS| && TTL_OPTIONS[i].value == stored) ==> ShownValue(stored) == ""
  {
    SelectValueRoundTrip(stored);
    OptionValuesRoundTrip();
    if EncodeSelectValue(stored) in OptionValues() {
      var i :| 0 <= i < |OptionValues()| && OptionValues()[i] == EncodeSelectValue(stored);
      assert TTL_OPTIONS[i].value == stored;
    }
  }

  /** The main control's change handler: decode, persist, then broadcast the same value. */
  method OnSelectChange(control: SelectControl, store: LocalStorage, page: PageWindow)
    requires control.options == OptionValues() && control.value in control.options
    modifies store, page.hook
    ensures store.items == PersistedItems(old(store.items), store.access, DecodeSelectValue(control.value))
    ensures page.hook != null ==>
      page.hook.ttlSeconds == DecodeSelectValue(control.value) && page.hook.timer == old(page.hook.timer)
    ensures store.access == Available ==> ReadStoredTtl(store) == DecodeSelectValue(control.value)
  {
    OptionValuesRoundTrip();
    var raw := control.value;
    var value := DecodeSelectValue(raw);
    PersistTtl(store, value);
    DispatchTtlToPage(page, value);
    PersistThenRead(old(store.items), store.access, value);
  }

  /** The pop-up control is created showing the main control's value. */
  method CreatePopupSelect(main: SelectControl) returns (popup: SelectControl)
    requires main.options == OptionValues() && main.Valid()
    ensures fresh(popup) && popup.options == OptionValues() && popup.value == main.value
  {
    popup := new SelectControl(OptionValues());
    popup.SetValue(main.value);
  }

  /**
   * The pop-up control's change handler: copy its value into the main control, so both
   * show the same selection, then decode, persist and broadcast as the main handler does.
   */
  method OnPopupChange(popup: SelectControl, main: SelectControl, store: LocalStorage, page: PageWindow)
    requires popup.options == OptionValues() && popup.value in popup.options
    requires main.options == OptionValues()
    modifies main, store, page.hook
    ensures main.value == popup.value == old(popup.value)
    ensures store.items == PersistedItems(old(store.items), store.access, DecodeSelectValue(old(popup.value)))
    ensures page.hook != null ==>
      page.hook.ttlSeconds == DecodeSelectValue(old(popup.value)) && page.hook.timer == old(page.hook.timer)
    ensures store.access == Available ==> ReadStoredTtl(store) == DecodeSelectValue(old(popup.value))
  {
    OptionValuesRoundTrip();
    main.SetValue(popup.value);
    var raw := popup.value;
    var value := DecodeSelectValue(raw);
    PersistTtl(store, value);
    DispatchTtlToPage(page, value);
    PersistThenRead(old(store.items), store.access, value);
  }

  /**
   * The logic of `createUi`: read the stored selection, show it in the new control,
   * and broadcast it to the page.
   */
  method CreateUi(store: LocalStorage, page: PageWindow) returns (main: SelectControl)
    modifies page.hook
    ensures fresh(main) && main.options == OptionValues() && main.Valid()
    ensures main.value == ShownValue(ReadStoredTtl(store))
    ensures page.hook != null ==>
      page.hook.ttlSeconds == ReadStoredTtl(store) && page.hook.timer == old(page.hook.timer)
  {
    var stored := ReadStoredTtl(store);
    main := new SelectControl(OptionValues());
    main.SetValue(EncodeSelectValue(stored));
    DispatchTtlToPage(page, stored);
  }

  /**
   * `injectPageHook`: a script element whose source is a blob URL is inserted (and
   * removed at once, which does not stop it). The browser fetches and runs it later, in a
   * task of its own, so the hook is not in place when the call returns; the element's
   * `load` handler only revokes the URL. The content script injects the hook once per page.
   */
  method InjectPageHook(page: PageWindow)
    requires page.hook == null && !page.scriptLoading
    modifies page
    ensures page.hook == null && page.scriptLoading && page.onLoadBroadcast == None
  {
    page.scriptLoading := true;
    page.onLoadBroadcast := None;
  }

  /** `injectPageHook` whose script element's `load` handler also broadcasts `stored`. */
  method InjectPageHookCorrected(page: PageWindow, stored: Option<int>)
    requires page.hook == null && !page.scriptLoading
    modifies page
    ensures page.hook == null && page.scriptLoading && page.onLoadBroadcast == Some(stored)
  {
    page.scriptLoading := true;
    page.onLoadBroadcast := Some(stored);
  }

  /**
   * The later task in which the inserted script runs, with `w` the page's namespace: the
   * hook starts with null selected and its listener attached, runs its start-up `tick()`
   * and schedules its interval (`Hook.Start`; the firings that follow are `Hook.Retry`),
   * and then the script element's `load` handler runs.
   */
  method LoadHookScript(page: PageWindow, w: Window)
    modifies page, Managers(w)
    ensures !old(page.scriptLoading) ==>
      page.hook == old(page.hook) && !page.scriptLoading && page.onLoadBroadcast == old(page.onLoadBroadcast) &&
      forall m :: m in Managers(w) ==> StateOf(m) == old(StateOf(m))
    ensures old(page.scriptLoading) ==>
      page.hook != null && fresh(page.hook) && !page.scriptLoading &&
      page.hook.ttlSeconds == (if old(page.onLoadBroadcast).Some? then old(page.onLoadBroadcast).value else None) &&
      page.hook.timer == (if TickOf(w) == Raised then Unscheduled else Running) &&
      forall m :: m in Managers(w) ==>
        StateOf(m) == if Target(w) == Some(m) then Patch(old(StateOf(m))) else old(StateOf(m))
  {
    if page.scriptLoading {
      var hook := new Hook();
      var _ := hook.Start(w);
      page.hook := hook;
      page.scriptLoading := false;
      if page.onLoadBroadcast.Some? {
        DispatchTtlToPage(page, page.onLoadBroadcast.value);
      }
    }
  }

  /**
   * `hostname.includes(part)`. Only a part no longer than the hostname can be found, and
   * a hostname ending in the part (`web.telegram.org` itself, or a subdomain of it)
   * always includes it.
   */
  predicate Includes(hostname: string, part: string): (r: bool)
    ensures r ==> |part| <= |hostname|
    ensures |part| <= |hostname| && hostname[|hostname| - |part|..] == part ==> r
    decreases |hostname|
  {
    |part| <= |hostname| &&
    (hostname[..|part|] == part ||
     // a suffix of the hostname is either all of it or a suffix of its tail
     assert |part| == |hostname| ==> hostname[..|part|] == hostname[|hostname| - |part|..];
     assert |part| < |hostname| ==> hostname[1..][|hostname| - 1 - |part|..] == hostname[|hostname| - |part|..];
     Includes(hostname[1..], part))
  }

  /** `part` occurs in `hostname` starting at index `i`. */
  predicate OccursAt(hostname: string, part: string, i: nat)
  {
    i + |part| <= |hostname| && hostname[i..i + |part|] == part
  }

  /** `includes` finds `part` exactly when it occurs somewhere in `hostname`. */
  lemma {:induction false} IncludesIsSubstring(hostname: string, part: string)
    ensures Includes(hostname, part) <==> exists i: nat :: OccursAt(hostname, part, i)
    decreases |hostname|
  {
    if |part| <= |hostname| && hostname[..|part|] != part {
      IncludesIsSubstring(hostname[1..], part);
      if exists i: nat :: OccursAt(hostname, part, i) {
        var i: nat :| OccursAt(hostname, part, i);
        assert i > 0;
        assert OccursAt(hostname[1..], part, i - 1) by {
          assert hostname[1..][i - 1..i - 1 + |part|] == hostname[i..i + |part|];
        }
      }
      if Includes(hostname[1..], part) {
        var j: nat :| OccursAt(hostname[1..], part, j);
        assert OccursAt(hostname, part, j + 1) by {
          assert hostname[1..][j..j + |part|] == hostname[j + 1..j + 1 + |part|];
        }
      }
    } else if |part| <= |hostname| {
      assert OccursAt(hostname, part, 0);
    }
  }

  const HOST_PART: string := "web.telegram.org"

  /**
   * `init` as written: nothing happens off the messaging site; otherwise `createUi`
   * broadcasts the stored selection while no hook is in place, and the hook script is
   * left loading with a `load` handler that broadcasts nothing.
   */
  method Init(hostname: string, store: LocalStorage, page: PageWindow) returns (main: SelectControl?)
    requires page.hook == null && !page.scriptLoading
    modifies page
    ensures !Includes(hostname, HOST_PART) ==> main == null && page.hook == null && !page.scriptLoading
    ensures Includes(hostname, HOST_PART) ==>
      main != null && fresh(main) && main.value == ShownValue(ReadStoredTtl(store)) &&
      page.hook == null && page.scriptLoading && page.onLoadBroadcast == None
  {
    if !Includes(hostname, HOST_PART) {
      return null;
    }
    main := CreateUi(store, page);
    InjectPageHook(page);
  }

  /** `init` with the stored selection broadcast from the hook script's `load` handler. */
  method InitCorrected(hostname: string, store: LocalStorage, page: PageWindow) returns (main: SelectControl?)
    requires page.hook == null && !page.scriptLoading
    modifies page
    ensures !Includes(hostname, HOST_PART) ==> main == null && page.hook == null && !page.scriptLoading
    ensures Includes(hostname, HOST_PART) ==>
      main != null && fresh(main) && main.value == ShownValue(ReadStoredTtl(store)) &&
      page.hook == null && page.scriptLoading && page.onLoadBroadcast == Some(ReadStoredTtl(store))
  {
    if !Includes(hostname, HOST_PART) {
      return null;
    }
    main := CreateUi(store, page);
    InjectPageHookCorrected(page, ReadStoredTtl(store));
  }

  /**
   * Start-up with 10 seconds stored, followed by the hook script loading: the control
   * shows "10" while the page hook sends without a timer.
   */
  method StartupWithTenSecondsStored() returns (shown: string, active: Option<int>)
    ensures shown == "10" && active == None
  {
    var store := new LocalStorage(map[STORAGE_KEY := "10"], Available);
    var page := new PageWindow();
    assert ReadStoredTtl(store) == Some(10) by { ParseIntTextOfIntText(10); }
    SelectValueRoundTrip(Some(10));
    assert ShownValue(Some(10)) == "10" by { assert OptionValues()[3] == "10"; }
    var main := Init(HOST_PART, store, page);
    LoadHookScript(page, Window(NotAnObject, NotAnObject, []));
    shown := main.value;
    active := page.hook.ttlSeconds;
  }

  /** The same start-up with the broadcast in the `load` handler: the hook sends with the stored 10 seconds. */
  method StartupWithTenSecondsStoredCorrected() returns (shown: string, active: Option<int>)
    ensures shown == "10" && active == Some(10)
  {
    var store := new LocalStorage(map[STORAGE_KEY := "10"], Available);
    var page := new PageWindow();
    assert ReadStoredTtl(store) == Some(10) by { ParseIntTextOfIntText(10); }
    SelectValueRoundTrip(Some(10));
    assert ShownValue(Some(10)) == "10" by { assert OptionValues()[3] == "10"; }
    var main := InitCorrected(HOST_PART, store, page);
    LoadHookScript(page, Window(NotAnObject, NotAnObject, []));
    shown := main.value;
    active := page.hook.ttlSeconds;
  }

  /** Broadcasting straight after `injectPageHook` returns is no fix: the hook script has not run yet. */
  method BroadcastRightAfterInjectionIsLost() returns (active: Option<int>)
    ensures active == None
  {
    var page := new PageWindow();
    InjectPageHook(page);
    DispatchTtlToPage(page, Some(10));
    LoadHookScript(page, Window(NotAnObject, NotAnObject, []));
    active := page.hook.ttlSeconds;
  }
}
