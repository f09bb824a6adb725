/**
 * The argument transformer `applyTtlToOptions` of the page hook, and `cloneOptions`.
 *
 * `ttl` is the hook's current selection read from `state.ttlSeconds`: `None` for no timer,
 * `Some(0)` for view once, `Some(t)` for a timer of `t` seconds.
 */
module TtlTransform {
  import opened Wrappers
  import opened JsValues

  /**
   * The outcome of one call: `argument` is the caller's own object as the call leaves it
   * (its `media` and `message` are reassigned in place before any copy is made), and
   * `result` is the value the call returns.
   */
  datatype Applied = Applied(argument: Value, result: Value)

  /** The `ttl_seconds` value written for a selection: view once (0) is sent as 1. */
  function TtlSecondsFor(ttl: int): (seconds: int)
    ensures seconds != 0
    ensures ttl != 0 ==> seconds == ttl
    ensures ttl == 0 ==> seconds == 1
  {
    if ttl == 0 then 1 else ttl
  }

  /**
   * The outcome of `cloneOptions`: the copy, and whether it is the spread copy `{...options}`
   * made when `structuredClone` throws. The copy has the original's properties either way;
   * the spread copy is a plain object even when the original is an array (its elements
   * become index-named properties), and its properties are the original's own objects, so
   * a later write into its `pFlags` is a write into the original's `pFlags`.
   */
  datatype Clone = Clone(copy: Fields, shared: bool)

  /** `cloneOptions(options)`: a deep copy, or the shallow spread copy when `structuredClone` throws. */
  function CloneOptions(options: Fields): (c: Clone)
    ensures c.shared <==> !Cloneable(Obj(options))
    ensures c.copy.(isArray := options.isArray) == options
    // an array stays an array only through the deep clone
    ensures c.copy.isArray <==> options.isArray && !c.shared
  {
    var shared := !Cloneable(Obj(options));
    Clone(if shared then options.(isArray := false) else options, shared)
  }

  /** `applyTtlToOptions(options)` with `state.ttlSeconds == ttl`. */
  function Apply(options: Value, ttl: Option<int>): (a: Applied)
    decreases options
    // a non-object (or null) is passed through untouched
    ensures !options.Obj? ==> a.argument == options && a.result == options
    ensures options.Obj? ==> a.argument.Obj? && a.result.Obj?
    // the caller's object: each media entry is replaced by its own transform ...
    ensures options.Obj? && IsArray(options.fields.media) ==>
      var before := options.fields.media.fields.elements;
      // ... in a fresh plain array, as `map` builds it
      IsArray(a.argument.fields.media) &&
      a.argument.fields.media == PlainArray(a.argument.fields.media.fields.elements) &&
      |a.argument.fields.media.fields.elements| == |before| &&
      forall i :: 0 <= i < |before| ==>
        a.argument.fields.media.fields.elements[i] == Apply(before[i], ttl).result
    ensures options.Obj? && !IsArray(options.fields.media) ==>
      a.argument.fields.media == options.fields.media
    // ... the nested message by its own transform ...
    ensures options.Obj? ==> a.argument.fields.message == Apply(options.fields.message, ttl).result
    // ... and nothing else of it changes, except its pFlags as stated below
    ensures options.Obj? ==>
      a.argument.fields.(media := options.fields.media, message := options.fields.message,
                         pFlags := options.fields.pFlags) == options.fields
    // the caller's pFlags: untouched without a timer, or when the deep clone succeeds ...
    ensures options.Obj? && (ttl.None? || !options.fields.pFlags.Obj? ||
                             Cloneable(Obj(a.argument.fields.(pFlags := options.fields.pFlags)))) ==>
      a.argument.fields.pFlags == options.fields.pFlags
    // ... but flagged too when the spread fallback shares it with the copy
    ensures options.Obj? && ttl.Some? && options.fields.pFlags.Obj? &&
            !Cloneable(Obj(a.argument.fields.(pFlags := options.fields.pFlags))) ==>
      a.argument.fields.pFlags == a.result.fields.pFlags && a.argument.fields.pFlags.Obj? &&
      a.argument.fields.pFlags.fields == options.fields.pFlags.fields.(ttlSeconds := Bool(true))
    // no timer: the caller's (rewritten) object itself is returned
    ensures options.Obj? && ttl.None? ==> a.result == a.argument
    // a timer: a copy of the rewritten object carrying ttl_seconds ...
    ensures options.Obj? && ttl.Some? ==>
      a.result.fields.(isArray := a.argument.fields.isArray, ttlSeconds := a.argument.fields.ttlSeconds,
                       pFlags := a.argument.fields.pFlags)
        == a.argument.fields
    // ... which is an array only when the options are one and the deep clone succeeds ...
    ensures options.Obj? && ttl.Some? ==>
      (IsArray(a.result) <==>
        options.fields.isArray && Cloneable(Obj(a.argument.fields.(pFlags := options.fields.pFlags))))
    ensures options.Obj? && ttl.Some? ==>
      a.result.fields.ttlSeconds == Num(TtlSecondsFor(ttl.value))
    // ... whose pFlags, only when present as an object, gain ttl_seconds = true
    ensures options.Obj? && ttl.Some? ==>
      (a.result.fields.pFlags.Obj? <==> options.fields.pFlags.Obj?)
    ensures options.Obj? && ttl.Some? && options.fields.pFlags.Obj? ==>
      a.result.fields.pFlags.fields == options.fields.pFlags.fields.(ttlSeconds := Bool(true))
    ensures options.Obj? && ttl.Some? && !options.fields.pFlags.Obj? ==>
      a.result.fields.pFlags == options.fields.pFlags
  {
    if !options.Obj? then Applied(options, options)
    else
      var f := options.fields;
      var media :=
        if IsArray(f.media) then
          var xs := f.media.fields.elements;
          PlainArray(seq(|xs|, i requires 0 <= i < |xs| => Apply(xs[i], ttl).result))
        else f.media;
      var message := if Truthy(f.message) then Apply(f.message, ttl).result else f.message;
      var caller := f.(media := media, message := message);
      if ttl.None? then Applied(Obj(caller), Obj(caller))
      else
        var clone := CloneOptions(caller);
        var patched := clone.copy;
        var flagged := Truthy(patched.pFlags) && patched.pFlags.Obj?;
        var flags := if flagged then Obj(patched.pFlags.fields.(ttlSeconds := Bool(true))) else patched.pFlags;
        // the spread copy's pFlags is the caller's own pFlags object
        var after := if clone.shared && flagged then caller.(pFlags := flags) else caller;
        Applied(Obj(after), Obj(patched.(ttlSeconds := Num(TtlSecondsFor(ttl.value)), pFlags := flags)))
  }

  /**
   * `v` carries `ttl_seconds == seconds` at every level the transformer visits: on the
   * object itself, on every object in its `media` array and on its nested `message`,
   * and each `pFlags` object on the way has its `ttl_seconds` flag set.
   */
  ghost predicate Timed(v: Value, seconds: int)
    decreases v
  {
    v.Obj? ==>
      v.fields.ttlSeconds == Num(seconds) &&
      (v.fields.pFlags.Obj? ==> v.fields.pFlags.fields.ttlSeconds == Bool(true)) &&
      (IsArray(v.fields.media) ==>
        forall i :: 0 <= i < |v.fields.media.fields.elements| ==> Timed(v.fields.media.fields.elements[i], seconds)) &&
      Timed(v.fields.message, seconds)
  }

  /** With a timer selected, every media entry and the nested message receive the same ttl_seconds. */
  lemma {:induction false} TimerReachesEveryLevel(options: Value, ttl: int)
    ensures Timed(Apply(options, Some(ttl)).result, TtlSecondsFor(ttl))
    decreases options
  {
    if options.Obj? {
      var f := options.fields;
      if IsArray(f.media) {
        var xs := f.media.fields.elements;
        forall i | 0 <= i < |xs| ensures Timed(Apply(xs[i], Some(ttl)).result, TtlSecondsFor(ttl)) {
          TimerReachesEveryLevel(xs[i], ttl);
        }
      }
      TimerReachesEveryLevel(f.message, ttl);
    }
  }

  /** View once (0) is always sent as `ttl_seconds == 1`, never 0, at every level. */
  lemma ViewOnceSendsOneSecond(options: Value)
    requires options.Obj?
    ensures Apply(options, Some(0)).result.fields.ttlSeconds == Num(1)
    ensures Timed(Apply(options, Some(0)).result, 1)
  {
    TimerReachesEveryLevel(options, 0);
  }

  /** Applying the transformer to its own output with the same selection changes nothing. */
  lemma {:induction false} ApplyIdempotent(options: Value, ttl: Option<int>)
    ensures Apply(Apply(options, ttl).result, ttl).result == Apply(options, ttl).result
    decreases options
  {
    if options.Obj? {
      var f := options.fields;
      var once := Apply(options, ttl).result;
      var twice := Apply(once, ttl).result;
      if IsArray(f.media) {
        var xs := f.media.fields.elements;
        var ys := once.fields.media.fields.elements;
        forall i | 0 <= i < |xs| ensures Apply(ys[i], ttl).result == ys[i] {
          ApplyIdempotent(xs[i], ttl);
        }
        assert twice.fields.media.fields.elements == ys;
        assert twice.fields.media == once.fields.media;
      }
      ApplyIdempotent(f.message, ttl);
      if ttl.Some? && once.fields.isArray {
        // the deep clone of the first call succeeded, and its flags keep the tree cloneable
        var caller := Apply(options, ttl).argument.fields.(pFlags := f.pFlags);
        assert Cloneable(Obj(caller));
        assert Cloneable(once.fields.pFlags);
        assert Cloneable(Obj(once.fields));
      }
      assert twice.fields == once.fields;
    }
  }

  /**
   * Every `media` array the transformer visits is a plain array: it has no own property
   * besides its elements (the transformer rebuilds these arrays with `map`, which keeps
   * the elements only).
   */
  ghost predicate PlainMedia(v: Value)
    decreases v
  {
    v.Obj? ==>
      (IsArray(v.fields.media) ==>
        v.fields.media == PlainArray(v.fields.media.fields.elements) &&
        forall i :: 0 <= i < |v.fields.media.fields.elements| ==> PlainMedia(v.fields.media.fields.elements[i])) &&
      PlainMedia(v.fields.message)
  }

  /**
   * With no timer selected, a call leaves the caller's options as they were and returns
   * them as they are: no `ttl_seconds` and no flag is added anywhere.
   */
  lemma {:induction false} NoTimerIsIdentity(options: Value)
    requires PlainMedia(options)
    ensures Apply(options, None) == Applied(options, options)
    decreases options
  {
    if options.Obj? {
      var f := options.fields;
      if IsArray(f.media) {
        var xs := f.media.fields.elements;
        forall i | 0 <= i < |xs| ensures Apply(xs[i], None).result == xs[i] {
          NoTimerIsIdentity(xs[i]);
        }
        assert Apply(options, None).argument.fields.media.fields.elements == xs;
      }
      NoTimerIsIdentity(f.message);
      assert Apply(options, None).argument.fields == f;
    }
  }

  /**
   * With a timer selected the caller's own object is changed too: here its media entry
   * `{}` is replaced by one carrying `ttl_seconds`, while its own `ttl_seconds` stays absent.
   */
  lemma CallerMediaRewrittenInPlace(ttl: int)
    ensures
      var options := Obj(EmptyObject().fields.(media := PlainArray([EmptyObject()])));
      var a := Apply(options, Some(ttl));
      a.argument != options &&
      a.argument.fields.media.fields.elements[0].fields.ttlSeconds == Num(TtlSecondsFor(ttl)) &&
      a.argument.fields.ttlSeconds == Undefined
  {
  }

  /**
   * `{media: [{}], pFlags: {}}` sent with a 10-second timer reaches the host as
   * `{media: [{ttl_seconds: 10}], pFlags: {ttl_seconds: true}, ttl_seconds: 10}`: the media
   * entry gets no `pFlags`, because it had none.
   */
  lemma TenSecondsScenario()
    ensures
      var options := Obj(EmptyObject().fields.(media := PlainArray([EmptyObject()]), pFlags := EmptyObject()));
      var entry := Obj(EmptyObject().fields.(ttlSeconds := Num(10)));
      var flags := Obj(EmptyObject().fields.(ttlSeconds := Bool(true)));
      Apply(options, Some(10)).result ==
        Obj(EmptyObject().fields.(media := PlainArray([entry]), pFlags := flags, ttlSeconds := Num(10)))
  {
    var options := Obj(EmptyObject().fields.(media := PlainArray([EmptyObject()]), pFlags := EmptyObject()));
    var entry := Obj(EmptyObject().fields.(ttlSeconds := Num(10)));
    assert Apply(EmptyObject(), Some(10)).result == entry;
    assert Apply(options, Some(10)).argument.fields.media == PlainArray([entry]);
  }

  /**
   * The clone decides whether the caller's `pFlags` is flagged: `{pFlags: {}}` keeps its
   * own `pFlags` empty, while `{message: f, pFlags: {}}` with a function `f` cannot be
   * cloned deeply, so the spread copy shares `pFlags` and the caller's gains the flag.
   */
  lemma SpreadFallbackFlagsCallerPFlags(ttl: int)
    ensures
      var plain := Obj(EmptyObject().fields.(pFlags := EmptyObject()));
      var withFunction := Obj(EmptyObject().fields.(message := Func, pFlags := EmptyObject()));
      var flagged := Obj(EmptyObject().fields.(ttlSeconds := Bool(true)));
      Apply(plain, Some(ttl)).argument == plain &&
      Apply(withFunction, Some(ttl)).argument.fields.pFlags == flagged &&
      Apply(withFunction, Some(ttl)).result.fields.message == Func
  {
  }

  /**
   * The spread copy of an array is a plain object: `[f]` holding a function `f`, sent with
   * a timer, reaches the host as `{0: f, ttl_seconds: …}`, which `Array.isArray` rejects.
   */
  lemma SpreadCopyOfArrayIsPlainObject(ttl: int)
    ensures
      var options := Obj(Fields(true, [Func], Undefined, Undefined, Undefined, Undefined));
      var r := Apply(options, Some(ttl)).result;
      IsArray(options) && !IsArray(r) && r.fields.elements == [Func] &&
      r.fields.ttlSeconds == Num(TtlSecondsFor(ttl))
  {
    var options := Obj(Fields(true, [Func], Undefined, Undefined, Undefined, Undefined));
    assert !Cloneable(options.fields.elements[0]);
  }
}
