/** The watermark controller: the mount state machine driven by `create` and
    `destroy`, the delayed arming of the two MutationObservers, and their
    callbacks, which destroy and recreate the overlay on tampering. Timers and
    mutation delivery are explicit steps; the host's callbacks are recorded in
    `log` as they fire. */
module Watermark {
  import opened JsValues
  import opened TileLayout
  import opened WatermarkProps
  import opened Rasterizer
  import opened Integrity

  /** What an observer was set up to watch; this also fixes which callback it runs. */
  datatype Role = WatchOverlay(node: Option<DomNode>) | WatchBody

  /** A MutationObserver: it reports mutations while it observes something and until it is
      disconnected. An overlay observer created while there is no overlay observes nothing
      (`targetNode && observer.observe(...)`). */
  class Observer {
    const role: Role
    var observing: bool

    constructor (role: Role)
      ensures this.role == role
      ensures observing == (role != WatchOverlay(None))
    {
      this.role := role;
      observing := role != WatchOverlay(None);
    }

    method Disconnect()
      modifies this
      ensures !observing
    {
      observing := false;
    }
  }

  /** How `create` returned: `undefined` because already mounted, `null` after a failed
      validation, or `undefined` after running the mount sequence. */
  datatype CreateResult = AlreadyMounted | Invalid | Ran

  function Opt<T>(o: Option<T>): set<T>
  {
    if o.Some? then {o.value} else {}
  }

  /** What `this.onSuccess?.()` fires; when the host's callback throws, the catch block
      fires `this.onWatermarkNull`. */
  function SuccessNotices(s: Option<Settings>, successThrows: bool): seq<Notice>
  {
    if s.Some? && s.value.onSuccess then [OnSuccess] + (if successThrows then [NullNoticeOf(s)] else []) else []
  }

  /** Whether an observer's callback decides on tampering for this batch, given the overlay
      current when it runs. */
  predicate Tampering(role: Role, batch: seq<MutationRecord>, overlay: Option<DomNode>)
  {
    match role
    case WatchOverlay(_) => |batch| > 0
    case WatchBody => exists k :: 0 <= k < |batch| && TouchesOverlay(batch[k], overlay)
  }

  class Watermark {
    /** The configured fields; `None` when the constructor returned early. */
    const settings: Option<Settings>
    /** `document.body`: the mount point and what the body observer watches. */
    const body: DomNode
    /** `HSALPWATERMARK`. */
    var mounted: bool
    /** The cached tile image (`""` when none). */
    var image: string
    /** `this.watermark`: the current overlay node. */
    var watermark: Option<DomNode>
    var watermarkObserve: Option<Observer>
    var bodyObserve: Option<Observer>
    /** The overlay nodes this instance has appended to the body and not removed. */
    var inBody: set<DomNode>
    /** The `setTimeout(…, 10)` callbacks `create` scheduled that have not yet run. */
    var pendingTimers: nat
    /** The host callbacks in the order they fired. */
    var log: seq<Notice>
    /** Every observer this instance has created, connected or not. */
    ghost var observers: set<Observer>

    ghost predicate Valid()
      reads this
    {
      Opt(watermarkObserve) <= observers && Opt(bodyObserve) <= observers
    }

    /** At most one overlay is in the body, and it is the current one; an unmounted
        instance has none. */
    ghost predicate OneOverlay()
      reads this
    {
      inBody <= Opt(watermark) && (!mounted ==> inBody == {})
    }

    /** The observers the instance's fields refer to: the ones `destroy` can disconnect. */
    function Live(): set<Observer>
      reads this
    {
      Opt(watermarkObserve) + Opt(bodyObserve)
    }

    /** The constructor: validate, then store the defaulted props and the tile computed
        from the probe's measurements. On a failed validation nothing is stored. */
    constructor (props: Props, probe: Probe, body: DomNode)
      ensures Valid()
      ensures this.body == body
      ensures var v := ValidContentOrImage(props.content, props.image, props.onWatermarkNull);
        && log == v.notices
        && (v.ok ==> settings == Some(Configure(props, Layout(Truthy(props.tip), probe, FontSizeOf(props), BoundsOf(props)))))
        && (!v.ok ==> settings == None)
      ensures !mounted && image == "" && watermark == None
      ensures watermarkObserve == None && bodyObserve == None && observers == {}
      ensures inBody == {} && pendingTimers == 0
      ensures OneOverlay()
    {
      var v := ValidContentOrImage(props.content, props.image, props.onWatermarkNull);
      if v.ok {
        var tile := GetDynamicWidthHeight(Truthy(props.tip), probe, FontSizeOf(props), BoundsOf(props));
        settings := Some(Configure(props, tile));
      } else {
        settings := None;
      }
      this.body := body;
      mounted := false;
      image := "";
      watermark := None;
      watermarkObserve := None;
      bodyObserve := None;
      inBody := {};
      pendingTimers := 0;
      log := v.notices;
      observers := {};
    }

    /** `create`. Already mounted: nothing happens. Validation fails: its callback fires and
        nothing else changes. Otherwise: the flag is set, the image is rasterized only if none
        is cached, the old observers are disconnected, one fresh overlay is appended, the
        observer timer is scheduled and `onSuccess` fires (if it throws, the flag is reset
        and `onWatermarkNull` fires, the overlay staying in place). */
    method Create(surfaceOk: bool, encode: Canvas -> Option<string>, successThrows: bool) returns (result: CreateResult)
      requires Valid()
      modifies this, Live()
      ensures Valid()
      ensures old(OneOverlay()) && !(settings.Some? && settings.value.onSuccess && successThrows) ==> OneOverlay()
      ensures old(mounted) ==> result == AlreadyMounted && unchanged(this) && unchanged(old(Live()))
      ensures !old(mounted) && !ValidateInstance(settings).ok ==>
                && result == Invalid
                && log == old(log) + ValidateInstance(settings).notices
                && !mounted && image == old(image) && watermark == old(watermark) && inBody == old(inBody)
                && pendingTimers == old(pendingTimers) && observers == old(observers)
                && watermarkObserve == old(watermarkObserve) && bodyObserve == old(bodyObserve)
                && unchanged(old(Live()))
      ensures !old(mounted) && ValidateInstance(settings).ok ==>
                var fetched := if old(image) == "" then GetImage(settings, surfaceOk, encode) else ImageOutcome(Some(old(image)), []);
                && result == Ran
                && image == fetched.image.GetOr("")
                && (forall o :: o in old(Live()) ==> !o.observing)
                && watermarkObserve == old(watermarkObserve) && bodyObserve == old(bodyObserve) && observers == old(observers)
                && watermark.Some? && fresh(watermark.value)
                && inBody == old(inBody) + {watermark.value}
                && pendingTimers == old(pendingTimers) + 1
                && mounted == !(settings.value.onSuccess && successThrows)
                && log == old(log) + fetched.notices + SuccessNotices(settings, successThrows)
    {
      if mounted {
        return AlreadyMounted;
      }
      var v := ValidateInstance(settings);
      if !v.ok {
        log := log + v.notices;
        return Invalid;
      }
      mounted := true;
      if image == "" {
        Rasterize(surfaceOk, encode);
      }
      DisconnectAll();
      Attach();
      if settings.value.onSuccess {
        NotifySuccess(successThrows);
      }
      result := Ran;
    }

    /** `image = this.image || (await this.getImage())` when nothing is cached. */
    method Rasterize(surfaceOk: bool, encode: Canvas -> Option<string>)
      modifies this`image, this`log
      ensures var fetched := GetImage(settings, surfaceOk, encode);
        image == fetched.image.GetOr("") && log == old(log) + fetched.notices
    {
      var fetched := GetImage(settings, surfaceOk, encode);
      log := log + fetched.notices;
      image := fetched.image.GetOr("");
    }

    /** `disconnect()` on both observer fields (each if set). */
    method DisconnectAll()
      modifies Live()
      ensures forall o :: o in Live() ==> !o.observing
    {
      if watermarkObserve.Some? {
        watermarkObserve.value.Disconnect();
      }
      if bodyObserve.Some? {
        bodyObserve.value.Disconnect();
      }
    }

    /** A fresh overlay node is appended to the body and the observer timer is scheduled. */
    method Attach()
      modifies this`watermark, this`inBody, this`pendingTimers
      ensures watermark.Some? && fresh(watermark.value)
      ensures inBody == old(inBody) + {watermark.value}
      ensures pendingTimers == old(pendingTimers) + 1
    {
      var node := new DomNode();
      watermark := Some(node);
      inBody := inBody + {node};
      pendingTimers := pendingTimers + 1;
    }

    /** `this.onSuccess?.()` inside the try block; a throw lands in the catch block, which
        resets the flag and fires `this.onWatermarkNull`. */
    method NotifySuccess(successThrows: bool)
      requires settings.Some? && settings.value.onSuccess && mounted
      modifies this`mounted, this`log
      ensures mounted == !successThrows
      ensures log == old(log) + SuccessNotices(settings, successThrows)
    {
      log := log + [OnSuccess];
      if successThrows {
        mounted := false;
        log := log + [NullNoticeOf(settings)];
      }
    }

    /** `destroy`: disconnect both observers, remove the overlay, clear the flag and the
        cached image, fire `onDestory`, whether or not anything was mounted. The node
        reference itself is kept. */
    method Destroy()
      requires Valid()
      modifies this, Live()
      ensures Valid()
      ensures old(OneOverlay()) ==> OneOverlay() && inBody == {}
      ensures forall o :: o in old(Live()) ==> !o.observing
      ensures watermarkObserve == old(watermarkObserve) && bodyObserve == old(bodyObserve) && observers == old(observers)
      ensures watermark == old(watermark)
      ensures inBody == old(inBody) - Opt(old(watermark))
      ensures !mounted && image == ""
      ensures pendingTimers == old(pendingTimers)
      ensures log == old(log) + DestoryNotices(settings)
    {
      DisconnectAll();
      inBody := inBody - Opt(watermark);
      mounted := false;
      image := "";
      log := log + DestoryNotices(settings);
    }

    /** The timer `create` scheduled fires: a new overlay observer on the overlay current at
        this moment and a new body observer replace the fields. The observers they replace
        are not disconnected. */
    method ObserveTimerFires()
      requires Valid() && pendingTimers > 0
      modifies this
      ensures Valid()
      ensures old(OneOverlay()) ==> OneOverlay()
      ensures pendingTimers == old(pendingTimers) - 1
      ensures watermarkObserve.Some? && fresh(watermarkObserve.value)
      ensures watermarkObserve.value.role == WatchOverlay(watermark)
      ensures watermarkObserve.value.observing <==> watermark.Some?
      ensures bodyObserve.Some? && fresh(bodyObserve.value)
      ensures bodyObserve.value.role == WatchBody && bodyObserve.value.observing
      ensures observers == old(observers) + {watermarkObserve.value, bodyObserve.value}
      ensures forall o :: o in old(observers) ==> o.observing == old(o.observing)
      ensures mounted == old(mounted) && image == old(image) && watermark == old(watermark)
      ensures inBody == old(inBody) && log == old(log)
    {
      pendingTimers := pendingTimers - 1;
      var overlayObserver := new Observer(WatchOverlay(watermark));
      watermarkObserve := Some(overlayObserver);
      var bodyObserver := new Observer(WatchBody);
      bodyObserve := Some(bodyObserver);
      observers := observers + {overlayObserver, bodyObserver};
    }

    /** An observing observer of this instance delivers a batch. Its callback classifies the
        batch against the overlay current at that moment; on tampering it runs `destroy`
        and then `create` (which therefore rasterizes again); otherwise nothing changes. */
    method OnMutations(obs: Observer, batch: seq<MutationRecord>,
                       surfaceOk: bool, encode: Canvas -> Option<string>, successThrows: bool)
      returns (tampered: bool)
      requires Valid() && obs in observers && obs.observing
      modifies this, Live()
      ensures Valid()
      ensures old(OneOverlay()) && !(settings.Some? && settings.value.onSuccess && successThrows) ==> OneOverlay()
      ensures tampered <==> Tampering(obs.role, batch, old(watermark))
      ensures !tampered ==> unchanged(this) && unchanged(old(Live()))
      ensures tampered ==>
                && (forall o :: o in old(Live()) ==> !o.observing)
                && watermarkObserve == old(watermarkObserve) && bodyObserve == old(bodyObserve) && observers == old(observers)
      ensures tampered && ValidateInstance(settings).ok ==>
                var fetched := GetImage(settings, surfaceOk, encode);
                && image == fetched.image.GetOr("")
                && watermark.Some? && fresh(watermark.value)
                && inBody == old(inBody) - Opt(old(watermark)) + {watermark.value}
                && pendingTimers == old(pendingTimers) + 1
                && mounted == !(settings.value.onSuccess && successThrows)
                && log == old(log) + DestoryNotices(settings) + fetched.notices + SuccessNotices(settings, successThrows)
      ensures tampered && !ValidateInstance(settings).ok ==>
                && !mounted && image == "" && watermark == old(watermark)
                && inBody == old(inBody) - Opt(old(watermark))
                && pendingTimers == old(pendingTimers)
                && log == old(log) + DestoryNotices(settings) + ValidateInstance(settings).notices
    {
      if obs.role.WatchBody? {
        tampered := ClassifyBodyBatch(batch, watermark);
      } else {
        tampered := ClassifyOverlayBatch(batch);
      }
      if tampered {
        Destroy();
        var _ := Create(surfaceOk, encode, successThrows);
      }
    }

    /** The host removes one of the overlay nodes from the body; the record is what the body
        observer would be handed. */
    method HostRemoves(node: DomNode) returns (record: MutationRecord)
      requires node in inBody
      modifies this`inBody
      ensures old(OneOverlay()) ==> OneOverlay()
      ensures inBody == old(inBody) - {node}
      ensures record == MutationRecord(body, [node])
    {
      inBody := inBody - {node};
      record := MutationRecord(body, [node]);
    }
  }

  /** What holds once an instance is mounted and its observer timer has run. */
  ghost predicate Armed(w: Watermark)
    reads w, w.Live()
  {
    && w.Valid() && w.mounted && ValidateInstance(w.settings).ok
    && w.watermark.Some? && w.inBody == {w.watermark.value}
    && w.bodyObserve.Some? && w.bodyObserve.value in w.observers
    && w.bodyObserve.value.role == WatchBody && w.bodyObserve.value.observing
  }

  /** Construct with valid props, mount, and let the observer timer run: one overlay is in
      the body, the body observer watches it, and `onSuccess` has fired after the image. */
  method MountAndArm(props: Props, probe: Probe, body: DomNode,
                     surfaceOk: bool, encode: Canvas -> Option<string>)
    returns (w: Watermark)
    requires Truthy(props.content) || Truthy(props.image)
    ensures Armed(w)
    ensures w.log == GetImage(w.settings, surfaceOk, encode).notices + SuccessNotices(w.settings, false)
  {
    w := new Watermark(props, probe, body);
    var _ := w.Create(surfaceOk, encode, false);
    w.ObserveTimerFires();
  }

  /** The host removes the overlay from the body: the body observer tears down and mounts a
      fresh overlay, `onDestory` and then `onSuccess` fire once each, and the image is
      rasterized again because `destroy` cleared it. */
  method RemovalIsRepaired(w: Watermark, surfaceOk: bool, encode: Canvas -> Option<string>)
    requires Armed(w)
    modifies w, w.Live()
    ensures w.Valid() && w.mounted
    ensures w.watermark.Some? && fresh(w.watermark.value) && w.inBody == {w.watermark.value}
    ensures w.pendingTimers == old(w.pendingTimers) + 1
    ensures w.log == old(w.log) + DestoryNotices(w.settings)
                     + GetImage(w.settings, surfaceOk, encode).notices + SuccessNotices(w.settings, false)
  {
    var first := w.watermark.value;
    var watcher := w.bodyObserve.value;
    var record := w.HostRemoves(first);
    assert w.inBody == {};
    assert Tampering(WatchBody, [record], Some(first)) by {
      assert [record][0] == record && TouchesOverlay(record, Some(first));
    }
    var tampered := w.OnMutations(watcher, [record], surfaceOk, encode, false);
    assert tampered;
  }

  /** The cycle the observers keep up: from an armed instance, a removal of the overlay is
      repaired and the timer the repair scheduled re-arms the body observer on the new
      overlay, with one timer fewer pending than right after the repair. */
  method RemovalRepairRearms(w: Watermark, surfaceOk: bool, encode: Canvas -> Option<string>)
    requires Armed(w)
    modifies w, w.Live()
    ensures Armed(w)
    ensures w.watermark != old(w.watermark) && w.pendingTimers == old(w.pendingTimers)
    ensures w.bodyObserve != old(w.bodyObserve)
    ensures w.log == old(w.log) + DestoryNotices(w.settings)
                     + GetImage(w.settings, surfaceOk, encode).notices + SuccessNotices(w.settings, false)
  {
    RemovalIsRepaired(w, surfaceOk, encode);
    w.ObserveTimerFires();
  }

  /** A second `destroy` changes nothing further, yet `onDestory` fires again. */
  method DestroyTwice(w: Watermark)
    requires w.Valid()
    modifies w, w.Live()
    ensures w.Valid() && !w.mounted && w.image == ""
    ensures w.watermark == old(w.watermark) && w.inBody == old(w.inBody) - Opt(old(w.watermark))
    ensures w.watermarkObserve == old(w.watermarkObserve) && w.bodyObserve == old(w.bodyObserve)
    ensures w.observers == old(w.observers) && w.pendingTimers == old(w.pendingTimers)
    ensures forall o :: o in old(w.Live()) ==> !o.observing
    ensures w.log == old(w.log) + DestoryNotices(w.settings) + DestoryNotices(w.settings)
  {
    w.Destroy();
    w.Destroy();
  }

  /** `create`, `destroy`, `create` before the first observer timer has run: both timers
      run later, and the second replaces the observers the first set up without
      disconnecting them, so an observer the instance can no longer disconnect stays live. */
  method RecreateBeforeTimerLeaksObserver(w: Watermark, surfaceOk: bool, encode: Canvas -> Option<string>)
    returns (leaked: Observer)
    requires w.Valid() && !w.mounted && ValidateInstance(w.settings).ok
    modifies w, w.Live()
    ensures w.Valid()
    ensures leaked in w.observers && leaked.observing && leaked !in w.Live()
  {
    var _ := w.Create(surfaceOk, encode, false);
    w.Destroy();
    var _ := w.Create(surfaceOk, encode, false);
    w.ObserveTimerFires();
    leaked := w.watermarkObserve.value;
    w.ObserveTimerFires();
  }

  /** A throwing `onSuccess` resets the flag but leaves its overlay in the body, and nothing
      removes it: the next `create` appends a second overlay beside it. */
  method ThrowingSuccessLeavesTwoOverlays(w: Watermark, surfaceOk: bool, encode: Canvas -> Option<string>)
    requires w.Valid() && w.OneOverlay() && !w.mounted
    requires ValidateInstance(w.settings).ok && w.settings.value.onSuccess
    modifies w, w.Live()
    ensures w.mounted && |w.inBody| == 2 && !w.OneOverlay()
  {
    var _ := w.Create(surfaceOk, encode, true);
    var first := w.watermark.value;
    assert w.inBody == {first} && !w.mounted;
    var _ := w.Create(surfaceOk, encode, false);
    var second := w.watermark.value;
    assert first != second;
    assert w.inBody == {first, second};
  }
}
