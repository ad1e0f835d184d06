/** The orchestration of `AppleMonitor`: `doMonitor` for one device (warm-up
    fetch, jitter, fulfillment query, parse, store loop with pushes) and
    `monitor` for the device list.

    Everything the network and the clock do during one device's turn is an
    input (`Exchange`): whether each fetch got an answer, the status and the
    parsed body of the API answer, whether each sleep ran to its end. What
    the monitor does is returned as a sequence of events: fetches issued,
    sleeps, per-store status lines, attempted deliveries, and the notices it
    logs on the exceptional paths. */
module Monitor {
  import opened Json
  import Requests
  import Stores
  import Push

  /** What the monitor logs when it leaves the normal path. */
  datatype Notice =
    | NonOk(status: int)   // the API answered with a status outside 2xx
    | Blocked              // ... and that status was 541, the CDN/WAF block
    | Unsupported          // the answer has no `stores` (device code or region unsupported)
    | NoNearbyStore        // `stores` is empty
    | DeviceFailed         // an exception ended this device's turn
    | SweepFailed          // an exception ended the whole sweep

  datatype Event =
    | Fetch(request: Requests.Request)
    | Pause
    | Status(content: string)
    | Delivered(delivery: Push.Delivery)
    | Notice(notice: Notice)

  /** A tracked device: its code, the store whitelist (empty: every store)
      and its push configurations. */
  datatype Device = Device(code: string, storeWhiteList: seq<string>, pushConfigs: seq<Push.PushConfig>)

  /** The sweep-wide settings: the storefront origin the country resolves to,
      and the location sent with every query and shown in pickup messages. */
  datatype Task = Task(baseUrl: string, location: string)

  datatype Sleep = Slept | Interrupted
  datatype Body = Parsed(root: Json) | Unparsable
  /** The outcome of one fetch: no answer at all (timeout, connection
      failure), or a status and the body as parsed. */
  datatype Reply = NoReply | Reply(status: int, body: Body)

  /** What the outside world does during one device's turn, in order: the
      warm-up fetch, the jitter sleep, the API fetch, the sleep that follows
      the device. */
  datatype Exchange = Exchange(warmUp: Reply, jitter: Sleep, api: Reply, gap: Sleep)

  datatype Probe = Probe(device: Device, net: Exchange)

  /** The events of a loop, and whether an exception ended it. */
  datatype Run = Run(events: seq<Event>, threw: bool)

  const BlockedStatus := 541
  const BodyKey := "body"
  const ContentKey := "content"
  const PickupMessageKey := "pickupMessage"
  const StoresKey := "stores"

  /** `HttpResponse.isOk()`: a 2xx status. */
  predicate IsOk(status: int)
  {
    200 <= status < 300
  }

  function AsEvents(ds: seq<Push.Delivery>): seq<Event>
  {
    if ds == [] then [] else AsEvents(ds[..|ds| - 1]) + [Delivered(ds[|ds| - 1])]
  }

  /** The deliveries among a sequence of events, in order. */
  function Pushes(es: seq<Event>): seq<Push.Delivery>
  {
    if es == [] then []
    else Pushes(es[..|es| - 1]) + (if es[|es| - 1].Delivered? then [es[|es| - 1].delivery] else [])
  }

  // ---------------------------------------------------------------------
  // The store loop

  /** What the filter and the loop body decide about one store entry: an
      exception, dropped by the whitelist, or the report of the body. */
  datatype Verdict = Failed | Dropped | Checked(report: Stores.Report)

  /** The filter, then for a kept entry the body up to the push. */
  function Judge(store: Json, device: Device, location: string): (v: Verdict)
  {
    match Stores.KeepStore(store, device.storeWhiteList)
    case Thrown => Failed
    case Ok(keep) =>
      if !keep then Dropped
      else
        match Stores.Evaluate(store, device.code, location)
        case Thrown => Failed
        case Ok(report) => Checked(report)
  }

  /** An entry is dropped exactly when the filter rejects it, and checked
      exactly when the filter keeps it and the body does not throw; its
      report is then the body's. */
  lemma JudgeMeaning(store: Json, device: Device, location: string)
    ensures Judge(store, device, location) == Dropped <==> Stores.KeepStore(store, device.storeWhiteList) == Ok(false)
    ensures Judge(store, device, location).Checked? <==>
      Stores.KeepStore(store, device.storeWhiteList) == Ok(true) && Stores.Evaluate(store, device.code, location).Ok?
    ensures Judge(store, device, location).Checked? ==>
      Judge(store, device, location).report == Stores.Evaluate(store, device.code, location).value
  {
  }

  /** The verdicts of a list of store entries, one per entry in order. */
  function Verdicts(stores: seq<Json>, device: Device, location: string): seq<Verdict>
  {
    if stores == [] then []
    else Verdicts(stores[..|stores| - 1], device, location) + [Judge(stores[|stores| - 1], device, location)]
  }

  lemma VerdictsSnoc(stores: seq<Json>, last: Json, device: Device, location: string)
    ensures Verdicts(stores + [last], device, location) == Verdicts(stores, device, location) + [Judge(last, device, location)]
  {
    assert (stores + [last])[..|stores|] == stores;
  }

  /** Every entry is judged on its own: the i-th verdict is that of the
      i-th entry. */
  lemma {:induction false} VerdictsPointwise(stores: seq<Json>, device: Device, location: string)
    ensures |Verdicts(stores, device, location)| == |stores|
    ensures forall i {:trigger Verdicts(stores, device, location)[i]} :: 0 <= i < |stores| ==>
      Verdicts(stores, device, location)[i] == Judge(stores[i], device, location)
  {
    if stores != [] {
      VerdictsPointwise(stores[..|stores| - 1], device, location);
    }
  }

  lemma {:induction false} VerdictsAppend(a: seq<Json>, b: seq<Json>, device: Device, location: string)
    ensures Verdicts(a + b, device, location) == Verdicts(a, device, location) + Verdicts(b, device, location)
    decreases |b|
  {
    if b == [] {
      assert a + b == a;
      assert Verdicts(a, device, location) + [] == Verdicts(a, device, location);
    } else {
      var b' := b[..|b| - 1];
      var last := b[|b| - 1];
      assert a + b == (a + b') + [last];
      VerdictsSnoc(a + b', last, device, location);
      VerdictsAppend(a, b', device, location);
      VerdictsSnoc(b', last, device, location);
      assert b == b' + [last];
      var x := Verdicts(a, device, location);
      var y := Verdicts(b', device, location);
      assert x + y + [Judge(last, device, location)] == x + (y + [Judge(last, device, location)]);
    }
  }

  /** The events of an entry that did not throw: nothing for a dropped
      entry; the status line when the device is not available there; when
      it is, the full message, one attempt per ready channel, and the
      message again. */
  function VerdictEvents(v: Verdict, configs: seq<Push.PushConfig>): seq<Event>
  {
    match v
    case Failed => []
    case Dropped => []
    case Checked(report) =>
      if report.available then
        [Status(report.content)] + AsEvents(Push.Deliveries(report.content, configs)) + [Status(report.content)]
      else
        [Status(report.content)]
  }

  /** One entry's turn in the loop: nothing once an entry has thrown; an
      entry that throws ends the loop; any other adds its events. */
  function Step(prev: Run, v: Verdict, configs: seq<Push.PushConfig>): Run
  {
    if prev.threw then prev
    else if v.Failed? then Run(prev.events, true)
    else Run(prev.events + VerdictEvents(v, configs), false)
  }

  /** The stream of AppleMonitor.java:143-172 over the entries in order;
      the first entry that throws ends it, and the entries after it are not
      looked at. */
  function StoreRun(vs: seq<Verdict>, configs: seq<Push.PushConfig>): Run
  {
    if vs == [] then Run([], false)
    else Step(StoreRun(vs[..|vs| - 1], configs), vs[|vs| - 1], configs)
  }

  /** One round of the store loop: the filter, and for a kept entry the
      body with its pushes. */
  method HandleStore(store: Json, device: Device, location: string) returns (events: seq<Event>, threw: bool)
    ensures threw <==> Judge(store, device, location).Failed?
    ensures !threw ==> events == VerdictEvents(Judge(store, device, location), device.pushConfigs)
  {
    var keep := Stores.KeepStore(store, device.storeWhiteList);
    if keep.Thrown? {
      return [], true;
    }
    if !keep.value {
      return [], false;
    }
    var report := Stores.Evaluate(store, device.code, location);
    if report.Thrown? {
      return [], true;
    }
    assert Judge(store, device, location) == Checked(report.value);
    var content := report.value.content;
    if report.value.available {
      var sent := Push.PushAll(content, device.pushConfigs);
      events := [Status(content)] + AsEvents(sent) + [Status(content)];
    } else {
      events := [Status(content)];
    }
    threw := false;
  }

  /** The store loop of `doMonitor`, store by store. */
  method ProcessStores(stores: seq<Json>, device: Device, location: string) returns (events: seq<Event>, threw: bool)
    ensures Run(events, threw) == StoreRun(Verdicts(stores, device, location), device.pushConfigs)
  {
    ghost var vs := Verdicts(stores, device, location);
    VerdictsPointwise(stores, device, location);
    events := [];
    var i := 0;
    while i < |stores|
      invariant 0 <= i <= |stores|
      invariant StoreRun(vs[..i], device.pushConfigs) == Run(events, false)
    {
      var storeEvents, storeThrew := HandleStore(stores[i], device, location);
      StoreRunPrefix(vs, i, device.pushConfigs);
      if storeThrew {
        return events, true;
      }
      events := events + storeEvents;
      i := i + 1;
    }
    assert vs[..i] == vs;
    threw := false;
  }

  /** One round of the loop: the run over the first `i + 1` verdicts is one
      step after the run over the first `i`; a verdict that throws there
      fixes the run of the whole list. */
  lemma StoreRunPrefix(vs: seq<Verdict>, i: nat, configs: seq<Push.PushConfig>)
    requires i < |vs|
    ensures StoreRun(vs[..i + 1], configs) == Step(StoreRun(vs[..i], configs), vs[i], configs)
    ensures !StoreRun(vs[..i], configs).threw && vs[i].Failed? ==>
      StoreRun(vs, configs) == Run(StoreRun(vs[..i], configs).events, true)
  {
    assert vs[..i + 1][..i] == vs[..i];
    if !StoreRun(vs[..i], configs).threw && vs[i].Failed? {
      assert vs[..i + 1] + vs[i + 1..] == vs;
      StoreRunAbandons(vs[..i + 1], vs[i + 1..], configs);
    }
  }

  /** The loop over one more entry is one more step. */
  lemma StoreRunSnoc(vs: seq<Verdict>, v: Verdict, configs: seq<Push.PushConfig>)
    ensures StoreRun(vs + [v], configs) == Step(StoreRun(vs, configs), v, configs)
  {
    assert (vs + [v])[..|vs|] == vs;
  }

  /** Once an entry has thrown, the entries after it change nothing. */
  lemma {:induction false} StoreRunAbandons(a: seq<Verdict>, b: seq<Verdict>, configs: seq<Push.PushConfig>)
    requires StoreRun(a, configs).threw
    ensures StoreRun(a + b, configs) == StoreRun(a, configs)
    decreases |b|
  {
    if b == [] {
      assert a + b == a;
    } else {
      var b' := b[..|b| - 1];
      assert (a + b)[..|a + b| - 1] == a + b';
      StoreRunAbandons(a, b', configs);
    }
  }

  /** An entry that throws ends the loop: the entries before it have had
      their turn, the ones after it are never looked at. */
  lemma StoreRunStopsAtFailure(a: seq<Verdict>, b: seq<Verdict>, configs: seq<Push.PushConfig>)
    requires !StoreRun(a, configs).threw
    ensures StoreRun(a + [Failed] + b, configs) == Run(StoreRun(a, configs).events, true)
  {
    assert (a + [Failed])[..|a|] == a;
    StoreRunAbandons(a + [Failed], b, configs);
  }

  /** Events already in the stream do not change what an entry adds. */
  lemma StepAfter(x: seq<Event>, prev: Run, v: Verdict, configs: seq<Push.PushConfig>)
    ensures Step(Run(x + prev.events, prev.threw), v, configs)
         == Run(x + Step(prev, v, configs).events, Step(prev, v, configs).threw)
  {
    if !prev.threw && !v.Failed? {
      var e := VerdictEvents(v, configs);
      assert x + prev.events + e == x + (prev.events + e);
    }
  }

  /** A run that did not throw is continued by the run of the rest. */
  lemma {:induction false} StoreRunAppend(a: seq<Verdict>, b: seq<Verdict>, configs: seq<Push.PushConfig>)
    requires !StoreRun(a, configs).threw
    ensures StoreRun(a + b, configs)
         == Run(StoreRun(a, configs).events + StoreRun(b, configs).events, StoreRun(b, configs).threw)
    decreases |b|
  {
    var x := StoreRun(a, configs).events;
    if b == [] {
      assert a + b == a;
      assert x + [] == x;
    } else {
      var b' := b[..|b| - 1];
      var v := b[|b| - 1];
      assert (a + b)[..|a + b| - 1] == a + b';
      assert (a + b)[|a + b| - 1] == v;
      assert StoreRun(a + b, configs) == Step(StoreRun(a + b', configs), v, configs);
      StoreRunAppend(a, b', configs);
      StepAfter(x, StoreRun(b', configs), v, configs);
    }
  }

  /** The entries the whitelist drops change nothing in the stream. */
  function Retained(vs: seq<Verdict>): seq<Verdict>
  {
    if vs == [] then []
    else Retained(vs[..|vs| - 1]) + (if vs[|vs| - 1].Dropped? then [] else [vs[|vs| - 1]])
  }

  lemma {:induction false} StoreRunSkipsDropped(vs: seq<Verdict>, configs: seq<Push.PushConfig>)
    ensures StoreRun(Retained(vs), configs) == StoreRun(vs, configs)
  {
    if vs != [] {
      var init := vs[..|vs| - 1];
      var v := vs[|vs| - 1];
      StoreRunSkipsDropped(init, configs);
      if v.Dropped? {
        assert Retained(vs) == Retained(init);
        assert StoreRun(init, configs).events + [] == StoreRun(init, configs).events;
      } else {
        assert (Retained(init) + [v])[..|Retained(init) + [v]| - 1] == Retained(init);
      }
    }
  }

  /** With an empty whitelist no entry is dropped, and a kept entry is
      judged by the body alone, whatever the whitelist. */
  lemma JudgeKept(store: Json, device: Device, location: string)
    requires Stores.KeepStore(store, device.storeWhiteList) == Ok(true)
    ensures Judge(store, device, location) == Judge(store, device.(storeWhiteList := []), location)
  {
  }

  /** The verdicts of the entries that got through the filter, judged with
      no whitelist, are the retained verdicts. */
  lemma {:induction false} RetainedSurvivors(stores: seq<Json>, device: Device, location: string)
    requires Stores.Survivors(stores, device.storeWhiteList).Ok?
    ensures Retained(Verdicts(stores, device, location))
         == Verdicts(Stores.Survivors(stores, device.storeWhiteList).value, device.(storeWhiteList := []), location)
  {
    var all := device.(storeWhiteList := []);
    var wl := device.storeWhiteList;
    if stores != [] {
      var init := stores[..|stores| - 1];
      var last := stores[|stores| - 1];
      assert stores == init + [last];
      Stores.SurvivorsAppend(init, [last], wl);
      Stores.SurvivorsOne(last, wl);
      RetainedSurvivors(init, device, location);
      VerdictsSnoc(init, last, device, location);
      var vs := Verdicts(stores, device, location);
      var v := Judge(last, device, location);
      assert vs == Verdicts(init, device, location) + [v];
      assert vs[..|vs| - 1] == Verdicts(init, device, location);
      assert Retained(vs) == Retained(Verdicts(init, device, location)) + (if v.Dropped? then [] else [v]);
      var kept := Stores.Survivors(init, wl).value;
      JudgeMeaning(last, device, location);
      if Stores.KeepStore(last, wl).value {
        JudgeKept(last, device, location);
        VerdictsSnoc(kept, last, all, location);
        assert Stores.Survivors(stores, wl).value == kept + [last];
      } else {
        assert v.Dropped?;
        assert Stores.Survivors(stores, wl).value == kept + [];
        assert kept + [] == kept;
      }
    }
  }

  /** When the filter throws on no entry, the interleaved stream does what
      filtering first and then processing the survivors in order would do. */
  lemma StoreRunFiltersFirst(stores: seq<Json>, device: Device, location: string)
    requires Stores.Survivors(stores, device.storeWhiteList).Ok?
    ensures StoreRun(Verdicts(stores, device, location), device.pushConfigs)
         == StoreRun(Verdicts(Stores.Survivors(stores, device.storeWhiteList).value, device.(storeWhiteList := []), location),
                     device.pushConfigs)
  {
    RetainedSurvivors(stores, device, location);
    StoreRunSkipsDropped(Verdicts(stores, device, location), device.pushConfigs);
  }

  lemma {:induction false} PushesAppend(a: seq<Event>, b: seq<Event>)
    ensures Pushes(a + b) == Pushes(a) + Pushes(b)
    decreases |b|
  {
    if b == [] {
      assert a + b == a;
    } else {
      var b' := b[..|b| - 1];
      assert (a + b)[..|a + b| - 1] == a + b';
      assert (a + b)[|a + b| - 1] == b[|b| - 1];
      PushesAppend(a, b');
    }
  }

  /** Events without a delivery among them push nothing. */
  lemma {:induction false} PushesOfNone(es: seq<Event>)
    requires forall i :: 0 <= i < |es| ==> !es[i].Delivered?
    ensures Pushes(es) == []
  {
    if es != [] {
      PushesOfNone(es[..|es| - 1]);
    }
  }

  lemma {:induction false} PushesOfDeliveries(ds: seq<Push.Delivery>)
    ensures Pushes(AsEvents(ds)) == ds
    decreases |ds|
  {
    if ds != [] {
      var ds' := ds[..|ds| - 1];
      PushesOfDeliveries(ds');
      PushesAppend(AsEvents(ds'), [Delivered(ds[|ds| - 1])]);
      assert Pushes([Delivered(ds[|ds| - 1])]) == [ds[|ds| - 1]];
      assert ds' + [ds[|ds| - 1]] == ds;
    }
  }

  /** The entry leads to a push: it got through the filter and the body,
      and the device is available there. */
  predicate Pushed(v: Verdict)
  {
    v.Checked? && v.report.available
  }

  /** The pushes of one entry: those of its message through the device's
      push configurations when the device is available there, none
      otherwise. */
  lemma VerdictPushes(v: Verdict, configs: seq<Push.PushConfig>)
    ensures Pushes(VerdictEvents(v, configs))
         == if Pushed(v) then Push.Deliveries(v.report.content, configs) else []
  {
    if Pushed(v) {
      var content := v.report.content;
      var ds := Push.Deliveries(content, configs);
      PushesAppend([Status(content)] + AsEvents(ds), [Status(content)]);
      PushesAppend([Status(content)], AsEvents(ds));
      PushesOfDeliveries(ds);
      PushesOfNone([Status(content)]);
    } else {
      PushesOfNone(VerdictEvents(v, configs));
    }
  }

  /** The number of entries that lead to a push. */
  function PushedCount(vs: seq<Verdict>): nat
  {
    if vs == [] then 0
    else
      var n := if Pushed(vs[|vs| - 1]) then 1 else 0;
      PushedCount(vs[..|vs| - 1]) + n
  }

  /** The deliveries a list of entries calls for: the message of every
      entry that leads to a push, through every ready channel, in entry
      order. */
  function ExpectedPushes(vs: seq<Verdict>, configs: seq<Push.PushConfig>): seq<Push.Delivery>
  {
    if vs == [] then []
    else
      var v := vs[|vs| - 1];
      ExpectedPushes(vs[..|vs| - 1], configs) + (if Pushed(v) then Push.Deliveries(v.report.content, configs) else [])
  }

  /** A store loop that did not throw attempts exactly the deliveries its
      entries call for, in order: `pushAll` once per store at which the
      device is available, with that store's message, and never for any
      other store. */
  lemma {:induction false} StoreRunPushes(vs: seq<Verdict>, configs: seq<Push.PushConfig>)
    requires !StoreRun(vs, configs).threw
    ensures Pushes(StoreRun(vs, configs).events) == ExpectedPushes(vs, configs)
  {
    if vs != [] {
      var init := vs[..|vs| - 1];
      var v := vs[|vs| - 1];
      StoreRunPushes(init, configs);
      PushesAppend(StoreRun(init, configs).events, VerdictEvents(v, configs));
      VerdictPushes(v, configs);
    }
  }

  /** One delivery per ready channel for every entry that leads to a push. */
  lemma {:induction false} ExpectedPushesCount(vs: seq<Verdict>, configs: seq<Push.PushConfig>)
    ensures |ExpectedPushes(vs, configs)| == PushedCount(vs) * Push.ReadyChannels(configs)
  {
    if vs != [] {
      var init := vs[..|vs| - 1];
      var v := vs[|vs| - 1];
      ExpectedPushesCount(init, configs);
      var n := PushedCount(init);
      var r := Push.ReadyChannels(configs);
      if Pushed(v) {
        Push.DeliveriesCount(v.report.content, configs);
        assert |ExpectedPushes(vs, configs)| == n * r + r;
        MulStep(n, r);
        assert PushedCount(vs) == n + 1;
      } else {
        assert |ExpectedPushes(vs, configs)| == n * r;
        assert PushedCount(vs) == n;
      }
    }
  }

  /** A store loop that did not throw pushed once per store at which the
      device is available, through every ready channel. */
  lemma StoreRunPushCount(vs: seq<Verdict>, configs: seq<Push.PushConfig>)
    requires !StoreRun(vs, configs).threw
    ensures |Pushes(StoreRun(vs, configs).events)| == PushedCount(vs) * Push.ReadyChannels(configs)
  {
    StoreRunPushes(vs, configs);
    ExpectedPushesCount(vs, configs);
  }

  /** Distributes one more factor; kept out of line, where the solver meets
      the nonlinear step without the push lemmas around it. */
  lemma MulStep(n: nat, r: nat)
    ensures (n + 1) * r == n * r + r
  {
  }

  /** Where the device is available at no store, the loop pushes nothing,
      whether or not an entry throws. */
  lemma {:induction false} StoreRunNoPushWithoutAvailability(vs: seq<Verdict>, configs: seq<Push.PushConfig>)
    requires forall i :: 0 <= i < |vs| ==> !Pushed(vs[i])
    ensures Pushes(StoreRun(vs, configs).events) == []
  {
    if vs != [] {
      var init := vs[..|vs| - 1];
      var v := vs[|vs| - 1];
      StoreRunNoPushWithoutAvailability(init, configs);
      if !StoreRun(init, configs).threw && !v.Failed? {
        PushesAppend(StoreRun(init, configs).events, VerdictEvents(v, configs));
        VerdictPushes(v, configs);
      }
    }
  }

  // ---------------------------------------------------------------------
  // One device

  /** `body.content.pickupMessage` of the answer; any step that is not an
      object throws. */
  function PickupMessage(root: Json): Result<Json>
  {
    var body :- GetObject(root, BodyKey);
    var content :- GetObject(body, ContentKey);
    GetObject(content, PickupMessageKey)
  }

  /** What follows the API fetch (AppleMonitor.java:117-172). */
  function AfterQuery(api: Reply, device: Device, location: string): seq<Event>
  {
    match api
    case NoReply => [Notice(DeviceFailed)]
    case Reply(status, body) =>
      if !IsOk(status) then
        [Notice(NonOk(status))] + (if status == BlockedStatus then [Notice(Blocked)] else [])
      else if body.Unparsable? then [Notice(DeviceFailed)]
      else
        match PickupMessage(body.root)
        case Thrown => [Notice(DeviceFailed)]
        case Ok(pickup) =>
          match GetArray(pickup, StoresKey)
          case Thrown => [Notice(DeviceFailed)]
          case Ok(None) => [Notice(Unsupported)]
          case Ok(Some(stores)) =>
            StoresTurn(stores == [], StoreRun(Verdicts(stores, device, location), device.pushConfigs))
  }

  /** AppleMonitor.java:139-172: the notice that no store is near when the
      list is empty, then the store loop; an entry that throws ends the loop
      and the error is logged. */
  function StoresTurn(noStores: bool, run: Run): seq<Event>
  {
    (if noStores then [Notice(NoNearbyStore)] else [])
      + run.events + (if run.threw then [Notice(DeviceFailed)] else [])
  }

  function WarmUpRequest(task: Task): Requests.Request
  {
    Requests.Request(Requests.WarmUpUrl(task.baseUrl), map[], Requests.Page)
  }

  function ApiRequest(task: Task, device: Device): Requests.Request
  {
    Requests.Request(Requests.ApiUrl(task.baseUrl), Requests.QueryMap(device.code, task.location), Requests.Api)
  }

  /** The events of one `doMonitor(device)`: the warm-up fetch; an exception
      there ends the turn; then the jitter sleep, the API fetch and what
      follows it. */
  function DeviceRun(task: Task, device: Device, net: Exchange): seq<Event>
  {
    [Fetch(WarmUpRequest(task))]
      + if net.warmUp.NoReply? then [Notice(DeviceFailed)]
        else [Pause] + if net.jitter.Interrupted? then [Notice(DeviceFailed)]
        else [Fetch(ApiRequest(task, device))] + AfterQuery(net.api, device, task.location)
  }

  /** `doMonitor(deviceItem)`: builds the query, fetches the storefront
      page, sleeps, fetches the fulfillment API and handles its answer. */
  method DoMonitor(task: Task, device: Device, net: Exchange) returns (events: seq<Event>)
    ensures events == DeviceRun(task, device, net)
  {
    var query := Requests.BuildQuery(device.code, task.location);
    var apiUrl := Requests.ApiUrl(task.baseUrl);
    var warmUp := Fetch(Requests.Request(Requests.WarmUpUrl(task.baseUrl), map[], Requests.Page));
    if net.warmUp.NoReply? {
      return [warmUp] + [Notice(DeviceFailed)];
    }
    if net.jitter.Interrupted? {
      return [warmUp] + ([Pause] + [Notice(DeviceFailed)]);
    }
    var after := HandleAnswer(net.api, device, task.location);
    events := [warmUp] + ([Pause] + ([Fetch(Requests.Request(apiUrl, query, Requests.Api))] + after));
  }

  /** `doMonitor` from the API answer on (AppleMonitor.java:117-172). */
  method HandleAnswer(api: Reply, device: Device, location: string) returns (events: seq<Event>)
    ensures events == AfterQuery(api, device, location)
  {
    if api.NoReply? {
      return [Notice(DeviceFailed)];
    }
    var status := api.status;
    if !IsOk(status) {
      var hint := if status == BlockedStatus then [Notice(Blocked)] else [];
      return [Notice(NonOk(status))] + hint;
    }
    if api.body.Unparsable? {
      return [Notice(DeviceFailed)];
    }
    var pickup := PickupMessage(api.body.root);
    if pickup.Thrown? {
      return [Notice(DeviceFailed)];
    }
    var stores := GetArray(pickup.value, StoresKey);
    if stores.Thrown? {
      return [Notice(DeviceFailed)];
    }
    if stores.value.None? {
      return [Notice(Unsupported)];
    }
    var nearby := if stores.value.value == [] then [Notice(NoNearbyStore)] else [];
    var storeEvents, threw := ProcessStores(stores.value.value, device, location);
    var failed := if threw then [Notice(DeviceFailed)] else [];
    events := nearby + storeEvents + failed;
    assert events == StoresTurn(stores.value.value == [], Run(storeEvents, threw));
  }

  /** A warm-up fetch without an answer ends the device's turn: the API is
      never queried. */
  lemma WarmUpFailureEndsTurn(task: Task, device: Device, net: Exchange)
    requires net.warmUp.NoReply?
    ensures DeviceRun(task, device, net) == [Fetch(WarmUpRequest(task)), Notice(DeviceFailed)]
  {
  }

  /** A non-2xx answer ends the turn with no push; the block hint is logged
      exactly for status 541. */
  lemma NonOkPushesNothing(task: Task, device: Device, net: Exchange)
    requires net.warmUp.Reply? && net.jitter.Slept? && net.api.Reply? && !IsOk(net.api.status)
    ensures DeviceRun(task, device, net)
         == [Fetch(WarmUpRequest(task)), Pause, Fetch(ApiRequest(task, device)), Notice(NonOk(net.api.status))]
            + (if net.api.status == BlockedStatus then [Notice(Blocked)] else [])
    ensures Pushes(DeviceRun(task, device, net)) == []
    ensures Notice(Blocked) in DeviceRun(task, device, net) <==> net.api.status == BlockedStatus
  {
    PushesOfNone(DeviceRun(task, device, net));
  }

  /** A parsed answer, reached through the warm-up and the jitter. */
  predicate Answered(net: Exchange, pickup: Json)
  {
    && net.warmUp.Reply? && net.jitter.Slept? && net.api.Reply? && IsOk(net.api.status)
    && net.api.body.Parsed? && PickupMessage(net.api.body.root) == Ok(pickup)
  }

  /** An answer without `stores` ends the turn with no push, and with the
      unsupported-device notice rather than an error. */
  lemma MissingStoresPushesNothing(task: Task, device: Device, net: Exchange, pickup: Json)
    requires Answered(net, pickup) && pickup.Obj? && Lookup(pickup.members, StoresKey) == Null
    ensures DeviceRun(task, device, net)
         == [Fetch(WarmUpRequest(task)), Pause, Fetch(ApiRequest(task, device)), Notice(Unsupported)]
    ensures Pushes(DeviceRun(task, device, net)) == []
  {
    PushesOfNone(DeviceRun(task, device, net));
  }

  /** An empty `stores` list logs that no store is near and pushes nothing;
      it is not an error. */
  lemma NoStoresPushesNothing(task: Task, device: Device, net: Exchange, pickup: Json)
    requires Answered(net, pickup) && pickup.Obj? && Lookup(pickup.members, StoresKey) == Arr([])
    ensures DeviceRun(task, device, net)
         == [Fetch(WarmUpRequest(task)), Pause, Fetch(ApiRequest(task, device)), Notice(NoNearbyStore)]
    ensures Pushes(DeviceRun(task, device, net)) == []
  {
    PushesOfNone(DeviceRun(task, device, net));
  }

  /** A 2xx answer with a `stores` list: the store part of the turn follows. */
  lemma AfterQueryListed(api: Reply, device: Device, location: string, pickup: Json, stores: seq<Json>)
    requires api.Reply? && IsOk(api.status) && api.body.Parsed? && PickupMessage(api.body.root) == Ok(pickup)
    requires GetArray(pickup, StoresKey) == Ok(Some(stores))
    ensures AfterQuery(api, device, location)
         == StoresTurn(stores == [], StoreRun(Verdicts(stores, device, location), device.pushConfigs))
  {
  }

  /** A 2xx answer with a `stores` list: the two fetches and the pause,
      then the store part of the turn. */
  lemma AnsweredTurn(task: Task, device: Device, net: Exchange, pickup: Json, stores: seq<Json>)
    requires Answered(net, pickup) && GetArray(pickup, StoresKey) == Ok(Some(stores))
    ensures DeviceRun(task, device, net)
         == [Fetch(WarmUpRequest(task)), Pause, Fetch(ApiRequest(task, device))]
            + StoresTurn(stores == [], StoreRun(Verdicts(stores, device, task.location), device.pushConfigs))
  {
    AfterQueryListed(net.api, device, task.location, pickup, stores);
    var rest := StoresTurn(stores == [], StoreRun(Verdicts(stores, device, task.location), device.pushConfigs));
    var a, b, c := Fetch(WarmUpRequest(task)), Pause, Fetch(ApiRequest(task, device));
    assert [a] + ([b] + ([c] + rest)) == [a, b, c] + rest;
  }

  /** The pushes of the store part of a turn are those of its store loop. */
  lemma StoresTurnPushes(noStores: bool, run: Run)
    ensures Pushes(StoresTurn(noStores, run)) == Pushes(run.events)
  {
    var nearby := if noStores then [Notice(NoNearbyStore)] else [];
    var failed := if run.threw then [Notice(DeviceFailed)] else [];
    PushesAppend(nearby + run.events, failed);
    PushesAppend(nearby, run.events);
    PushesOfNone(nearby);
    PushesOfNone(failed);
  }

  /** The fetches and the pause push nothing. */
  lemma PrefixPushesNothing(head: seq<Event>, noStores: bool, run: Run)
    requires forall i :: 0 <= i < |head| ==> !head[i].Delivered?
    ensures Pushes(head + StoresTurn(noStores, run)) == Pushes(run.events)
  {
    PushesAppend(head, StoresTurn(noStores, run));
    PushesOfNone(head);
    StoresTurnPushes(noStores, run);
  }

  /** The pushes of a device's turn are those of its store loop. */
  lemma DevicePushes(task: Task, device: Device, net: Exchange, pickup: Json, stores: seq<Json>)
    requires Answered(net, pickup) && GetArray(pickup, StoresKey) == Ok(Some(stores))
    ensures Pushes(DeviceRun(task, device, net))
         == Pushes(StoreRun(Verdicts(stores, device, task.location), device.pushConfigs).events)
  {
    AnsweredTurn(task, device, net, pickup, stores);
    PrefixPushesNothing([Fetch(WarmUpRequest(task)), Pause, Fetch(ApiRequest(task, device))],
                        stores == [], StoreRun(Verdicts(stores, device, task.location), device.pushConfigs));
  }

  /** When no store entry throws, a device's turn pushes once per ready
      channel for every store at which the device is available. */
  lemma DevicePushCount(task: Task, device: Device, net: Exchange, pickup: Json, stores: seq<Json>)
    requires Answered(net, pickup) && GetArray(pickup, StoresKey) == Ok(Some(stores))
    requires !StoreRun(Verdicts(stores, device, task.location), device.pushConfigs).threw
    ensures |Pushes(DeviceRun(task, device, net))|
         == PushedCount(Verdicts(stores, device, task.location)) * Push.ReadyChannels(device.pushConfigs)
  {
    DevicePushes(task, device, net, pickup, stores);
    StoreRunPushCount(Verdicts(stores, device, task.location), device.pushConfigs);
  }

  // ---------------------------------------------------------------------
  // The sweep

  /** One device's turn as the sweep sees it: the events of `doMonitor` and
      how the pause after it ended. */
  datatype Turn = Turn(events: seq<Event>, gap: Sleep)

  /** The turns of a device list, one per device in order. */
  function Turns(task: Task, probes: seq<Probe>): (ts: seq<Turn>)
    ensures |ts| == |probes|
    ensures forall i :: 0 <= i < |probes| ==>
      ts[i] == Turn(DeviceRun(task, probes[i].device, probes[i].net), probes[i].net.gap)
  {
    seq(|probes|, i requires 0 <= i < |probes| => Turn(DeviceRun(task, probes[i].device, probes[i].net), probes[i].net.gap))
  }

  /** `monitor()`: `doMonitor` and a pause for every device in order, the
      pause also after the last one. An interrupted pause throws out of the
      loop: the single `try` around it logs the error and the remaining
      devices are not visited. */
  function SweepRun(ts: seq<Turn>): Run
  {
    if ts == [] then Run([], false)
    else
      var prev := SweepRun(ts[..|ts| - 1]);
      if prev.threw then prev
      else
        var t := ts[|ts| - 1];
        var es := prev.events + t.events + [Pause];
        if t.gap.Interrupted? then Run(es + [Notice(SweepFailed)], true) else Run(es, false)
  }

  method Monitor(task: Task, probes: seq<Probe>) returns (events: seq<Event>)
    ensures events == SweepRun(Turns(task, probes)).events
  {
    ghost var ts := Turns(task, probes);
    events := [];
    var i := 0;
    while i < |probes|
      invariant 0 <= i <= |probes|
      invariant SweepRun(ts[..i]) == Run(events, false)
    {
      assert ts[..i + 1][..i] == ts[..i];
      var p := probes[i];
      var deviceEvents := DoMonitor(task, p.device, p.net);
      events := events + deviceEvents + [Pause];
      if p.net.gap.Interrupted? {
        events := events + [Notice(SweepFailed)];
        SweepAbandons(ts[..i + 1], ts[i + 1..]);
        assert ts[..i + 1] + ts[i + 1..] == ts;
        return;
      }
      i := i + 1;
    }
    assert ts[..i] == ts;
  }

  /** The turns of two device lists one after the other are the turns of
      their concatenation. */
  lemma TurnsAppend(task: Task, a: seq<Probe>, b: seq<Probe>)
    ensures Turns(task, a + b) == Turns(task, a) + Turns(task, b)
  {
    assert forall i :: 0 <= i < |b| ==> (a + b)[|a| + i] == b[i];
  }

  /** Once the sweep has thrown, the devices after it change nothing. */
  lemma {:induction false} SweepAbandons(a: seq<Turn>, b: seq<Turn>)
    requires SweepRun(a).threw
    ensures SweepRun(a + b) == SweepRun(a)
    decreases |b|
  {
    if b == [] {
      assert a + b == a;
    } else {
      var b' := b[..|b| - 1];
      assert (a + b)[..|a + b| - 1] == a + b';
      SweepAbandons(a, b');
    }
  }

  /** The sweep throws exactly when some pause between devices is
      interrupted; whatever happens inside a device's turn, including an
      exception, the sweep goes on to the next device. */
  lemma {:induction false} SweepThrowsOnlyOnInterrupt(ts: seq<Turn>)
    ensures SweepRun(ts).threw <==> exists i :: 0 <= i < |ts| && ts[i].gap.Interrupted?
  {
    if ts != [] {
      var init := ts[..|ts| - 1];
      SweepThrowsOnlyOnInterrupt(init);
      assert forall i :: 0 <= i < |init| ==> init[i] == ts[i];
    }
  }

  /** Sweeping a list without interruptions and then another is sweeping
      their concatenation: devices are visited one after the other, each one
      independent of how the earlier ones ended. */
  lemma {:induction false} SweepAppend(a: seq<Turn>, b: seq<Turn>)
    requires !SweepRun(a).threw
    ensures SweepRun(a + b) == Run(SweepRun(a).events + SweepRun(b).events, SweepRun(b).threw)
    decreases |b|
  {
    var x := SweepRun(a).events;
    if b == [] {
      assert a + b == a;
      assert x + [] == x;
    } else {
      var b' := b[..|b| - 1];
      var t := b[|b| - 1];
      assert (a + b)[..|a + b| - 1] == a + b';
      assert (a + b)[|a + b| - 1] == t;
      SweepAppend(a, b');
      var y := SweepRun(b').events;
      assert x + y + t.events + [Pause] == x + (y + t.events + [Pause]);
      assert x + y + t.events + [Pause] + [Notice(SweepFailed)] == x + (y + t.events + [Pause] + [Notice(SweepFailed)]);
    }
  }

  /** A sweep without interruptions visits every device: its events are
      each device's turn followed by a pause, the last one included. */
  lemma {:induction false} SweepVisitsAll(ts: seq<Turn>)
    requires forall i :: 0 <= i < |ts| ==> ts[i].gap.Slept?
    ensures !SweepRun(ts).threw
    ensures SweepRun(ts).events == Flatten(ts)
  {
    if ts != [] {
      SweepVisitsAll(ts[..|ts| - 1]);
    }
  }

  /** Every turn's events followed by a pause. */
  function Flatten(ts: seq<Turn>): seq<Event>
  {
    if ts == [] then [] else Flatten(ts[..|ts| - 1]) + ts[|ts| - 1].events + [Pause]
  }

  /** Without interruptions the sweep ends with a pause. */
  lemma SweepEndsWithPause(ts: seq<Turn>)
    requires ts != [] && forall i :: 0 <= i < |ts| ==> ts[i].gap.Slept?
    ensures SweepRun(ts).events != [] && SweepRun(ts).events[|SweepRun(ts).events| - 1] == Pause
  {
    SweepVisitsAll(ts);
  }
}
