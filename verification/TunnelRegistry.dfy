/** Live reverse tunnels on the broker (apps/api/src/tunnel.ts).

  A tunnel record is reached through a handle, as the handlers that captured it reach it; `tunnels` and
  `byDevice` are the registry's own maps. The log holds what the registry told sockets, in order.
 */
module TunnelRegistry {
  import opened Options

  type TunnelId = string
  type Device = string
  type StreamId = string
  type Sink = nat

  datatype Reason = AgentGone | Expired | QuotaExceeded | Revoked

  /** `derive` is the keyed derivation of a tunnel id from a device and its epoch. */
  datatype Config = Config(maxBytes: nat, maxMinutes: nat, maxStreams: nat, derive: (Device, nat) -> TunnelId)

  /** `epoch` only remembers which epoch the id was derived for. */
  datatype Tunnel = Tunnel(id: TunnelId, device: Device, epoch: nat, expiresAt: int, bytes: nat, blocked: bool, agent: Sink,
                           streams: map<StreamId, Option<Sink>>)

  /** `TunnelClosed` is one notice to the agent and one to the browser of every stream it carried. */
  datatype Entry =
    | TunnelClosed(tunnel: nat, device: Device, streams: map<StreamId, Option<Sink>>, reason: Reason)
    | StreamOpened(tunnel: nat, stream: StreamId)
    | StreamClosed(tunnel: nat, stream: StreamId, browser: Option<Sink>)

  datatype Registry = Registry(records: map<nat, Tunnel>, next: nat, tunnels: map<TunnelId, nat>, byDevice: map<Device, TunnelId>,
                               epochs: map<Device, nat>, log: seq<Entry>)

  const START := Registry(map[], 0, map[], map[], map[], [])

  function EpochOf(r: Registry, device: Device): nat {
    if device in r.epochs then r.epochs[device] else 0
  }

  function Drop(r: Registry, id: TunnelId, reason: Reason): Registry {
    if id !in r.tunnels || r.tunnels[id] !in r.records then r
    else
      var h := r.tunnels[id];
      var t := r.records[h];
      r.(records := r.records[h := t.(streams := map[])],
         tunnels := r.tunnels - {id},
         byDevice := if t.device in r.byDevice && r.byDevice[t.device] == id then r.byDevice - {t.device} else r.byDevice,
         epochs := if reason.Revoked? then r.epochs[t.device := EpochOf(r, t.device) + 1] else r.epochs,
         log := r.log + [TunnelClosed(h, t.device, t.streams, reason)])
  }

  function Register(c: Config, r: Registry, device: Device, agent: Sink, now: int): Registry {
    var s := if device in r.byDevice then Drop(r, r.byDevice[device], AgentGone) else r;
    var epoch := EpochOf(s, device);
    var id := c.derive(device, epoch);
    s.(records := s.records[s.next := Tunnel(id, device, epoch, now + c.maxMinutes * 60000, 0, false, agent, map[])],
       next := s.next + 1,
       tunnels := s.tunnels[id := s.next],
       byDevice := s.byDevice[device := id])
  }

  /** The live tunnel an id names, dropping it when it has run out. */
  function Get(r: Registry, id: TunnelId, now: int): (Registry, Option<nat>) {
    if id !in r.tunnels || r.tunnels[id] !in r.records then (r, None)
    else if r.records[r.tunnels[id]].expiresAt <= now then (Drop(r, id, Expired), None)
    else (r, Some(r.tunnels[id]))
  }

  function OpenStream(c: Config, r: Registry, h: nat, stream: StreamId, browser: Sink): (Registry, bool)
    requires h in r.records
  {
    var t := r.records[h];
    if t.blocked || |t.streams| >= c.maxStreams then (r, false)
    else (r.(records := r.records[h := t.(streams := t.streams[stream := Some(browser)])], log := r.log + [StreamOpened(h, stream)]), true)
  }

  function AttachBrowser(r: Registry, h: nat, stream: StreamId, browser: Sink): (Registry, bool)
    requires h in r.records
  {
    var t := r.records[h];
    if stream !in t.streams then (r, false)
    else (r.(records := r.records[h := t.(streams := t.streams[stream := Some(browser)])]), true)
  }

  function CloseStream(r: Registry, h: nat, stream: StreamId): Registry
    requires h in r.records
  {
    var t := r.records[h];
    if stream !in t.streams then r
    else r.(records := r.records[h := t.(streams := t.streams - {stream})], log := r.log + [StreamClosed(h, stream, t.streams[stream])])
  }

  function Charge(c: Config, r: Registry, h: nat, bytes: nat): (Registry, bool)
    requires h in r.records
  {
    var t := r.records[h];
    var s := r.(records := r.records[h := t.(bytes := t.bytes + bytes)]);
    if t.bytes + bytes > c.maxBytes then (Drop(s, t.id, QuotaExceeded), false) else (s, true)
  }

  function Block(r: Registry, h: nat): Registry
    requires h in r.records
  {
    r.(records := r.records[h := r.records[h].(blocked := true)])
  }

  /** `order` is the order the map is walked in. */
  function Sweep(r: Registry, order: seq<TunnelId>, now: int): Registry {
    if order == [] then r
    else
      var rest := Sweep(r, order[..|order| - 1], now);
      var id := order[|order| - 1];
      if id in rest.tunnels && rest.tunnels[id] in rest.records && rest.records[rest.tunnels[id]].expiresAt <= now then Drop(rest, id, Expired)
      else rest
  }

  datatype Op =
    | RegisterOp(device: Device, agent: Sink, now: int)
    | GetOp(id: TunnelId, now: int)
    | CloseOp(id: TunnelId, reason: Reason)
    | OpenStreamOp(tunnel: nat, stream: StreamId, browser: Sink)
    | AttachOp(tunnel: nat, stream: StreamId, browser: Sink)
    | CloseStreamOp(tunnel: nat, stream: StreamId)
    | ChargeOp(tunnel: nat, bytes: nat)
    | BlockOp(tunnel: nat)
    | SweepOp(order: seq<TunnelId>, now: int)

  /** A handler holds a handle the registry gave it, and stream ids are never drawn twice. */
  predicate Enabled(r: Registry, op: Op) {
    match op
    case OpenStreamOp(h, stream, _) => h in r.records && StreamOpened(h, stream) !in r.log
    case AttachOp(h, _, _) => h in r.records
    case CloseStreamOp(h, _) => h in r.records
    case ChargeOp(h, _) => h in r.records
    case BlockOp(h) => h in r.records
    case _ => true
  }

  function Apply(c: Config, r: Registry, op: Op): Registry
    requires Enabled(r, op)
  {
    match op
    case RegisterOp(device, agent, now) => Register(c, r, device, agent, now)
    case GetOp(id, now) => Get(r, id, now).0
    case CloseOp(id, reason) => Drop(r, id, reason)
    case OpenStreamOp(h, stream, browser) => OpenStream(c, r, h, stream, browser).0
    case AttachOp(h, stream, browser) => AttachBrowser(r, h, stream, browser).0
    case CloseStreamOp(h, stream) => CloseStream(r, h, stream)
    case ChargeOp(h, bytes) => Charge(c, r, h, bytes).0
    case BlockOp(h) => Block(r, h)
    case SweepOp(order, now) => Sweep(r, order, now)
  }

  // ---------------------------------------------------------------------------
  // What every run keeps
  // ---------------------------------------------------------------------------

  ghost predicate Injective(c: Config) {
    forall d1, n1: nat, d2, n2: nat :: c.derive(d1, n1) == c.derive(d2, n2) ==> d1 == d2 && n1 == n2
  }

  predicate Registered(r: Registry, h: nat) {
    h in r.records && r.records[h].id in r.tunnels && r.tunnels[r.records[h].id] == h
  }

  predicate RecordOk(c: Config, r: Registry, h: nat)
    requires h in r.records
  {
    var t := r.records[h];
    && h < r.next && t.id == c.derive(t.device, t.epoch) && |t.streams| <= c.maxStreams
    && (Registered(r, h) ==> t.bytes <= c.maxBytes && t.epoch == EpochOf(r, t.device))
    && t.epoch <= EpochOf(r, t.device)
  }

  predicate IdOk(r: Registry, id: TunnelId)
    requires id in r.tunnels
  {
    var h := r.tunnels[id];
    h in r.records && r.records[h].id == id && r.records[h].device in r.byDevice && r.byDevice[r.records[h].device] == id
  }

  predicate DeviceOk(r: Registry, device: Device)
    requires device in r.byDevice
  {
    var id := r.byDevice[device];
    id in r.tunnels && r.tunnels[id] in r.records && r.records[r.tunnels[id]].device == device
  }

  /** The two maps are inverse, ids are as derived, and quotas hold. */
  predicate Inv(c: Config, r: Registry) {
    && (forall h | h in r.records :: RecordOk(c, r, h))
    && (forall id | id in r.tunnels :: IdOk(r, id))
    && (forall device | device in r.byDevice :: DeviceOk(r, device))
  }

  lemma DropRecordOk(c: Config, r: Registry, id: TunnelId, reason: Reason, h: nat)
    requires id in r.tunnels && IdOk(r, id) && h in r.records && RecordOk(c, r, h)
    requires Registered(r, h) && r.records[h].device == r.records[r.tunnels[id]].device ==> h == r.tunnels[id]
    ensures h in Drop(r, id, reason).records && RecordOk(c, Drop(r, id, reason), h)
  {
  }

  lemma DropIdOk(r: Registry, id: TunnelId, reason: Reason, i: TunnelId)
    requires id in r.tunnels && IdOk(r, id) && i in r.tunnels && IdOk(r, i) && i != id
    ensures i in Drop(r, id, reason).tunnels && IdOk(Drop(r, id, reason), i)
  {
  }

  lemma DropDeviceOk(r: Registry, id: TunnelId, reason: Reason, device: Device)
    requires id in r.tunnels && IdOk(r, id) && device in r.byDevice && DeviceOk(r, device) && device in Drop(r, id, reason).byDevice
    ensures DeviceOk(Drop(r, id, reason), device)
  {
  }

  /** A device has one live tunnel. */
  lemma OnePerDevice(c: Config, r: Registry, h: nat, g: nat)
    requires Inv(c, r) && Registered(r, h) && Registered(r, g) && r.records[h].device == r.records[g].device
    ensures h == g
  {
    assert IdOk(r, r.records[h].id) && IdOk(r, r.records[g].id);
  }

  lemma DropKeys(r: Registry, id: TunnelId, reason: Reason)
    requires id in r.tunnels && r.tunnels[id] in r.records
    ensures var s := Drop(r, id, reason);
            s.records.Keys == r.records.Keys && s.tunnels.Keys == r.tunnels.Keys - {id} && s.byDevice.Keys <= r.byDevice.Keys
  {
  }

  lemma DropRecordsOk(c: Config, r: Registry, id: TunnelId, reason: Reason)
    requires Inv(c, r) && id in r.tunnels && r.tunnels[id] in r.records
    ensures forall h | h in Drop(r, id, reason).records :: RecordOk(c, Drop(r, id, reason), h)
  {
    assert IdOk(r, id);
    var gone := r.tunnels[id];
    assert Registered(r, gone);
    DropKeys(r, id, reason);
    hide Drop;
    forall h | h in Drop(r, id, reason).records ensures RecordOk(c, Drop(r, id, reason), h) {
      assert RecordOk(c, r, h);
      if Registered(r, h) && r.records[h].device == r.records[gone].device { OnePerDevice(c, r, h, gone); }
      DropRecordOk(c, r, id, reason, h);
    }
  }

  lemma DropMapsOk(c: Config, r: Registry, id: TunnelId, reason: Reason)
    requires Inv(c, r) && id in r.tunnels && r.tunnels[id] in r.records
    ensures forall i | i in Drop(r, id, reason).tunnels :: IdOk(Drop(r, id, reason), i)
    ensures forall d | d in Drop(r, id, reason).byDevice :: DeviceOk(Drop(r, id, reason), d)
  {
    assert IdOk(r, id);
    DropKeys(r, id, reason);
    hide Drop, RecordOk;
    forall i | i in Drop(r, id, reason).tunnels ensures IdOk(Drop(r, id, reason), i) { assert IdOk(r, i); DropIdOk(r, id, reason, i); }
    hide IdOk;
    forall d | d in Drop(r, id, reason).byDevice ensures DeviceOk(Drop(r, id, reason), d) { assert DeviceOk(r, d); DropDeviceOk(r, id, reason, d); }
  }

  lemma DropKeepsInv(c: Config, r: Registry, id: TunnelId, reason: Reason)
    requires Inv(c, r)
    ensures Inv(c, Drop(r, id, reason))
  {
    if id in r.tunnels && r.tunnels[id] in r.records {
      DropRecordsOk(c, r, id, reason);
      DropMapsOk(c, r, id, reason);
      hide Drop, RecordOk, IdOk, DeviceOk;
    }
  }

  /** A device with nothing in the map has no live tunnel, so its next id is free. */
  lemma IdIsFree(c: Config, r: Registry, device: Device)
    requires Inv(c, r) && Injective(c) && device !in r.byDevice
    ensures c.derive(device, EpochOf(r, device)) !in r.tunnels
  {
    forall id | id in r.tunnels ensures id != c.derive(device, EpochOf(r, device)) {
      assert IdOk(r, id);
      var t := r.records[r.tunnels[id]];
      assert RecordOk(c, r, r.tunnels[id]) && t.device != device;
    }
  }

  lemma DropForgetsDevice(c: Config, r: Registry, device: Device)
    requires Inv(c, r) && device in r.byDevice
    ensures device !in Drop(r, r.byDevice[device], AgentGone).byDevice
  {
    assert DeviceOk(r, device);
  }

  /** The new record and its two map entries, on a registry where the device has none. */
  function Enter(c: Config, s: Registry, device: Device, agent: Sink, now: int): Registry {
    var epoch := EpochOf(s, device);
    var id := c.derive(device, epoch);
    s.(records := s.records[s.next := Tunnel(id, device, epoch, now + c.maxMinutes * 60000, 0, false, agent, map[])],
       next := s.next + 1,
       tunnels := s.tunnels[id := s.next],
       byDevice := s.byDevice[device := id])
  }

  lemma EnterRecordOk(c: Config, s: Registry, device: Device, agent: Sink, now: int, h: nat)
    requires h in s.records && RecordOk(c, s, h) && h < s.next && c.derive(device, EpochOf(s, device)) !in s.tunnels
    ensures RecordOk(c, Enter(c, s, device, agent, now), h)
  {
    var u := Enter(c, s, device, agent, now);
    assert Registered(u, h) ==> Registered(s, h);
  }

  lemma EnterNewOk(c: Config, s: Registry, device: Device, agent: Sink, now: int)
    ensures var u := Enter(c, s, device, agent, now);
            RecordOk(c, u, s.next) && DeviceOk(u, device) && IdOk(u, u.byDevice[device])
  {
  }

  lemma EnterKeys(c: Config, s: Registry, device: Device, agent: Sink, now: int)
    ensures var u := Enter(c, s, device, agent, now);
            && u.records.Keys == s.records.Keys + {s.next}
            && u.tunnels.Keys == s.tunnels.Keys + {c.derive(device, EpochOf(s, device))}
            && u.byDevice.Keys == s.byDevice.Keys + {device}
            && device in u.byDevice && u.byDevice[device] == c.derive(device, EpochOf(s, device))
  {
  }

  lemma EnterRecordsOk(c: Config, s: Registry, device: Device, agent: Sink, now: int)
    requires Inv(c, s) && c.derive(device, EpochOf(s, device)) !in s.tunnels
    ensures forall h | h in Enter(c, s, device, agent, now).records :: RecordOk(c, Enter(c, s, device, agent, now), h)
    ensures forall h | h in s.records :: h < s.next
  {
    EnterKeys(c, s, device, agent, now);
    EnterNewOk(c, s, device, agent, now);
    forall h | h in s.records ensures h < s.next { assert RecordOk(c, s, h); }
    hide Enter, EpochOf;
    forall h | h in Enter(c, s, device, agent, now).records ensures RecordOk(c, Enter(c, s, device, agent, now), h) {
      if h != s.next {
        assert RecordOk(c, s, h);
        EnterRecordOk(c, s, device, agent, now, h);
      }
    }
  }

  lemma EnterIdsOk(c: Config, s: Registry, device: Device, agent: Sink, now: int)
    requires Inv(c, s) && device !in s.byDevice && c.derive(device, EpochOf(s, device)) !in s.tunnels && forall h | h in s.records :: h < s.next
    ensures forall i | i in Enter(c, s, device, agent, now).tunnels :: IdOk(Enter(c, s, device, agent, now), i)
  {
    EnterKeys(c, s, device, agent, now);
    EnterNewOk(c, s, device, agent, now);
    hide Enter, EpochOf, RecordOk;
    forall i | i in Enter(c, s, device, agent, now).tunnels ensures IdOk(Enter(c, s, device, agent, now), i) {
      if i in s.tunnels {
        assert IdOk(s, i);
        EnterIdOk(c, s, device, agent, now, i);
      }
    }
  }

  lemma EnterDevicesOk(c: Config, s: Registry, device: Device, agent: Sink, now: int)
    requires Inv(c, s) && device !in s.byDevice && c.derive(device, EpochOf(s, device)) !in s.tunnels && forall h | h in s.records :: h < s.next
    ensures forall d | d in Enter(c, s, device, agent, now).byDevice :: DeviceOk(Enter(c, s, device, agent, now), d)
  {
    EnterKeys(c, s, device, agent, now);
    EnterNewOk(c, s, device, agent, now);
    hide Enter, EpochOf, RecordOk, IdOk;
    forall d | d in Enter(c, s, device, agent, now).byDevice ensures DeviceOk(Enter(c, s, device, agent, now), d) {
      if d in s.byDevice {
        assert DeviceOk(s, d);
        EnterDeviceOk(c, s, device, agent, now, d);
      }
    }
  }

  lemma EnterKeepsInv(c: Config, s: Registry, device: Device, agent: Sink, now: int)
    requires Inv(c, s) && device !in s.byDevice && c.derive(device, EpochOf(s, device)) !in s.tunnels
    ensures Inv(c, Enter(c, s, device, agent, now))
  {
    hide Enter, EpochOf, RecordOk, IdOk, DeviceOk;
    EnterRecordsOk(c, s, device, agent, now);
    EnterIdsOk(c, s, device, agent, now);
    EnterDevicesOk(c, s, device, agent, now);
  }

  lemma EnterIdOk(c: Config, s: Registry, device: Device, agent: Sink, now: int, i: TunnelId)
    requires i in s.tunnels && IdOk(s, i) && s.tunnels[i] < s.next && device !in s.byDevice && i != c.derive(device, EpochOf(s, device))
    ensures i in Enter(c, s, device, agent, now).tunnels && IdOk(Enter(c, s, device, agent, now), i)
  {
  }

  lemma EnterDeviceOk(c: Config, s: Registry, device: Device, agent: Sink, now: int, d: Device)
    requires d in s.byDevice && DeviceOk(s, d) && s.tunnels[s.byDevice[d]] < s.next && d != device
    requires s.byDevice[d] != c.derive(device, EpochOf(s, device))
    ensures d in Enter(c, s, device, agent, now).byDevice && DeviceOk(Enter(c, s, device, agent, now), d)
  {
  }

  lemma RegisterKeepsInv(c: Config, r: Registry, device: Device, agent: Sink, now: int)
    requires Inv(c, r) && Injective(c)
    ensures Inv(c, Register(c, r, device, agent, now))
  {
    hide Inv, Drop, Injective;
    var s := if device in r.byDevice then Drop(r, r.byDevice[device], AgentGone) else r;
    if device in r.byDevice {
      DropKeepsInv(c, r, r.byDevice[device], AgentGone);
      DropForgetsDevice(c, r, device);
    }
    IdIsFree(c, s, device);
    EnterKeepsInv(c, s, device, agent, now);
    assert Register(c, r, device, agent, now) == Enter(c, s, device, agent, now);
  }

  /** `t` is record `h` with other counters or streams, within the quotas. */
  predicate Adjusts(c: Config, r: Registry, h: nat, t: Tunnel)
    requires h in r.records
  {
    && t == r.records[h].(bytes := t.bytes, blocked := t.blocked, streams := t.streams)
    && |t.streams| <= c.maxStreams && (Registered(r, h) ==> t.bytes <= c.maxBytes)
  }

  lemma UpdateRecordsOk(c: Config, r: Registry, h: nat, t: Tunnel, log: seq<Entry>)
    requires Inv(c, r) && h in r.records && Adjusts(c, r, h, t)
    ensures var s := r.(records := r.records[h := t], log := log); forall x | x in s.records :: RecordOk(c, s, x)
  {
    var s := r.(records := r.records[h := t], log := log);
    assert RecordOk(c, r, h);
    forall x | x in s.records ensures RecordOk(c, s, x) {
      assert RecordOk(c, r, x);
      assert Registered(s, x) ==> Registered(r, x);
    }
  }

  lemma UpdateMapsOk(c: Config, r: Registry, h: nat, t: Tunnel, log: seq<Entry>)
    requires Inv(c, r) && h in r.records && Adjusts(c, r, h, t)
    ensures var s := r.(records := r.records[h := t], log := log);
            (forall i | i in s.tunnels :: IdOk(s, i)) && (forall d | d in s.byDevice :: DeviceOk(s, d))
  {
    hide RecordOk;
    var s := r.(records := r.records[h := t], log := log);
    forall i | i in s.tunnels ensures IdOk(s, i) { assert IdOk(r, i); }
    forall d | d in s.byDevice ensures DeviceOk(s, d) { assert DeviceOk(r, d); }
  }

  /** Changing one record's counters or streams. */
  lemma UpdateKeepsInv(c: Config, r: Registry, h: nat, t: Tunnel, log: seq<Entry>)
    requires Inv(c, r) && h in r.records && Adjusts(c, r, h, t)
    ensures Inv(c, r.(records := r.records[h := t], log := log))
  {
    UpdateRecordsOk(c, r, h, t, log);
    UpdateMapsOk(c, r, h, t, log);
    hide RecordOk, IdOk, DeviceOk, Adjusts;
  }

  lemma StreamsBounded(c: Config, r: Registry, h: nat)
    requires Inv(c, r) && h in r.records
    ensures |r.records[h].streams| <= c.maxStreams && (Registered(r, h) ==> r.records[h].bytes <= c.maxBytes)
  {
    assert RecordOk(c, r, h);
  }

  lemma CountKeepsInv(c: Config, r: Registry, h: nat, bytes: nat)
    requires Inv(c, r) && h in r.records && (r.records[h].bytes + bytes <= c.maxBytes || !Registered(r, h))
    ensures Inv(c, r.(records := r.records[h := r.records[h].(bytes := r.records[h].bytes + bytes)]))
  {
    hide Inv, EpochOf, RecordOk, Registered;
    StreamsBounded(c, r, h);
    var t := r.records[h];
    UpdateKeepsInv(c, r, h, t.(bytes := t.bytes + bytes), r.log);
  }

  lemma ChargeUnderKeepsInv(c: Config, r: Registry, h: nat, bytes: nat)
    requires Inv(c, r) && h in r.records && (r.records[h].bytes + bytes <= c.maxBytes || !Registered(r, h))
    ensures Inv(c, Charge(c, r, h, bytes).0)
  {
    hide Inv, Drop, Registered;
    CountKeepsInv(c, r, h, bytes);
    DropKeepsInv(c, r.(records := r.records[h := r.records[h].(bytes := r.records[h].bytes + bytes)]), r.records[h].id, QuotaExceeded);
  }

  /** The over-quota record goes at the same moment its counter passes the quota. */
  lemma ChargeOverKeepsInv(c: Config, r: Registry, h: nat, bytes: nat)
    requires Inv(c, r) && h in r.records && Registered(r, h) && r.records[h].bytes + bytes > c.maxBytes
    ensures Inv(c, Charge(c, r, h, bytes).0)
  {
    hide Inv, Drop, Registered, Charge;
    var t := r.records[h];
    DropKeepsInv(c, r, t.id, QuotaExceeded);
    DropThenCount(c, r, h, bytes);
    var s := Drop(r, t.id, QuotaExceeded);
    UpdateKeepsInv(c, s, h, t.(bytes := t.bytes + bytes, streams := map[]), s.log);
  }

  lemma ChargeKeepsInv(c: Config, r: Registry, h: nat, bytes: nat)
    requires Inv(c, r) && h in r.records
    ensures Inv(c, Charge(c, r, h, bytes).0)
  {
    hide Inv, Charge;
    if r.records[h].bytes + bytes <= c.maxBytes || !Registered(r, h) { ChargeUnderKeepsInv(c, r, h, bytes); } else { ChargeOverKeepsInv(c, r, h, bytes); }
  }

  lemma DropThenCount(c: Config, r: Registry, h: nat, bytes: nat)
    requires h in r.records && Registered(r, h) && r.records[h].bytes + bytes > c.maxBytes
    ensures var s := Drop(r, r.records[h].id, QuotaExceeded);
            && h in s.records && !Registered(s, h) && s.records[h] == r.records[h].(streams := map[])
            && Charge(c, r, h, bytes).0 == s.(records := s.records[h := r.records[h].(bytes := r.records[h].bytes + bytes, streams := map[])], log := s.log)
  {
    var t := r.records[h];
    var u := r.(records := r.records[h := t.(bytes := t.bytes + bytes)]);
    var s := Drop(r, t.id, QuotaExceeded);
    var v := Drop(u, t.id, QuotaExceeded);
    assert v.records == s.records[h := t.(bytes := t.bytes + bytes, streams := map[])];
  }

  lemma {:induction false} SweepKeepsInv(c: Config, r: Registry, order: seq<TunnelId>, now: int)
    requires Inv(c, r)
    ensures Inv(c, Sweep(r, order, now))
  {
    hide Inv, Drop;
    if order != [] {
      var rest := Sweep(r, order[..|order| - 1], now);
      SweepKeepsInv(c, r, order[..|order| - 1], now);
      DropKeepsInv(c, rest, order[|order| - 1], Expired);
    }
  }

  lemma StreamsShrink(streams: map<StreamId, Option<Sink>>, stream: StreamId, browser: Sink)
    ensures stream in streams ==> |streams - {stream}| < |streams| && |streams[stream := Some(browser)]| == |streams|
    ensures stream !in streams ==> |streams[stream := Some(browser)]| == |streams| + 1
  {
    if stream in streams {
      assert streams.Keys == (streams - {stream}).Keys + {stream};
      assert |(streams - {stream}).Keys| == |streams - {stream}| && |streams.Keys| == |streams|;
      assert streams[stream := Some(browser)].Keys == streams.Keys;
      assert |streams[stream := Some(browser)].Keys| == |streams[stream := Some(browser)]|;
    }
  }

  lemma ApplyKeepsInv(c: Config, r: Registry, op: Op)
    requires Inv(c, r) && Injective(c) && Enabled(r, op)
    ensures Inv(c, Apply(c, r, op))
  {
    match op
    case RegisterOp(device, agent, now) => RegisterKeepsInv(c, r, device, agent, now); hide Register, Inv;
    case GetOp(id, now) => DropKeepsInv(c, r, id, Expired); hide Drop, Inv;
    case CloseOp(id, reason) => DropKeepsInv(c, r, id, reason); hide Drop, Inv;
    case ChargeOp(h, bytes) => ChargeKeepsInv(c, r, h, bytes); hide Charge, Inv;
    case SweepOp(order, now) => SweepKeepsInv(c, r, order, now); hide Sweep, Inv;
    case _ => StreamOpKeepsInv(c, r, op);
  }

  lemma StreamOpKeepsInv(c: Config, r: Registry, op: Op)
    requires Inv(c, r) && Enabled(r, op)
    requires op.OpenStreamOp? || op.AttachOp? || op.CloseStreamOp? || op.BlockOp?
    ensures Inv(c, Apply(c, r, op))
  {
    hide Inv, RecordOk, Registered;
    var h := op.tunnel;
    var t := r.records[h];
    StreamsBounded(c, r, h);
    match op
    case OpenStreamOp(_, stream, browser) =>
      StreamsShrink(t.streams, stream, browser);
      if !t.blocked && |t.streams| < c.maxStreams {
        UpdateKeepsInv(c, r, h, t.(streams := t.streams[stream := Some(browser)]), r.log + [StreamOpened(h, stream)]);
      }
    case AttachOp(_, stream, browser) =>
      StreamsShrink(t.streams, stream, browser);
      if stream in t.streams { UpdateKeepsInv(c, r, h, t.(streams := t.streams[stream := Some(browser)]), r.log); }
    case CloseStreamOp(_, stream) =>
      StreamsShrink(t.streams, stream, 0);
      if stream in t.streams {
        UpdateKeepsInv(c, r, h, t.(streams := t.streams - {stream}), r.log + [StreamClosed(h, stream, t.streams[stream])]);
      }
    case BlockOp(_) => UpdateKeepsInv(c, r, h, t.(blocked := true), r.log);
    case _ =>
  }

  predicate AllEnabled(c: Config, r: Registry, ops: seq<Op>)
    decreases |ops|
  {
    ops == [] || (Enabled(r, ops[0]) && AllEnabled(c, Apply(c, r, ops[0]), ops[1..]))
  }

  function Exec(c: Config, r: Registry, ops: seq<Op>): Registry
    requires AllEnabled(c, r, ops)
    decreases |ops|
  {
    if ops == [] then r else Exec(c, Apply(c, r, ops[0]), ops[1..])
  }

  lemma {:induction false} RunsKeepInv(c: Config, r: Registry, ops: seq<Op>)
    requires Inv(c, r) && Injective(c) && AllEnabled(c, r, ops)
    ensures Inv(c, Exec(c, r, ops))
    decreases |ops|
  {
    hide Inv, Injective, Apply, Enabled;
    if ops != [] {
      ApplyKeepsInv(c, r, ops[0]);
      RunsKeepInv(c, Apply(c, r, ops[0]), ops[1..]);
    }
  }

  /** Main result: in every reachable state the two maps are inverse, every registered tunnel is within its
    * byte quota, no tunnel carries more streams than the cap, and its id is the one its device's epoch derives. */
  lemma MapsAreInverse(c: Config, ops: seq<Op>, id: TunnelId, device: Device)
    requires Injective(c) && AllEnabled(c, START, ops)
    ensures var r := Exec(c, START, ops);
            && (device in r.byDevice && r.byDevice[device] == id <==> id in r.tunnels && r.tunnels[id] in r.records && r.records[r.tunnels[id]].device == device)
            && (id in r.tunnels ==> r.tunnels[id] in r.records && r.records[r.tunnels[id]].bytes <= c.maxBytes)
            && (id in r.tunnels ==> id == c.derive(r.records[r.tunnels[id]].device, EpochOf(r, r.records[r.tunnels[id]].device)))
            && (forall h | h in r.records :: |r.records[h].streams| <= c.maxStreams)
  {
    RunsKeepInv(c, START, ops);
    var r := Exec(c, START, ops);
    hide Exec, Injective;
    if id in r.tunnels { assert IdOk(r, id) && RecordOk(c, r, r.tunnels[id]); }
    if device in r.byDevice { assert DeviceOk(r, device); }
    forall h | h in r.records ensures |r.records[h].streams| <= c.maxStreams { assert RecordOk(c, r, h); }
  }

  // ---------------------------------------------------------------------------
  // Epochs
  // ---------------------------------------------------------------------------

  /** How many live tunnels of the device were closed as revoked. */
  function RevokedCount(log: seq<Entry>, device: Device): nat {
    if log == [] then 0
    else
      var e := log[|log| - 1];
      RevokedCount(log[..|log| - 1], device) + if e.TunnelClosed? && e.device == device && e.reason.Revoked? then 1 else 0
  }

  ghost predicate EpochsOk(r: Registry) {
    forall device :: EpochOf(r, device) == RevokedCount(r.log, device)
  }

  lemma DropKeepsEpochs(r: Registry, id: TunnelId, reason: Reason)
    requires EpochsOk(r)
    ensures EpochsOk(Drop(r, id, reason))
  {
    var s := Drop(r, id, reason);
    forall device ensures EpochOf(s, device) == RevokedCount(s.log, device) {
      assert EpochOf(r, device) == RevokedCount(r.log, device);
      if s.log != r.log { assert s.log[..|s.log| - 1] == r.log; }
    }
  }

  /** Entries about one stream leave the epochs alone. */
  lemma LogKeepsEpochs(r: Registry, s: Registry)
    requires EpochsOk(r) && s.epochs == r.epochs
    requires s.log == r.log || (|s.log| == |r.log| + 1 && s.log[..|r.log|] == r.log && !s.log[|r.log|].TunnelClosed?)
    ensures EpochsOk(s)
  {
    forall device ensures EpochOf(s, device) == RevokedCount(s.log, device) {
      assert EpochOf(r, device) == RevokedCount(r.log, device);
    }
  }

  lemma {:induction false} SweepKeepsEpochs(r: Registry, order: seq<TunnelId>, now: int)
    requires EpochsOk(r)
    ensures EpochsOk(Sweep(r, order, now))
  {
    hide EpochsOk, Drop;
    if order != [] {
      SweepKeepsEpochs(r, order[..|order| - 1], now);
      DropKeepsEpochs(Sweep(r, order[..|order| - 1], now), order[|order| - 1], Expired);
    }
  }

  lemma ApplyKeepsEpochs(c: Config, r: Registry, op: Op)
    requires EpochsOk(r) && Enabled(r, op)
    ensures EpochsOk(Apply(c, r, op))
  {
    hide EpochsOk, Drop;
    match op
    case RegisterOp(device, agent, now) =>
      if device in r.byDevice { DropKeepsEpochs(r, r.byDevice[device], AgentGone); }
      LogKeepsEpochs(if device in r.byDevice then Drop(r, r.byDevice[device], AgentGone) else r, Apply(c, r, op));
    case GetOp(id, now) => DropKeepsEpochs(r, id, Expired);
    case CloseOp(id, reason) => DropKeepsEpochs(r, id, reason);
    case ChargeOp(h, bytes) =>
      var s := r.(records := r.records[h := r.records[h].(bytes := r.records[h].bytes + bytes)]);
      LogKeepsEpochs(r, s);
      DropKeepsEpochs(s, r.records[h].id, QuotaExceeded);
    case SweepOp(order, now) => SweepKeepsEpochs(r, order, now);
    case _ => LogKeepsEpochs(r, Apply(c, r, op));
  }

  lemma {:induction false} RunsKeepEpochs(c: Config, r: Registry, ops: seq<Op>)
    requires EpochsOk(r) && AllEnabled(c, r, ops)
    ensures EpochsOk(Exec(c, r, ops))
    decreases |ops|
  {
    hide EpochsOk, Apply, Enabled;
    if ops != [] {
      ApplyKeepsEpochs(c, r, ops[0]);
      RunsKeepEpochs(c, Apply(c, r, ops[0]), ops[1..]);
    }
  }

  /** Main result: the id a device registers under depends on nothing but how many of its live tunnels were
    * closed as revoked; every other close, and any number of reconnects, gives it back. */
  lemma IdDependsOnRevocationsOnly(c: Config, ops: seq<Op>, device: Device, agent: Sink, now: int)
    requires Injective(c) && AllEnabled(c, START, ops)
    ensures var r := Exec(c, START, ops);
            var s := Register(c, r, device, agent, now);
            device in s.byDevice && s.byDevice[device] == c.derive(device, RevokedCount(r.log, device))
  {
    RunsKeepEpochs(c, START, ops);
    var r := Exec(c, START, ops);
    hide Exec, Injective, RevokedCount;
    assert EpochOf(r, device) == RevokedCount(r.log, device);
  }

  // ---------------------------------------------------------------------------
  // One terminal message per stream
  // ---------------------------------------------------------------------------

  function OpenCount(log: seq<Entry>, h: nat, stream: StreamId): nat {
    if log == [] then 0 else OpenCount(log[..|log| - 1], h, stream) + if log[|log| - 1] == StreamOpened(h, stream) then 1 else 0
  }

  predicate Ends(e: Entry, h: nat, stream: StreamId) {
    match e
    case TunnelClosed(g, _, streams, _) => g == h && stream in streams
    case StreamClosed(g, s, _) => g == h && s == stream
    case StreamOpened(_, _) => false
  }

  function EndCount(log: seq<Entry>, h: nat, stream: StreamId): nat {
    if log == [] then 0 else EndCount(log[..|log| - 1], h, stream) + if Ends(log[|log| - 1], h, stream) then 1 else 0
  }

  function Live(r: Registry, h: nat, stream: StreamId): nat {
    if h in r.records && stream in r.records[h].streams then 1 else 0
  }

  /** Every stream that was opened is either carried or has had exactly one terminal message. */
  ghost predicate Balanced(r: Registry) {
    && (forall h, stream :: EndCount(r.log, h, stream) + Live(r, h, stream) == OpenCount(r.log, h, stream))
    && (forall h, stream :: OpenCount(r.log, h, stream) <= 1)
    && (forall h | h in r.records :: h < r.next)
  }

  lemma {:induction false} OpenedIsLogged(log: seq<Entry>, h: nat, stream: StreamId)
    requires StreamOpened(h, stream) !in log
    ensures OpenCount(log, h, stream) == 0
  {
    if log != [] {
      assert log[|log| - 1] in log;
      assert StreamOpened(h, stream) !in log[..|log| - 1];
      OpenedIsLogged(log[..|log| - 1], h, stream);
    }
  }

  lemma BalanceAt(r: Registry, h: nat, stream: StreamId)
    requires Balanced(r)
    ensures EndCount(r.log, h, stream) + Live(r, h, stream) == OpenCount(r.log, h, stream) <= 1
  {
  }

  lemma DropKeepsBalance(r: Registry, id: TunnelId, reason: Reason)
    requires Balanced(r)
    ensures Balanced(Drop(r, id, reason))
  {
    var s := Drop(r, id, reason);
    if s != r {
      assert s.log[..|s.log| - 1] == r.log;
      forall h, stream ensures EndCount(s.log, h, stream) + Live(s, h, stream) == OpenCount(s.log, h, stream) <= 1 { BalanceAt(r, h, stream); }
    }
  }

  /** Steps that leave the log and every record's streams alone; a new record carries none. */
  lemma QuietKeepsBalance(r: Registry, s: Registry)
    requires Balanced(r) && s.log == r.log && forall h | h in s.records :: h < s.next
    requires forall h | h in r.records :: h in s.records && s.records[h].streams.Keys == r.records[h].streams.Keys
    requires forall h | h in s.records && h !in r.records :: s.records[h].streams == map[]
    ensures Balanced(s)
  {
    forall h, stream ensures EndCount(s.log, h, stream) + Live(s, h, stream) == OpenCount(s.log, h, stream) <= 1 {
      BalanceAt(r, h, stream);
      if h in r.records { assert stream in s.records[h].streams <==> stream in s.records[h].streams.Keys; }
    }
  }

  /** One entry about one stream, with the stream entering or leaving its record. */
  lemma StreamEntryKeepsBalance(r: Registry, s: Registry, h: nat, stream: StreamId)
    requires Balanced(r) && h in r.records && s.records.Keys == r.records.Keys && s.next == r.next
    requires forall g | g in r.records && g != h :: s.records[g] == r.records[g]
    requires forall x | x != stream :: x in s.records[h].streams <==> x in r.records[h].streams
    requires |s.log| == |r.log| + 1 && s.log[..|r.log|] == r.log
    requires || (s.log[|r.log|] == StreamOpened(h, stream) && StreamOpened(h, stream) !in r.log && stream in s.records[h].streams)
             || (s.log[|r.log|].StreamClosed? && s.log[|r.log|].tunnel == h && s.log[|r.log|].stream == stream && stream in r.records[h].streams && stream !in s.records[h].streams)
    ensures Balanced(s)
  {
    if s.log[|r.log|].StreamOpened? { OpenedIsLogged(r.log, h, stream); }
    forall g, x ensures EndCount(s.log, g, x) + Live(s, g, x) == OpenCount(s.log, g, x) <= 1 { BalanceAt(r, g, x); }
  }

  lemma {:induction false} SweepKeepsBalance(r: Registry, order: seq<TunnelId>, now: int)
    requires Balanced(r)
    ensures Balanced(Sweep(r, order, now))
  {
    hide Balanced, Drop;
    if order != [] {
      SweepKeepsBalance(r, order[..|order| - 1], now);
      DropKeepsBalance(Sweep(r, order[..|order| - 1], now), order[|order| - 1], Expired);
    }
  }

  lemma RegisterKeepsBalance(c: Config, r: Registry, device: Device, agent: Sink, now: int)
    requires Balanced(r)
    ensures Balanced(Register(c, r, device, agent, now))
  {
    var s := if device in r.byDevice then Drop(r, r.byDevice[device], AgentGone) else r;
    if device in r.byDevice { DropKeepsBalance(r, r.byDevice[device], AgentGone); }
    assert forall h | h in s.records :: h < s.next;
    hide Drop, Balanced;
    QuietKeepsBalance(s, Register(c, r, device, agent, now));
  }

  lemma CountKeepsBalance(r: Registry, h: nat, bytes: nat)
    requires Balanced(r) && h in r.records
    ensures Balanced(r.(records := r.records[h := r.records[h].(bytes := r.records[h].bytes + bytes)]))
  {
    assert forall g | g in r.records :: g < r.next;
    hide Balanced;
    QuietKeepsBalance(r, r.(records := r.records[h := r.records[h].(bytes := r.records[h].bytes + bytes)]));
  }

  lemma ChargeKeepsBalance(c: Config, r: Registry, h: nat, bytes: nat)
    requires Balanced(r) && h in r.records
    ensures Balanced(Charge(c, r, h, bytes).0)
  {
    hide Balanced, Drop;
    CountKeepsBalance(r, h, bytes);
    DropKeepsBalance(r.(records := r.records[h := r.records[h].(bytes := r.records[h].bytes + bytes)]), r.records[h].id, QuotaExceeded);
  }

  lemma OpenKeepsBalance(c: Config, r: Registry, h: nat, stream: StreamId, browser: Sink)
    requires Balanced(r) && h in r.records && StreamOpened(h, stream) !in r.log
    ensures Balanced(OpenStream(c, r, h, stream, browser).0)
  {
    hide Balanced;
    var s := OpenStream(c, r, h, stream, browser).0;
    if s != r { StreamEntryKeepsBalance(r, s, h, stream); }
  }

  lemma CloseKeepsBalance(r: Registry, h: nat, stream: StreamId)
    requires Balanced(r) && h in r.records
    ensures Balanced(CloseStream(r, h, stream))
  {
    hide Balanced;
    var s := CloseStream(r, h, stream);
    if stream in r.records[h].streams { StreamEntryKeepsBalance(r, s, h, stream); }
  }

  lemma BlockKeepsBalance(r: Registry, h: nat)
    requires Balanced(r) && h in r.records
    ensures Balanced(Block(r, h))
  {
    assert forall g | g in r.records :: g < r.next;
    hide Balanced;
    QuietKeepsBalance(r, Block(r, h));
  }

  lemma ApplyKeepsBalance(c: Config, r: Registry, op: Op)
    requires Balanced(r) && Enabled(r, op)
    ensures Balanced(Apply(c, r, op))
  {
    hide Balanced, Drop, Register, Charge, OpenStream, CloseStream, AttachBrowser, Block, Sweep;
    match op
    case RegisterOp(device, agent, now) => RegisterKeepsBalance(c, r, device, agent, now);
    case GetOp(id, now) => DropKeepsBalance(r, id, Expired);
    case CloseOp(id, reason) => DropKeepsBalance(r, id, reason);
    case ChargeOp(h, bytes) => ChargeKeepsBalance(c, r, h, bytes);
    case SweepOp(order, now) => SweepKeepsBalance(r, order, now);
    case OpenStreamOp(h, stream, browser) => OpenKeepsBalance(c, r, h, stream, browser);
    case CloseStreamOp(h, stream) => CloseKeepsBalance(r, h, stream);
    case AttachOp(h, stream, browser) => AttachKeepsBalance(r, h, stream, browser);
    case BlockOp(h) => BlockKeepsBalance(r, h);
  }

  lemma AttachKeepsBalance(r: Registry, h: nat, stream: StreamId, browser: Sink)
    requires Balanced(r) && h in r.records
    ensures Balanced(AttachBrowser(r, h, stream, browser).0)
  {
    var s := AttachBrowser(r, h, stream, browser).0;
    assert forall g | g in r.records :: g < r.next;
    assert s.records[h].streams.Keys == r.records[h].streams.Keys;
    hide Balanced;
    QuietKeepsBalance(r, s);
  }

  lemma {:induction false} RunsKeepBalance(c: Config, r: Registry, ops: seq<Op>)
    requires Balanced(r) && AllEnabled(c, r, ops)
    ensures Balanced(Exec(c, r, ops))
    decreases |ops|
  {
    hide Balanced, Apply, Enabled;
    if ops != [] {
      ApplyKeepsBalance(c, r, ops[0]);
      RunsKeepBalance(c, Apply(c, r, ops[0]), ops[1..]);
    }
  }

  /** Main result: over every run, each stream's browser is told of its end at most once by the registry, and
    * exactly once by the time the stream is gone. */
  lemma OneTerminalMessage(c: Config, ops: seq<Op>, h: nat, stream: StreamId)
    requires AllEnabled(c, START, ops)
    ensures var r := Exec(c, START, ops);
            && EndCount(r.log, h, stream) <= 1
            && (StreamOpened(h, stream) in r.log ==> EndCount(r.log, h, stream) == 1 - Live(r, h, stream))
  {
    assert Balanced(START);
    RunsKeepBalance(c, START, ops);
    var r := Exec(c, START, ops);
    BalanceAt(r, h, stream);
    hide Exec, Balanced;
    if StreamOpened(h, stream) in r.log { LoggedIsOpened(r.log, h, stream); }
  }

  lemma {:induction false} LoggedIsOpened(log: seq<Entry>, h: nat, stream: StreamId)
    requires StreamOpened(h, stream) in log
    ensures OpenCount(log, h, stream) >= 1
  {
    if log[|log| - 1] != StreamOpened(h, stream) {
      assert log == log[..|log| - 1] + [log[|log| - 1]];
      LoggedIsOpened(log[..|log| - 1], h, stream);
    }
  }

  // ---------------------------------------------------------------------------
  // The byte quota counts what was charged
  // ---------------------------------------------------------------------------

  function ChargedTo(ops: seq<Op>, h: nat): nat {
    if ops == [] then 0 else (if ops[0].ChargeOp? && ops[0].tunnel == h then ops[0].bytes else 0) + ChargedTo(ops[1..], h)
  }

  function BytesOf(r: Registry, h: nat): nat {
    if h in r.records then r.records[h].bytes else 0
  }

  predicate Numbered(r: Registry) {
    forall h | h in r.records :: h < r.next
  }

  lemma DropKeepsBytes(r: Registry, id: TunnelId, reason: Reason)
    ensures var s := Drop(r, id, reason);
            s.records.Keys == r.records.Keys && s.next == r.next && forall h :: BytesOf(s, h) == BytesOf(r, h)
  {
  }

  lemma {:induction false} SweepKeepsBytes(r: Registry, order: seq<TunnelId>, now: int)
    ensures var s := Sweep(r, order, now);
            s.records.Keys == r.records.Keys && s.next == r.next && forall h :: BytesOf(s, h) == BytesOf(r, h)
  {
    hide Drop, BytesOf;
    if order != [] {
      SweepKeepsBytes(r, order[..|order| - 1], now);
      DropKeepsBytes(Sweep(r, order[..|order| - 1], now), order[|order| - 1], Expired);
    }
  }

  lemma StepCharges(c: Config, r: Registry, op: Op, h: nat)
    requires Enabled(r, op) && Numbered(r)
    ensures var s := Apply(c, r, op);
            && Numbered(s) && r.records.Keys <= s.records.Keys
            && BytesOf(s, h) == BytesOf(r, h) + if op.ChargeOp? && op.tunnel == h then op.bytes else 0
  {
    hide Drop, Sweep;
    match op
    case RegisterOp(device, _, _) => if device in r.byDevice { DropKeepsBytes(r, r.byDevice[device], AgentGone); }
    case GetOp(id, _) => DropKeepsBytes(r, id, Expired);
    case CloseOp(id, reason) => DropKeepsBytes(r, id, reason);
    case ChargeOp(g, bytes) =>
      DropKeepsBytes(r.(records := r.records[g := r.records[g].(bytes := r.records[g].bytes + bytes)]), r.records[g].id, QuotaExceeded);
    case SweepOp(order, now) => SweepKeepsBytes(r, order, now);
    case _ =>
  }

  lemma {:induction false} RunsCharge(c: Config, r: Registry, ops: seq<Op>, h: nat)
    requires AllEnabled(c, r, ops) && Numbered(r)
    ensures BytesOf(Exec(c, r, ops), h) == BytesOf(r, h) + ChargedTo(ops, h)
    decreases |ops|
  {
    hide Apply, Enabled, BytesOf, Numbered;
    if ops != [] {
      StepCharges(c, r, ops[0], h);
      RunsCharge(c, Apply(c, r, ops[0]), ops[1..], h);
    }
  }

  /** Main result: over every run, a tunnel's byte count is the sum of what was charged to it, so a tunnel that is still
    * registered has been charged no more than its quota; and the charge that goes over it forgets the tunnel. */
  lemma BytesAreTheCharges(c: Config, ops: seq<Op>, h: nat, bytes: nat)
    requires AllEnabled(c, START, ops) && Injective(c) && h in Exec(c, START, ops).records
    ensures var r := Exec(c, START, ops);
            && r.records[h].bytes == ChargedTo(ops, h)
            && (Registered(r, h) ==> ChargedTo(ops, h) <= c.maxBytes)
            && (Registered(Apply(c, r, ChargeOp(h, bytes)), h) <==> Registered(r, h) && ChargedTo(ops, h) + bytes <= c.maxBytes)
  {
    RunsCharge(c, START, ops, h);
    RunsKeepInv(c, START, ops);
    var r := Exec(c, START, ops);
    hide Exec, AllEnabled, Injective, ChargedTo;
    assert RecordOk(c, r, h);
    ChargeForgets(c, r, h, bytes);
  }

  lemma ChargeForgets(c: Config, r: Registry, h: nat, bytes: nat)
    requires Inv(c, r) && h in r.records
    ensures Registered(Apply(c, r, ChargeOp(h, bytes)), h) <==> Registered(r, h) && r.records[h].bytes + bytes <= c.maxBytes
  {
    if r.records[h].id in r.tunnels { assert IdOk(r, r.records[h].id); }
    hide Inv;
  }

  // ---------------------------------------------------------------------------
  // A replaced agent's late close
  // ---------------------------------------------------------------------------

  /** What the agent socket's close handler runs: it kept the id, not the tunnel. */
  function AgentCloses(r: Registry, id: TunnelId, now: int): Registry {
    Drop(Get(r, id, now).0, id, AgentGone)
  }

  lemma DropSparesOtherIds(r: Registry, id: TunnelId, reason: Reason, g: nat)
    requires g in r.records && Registered(r, g) && (id in r.tunnels ==> r.tunnels[id] in r.records)
    ensures Registered(Drop(r, id, reason), g) <==> r.records[g].id != id
    ensures id !in Drop(r, id, reason).tunnels
    ensures g in Drop(r, id, reason).records && Drop(r, id, reason).records[g].id == r.records[g].id
  {
  }

  lemma SameIdSameEpoch(c: Config, r: Registry, h: nat, g: nat)
    requires Inv(c, r) && Injective(c) && h in r.records && g in r.records && Registered(r, g) && r.records[h].device == r.records[g].device
    ensures r.records[h].id == r.records[g].id <==> r.records[h].epoch == EpochOf(r, r.records[h].device)
    ensures r.records[h].id in r.tunnels ==> r.tunnels[r.records[h].id] in r.records
  {
    assert RecordOk(c, r, h) && RecordOk(c, r, g);
    if r.records[h].id in r.tunnels { assert IdOk(r, r.records[h].id); }
  }

  /** Main result: `h` is a tunnel its device replaced with `g`. The old socket's close goes by id; it spares
    * the new tunnel exactly when the device was revoked in between, because only that changes the id. */
  lemma LateCloseSparesSuccessorIff(c: Config, r: Registry, h: nat, g: nat, now: int)
    requires Inv(c, r) && Injective(c) && h in r.records && g in r.records && h != g
    requires Registered(r, g) && r.records[h].device == r.records[g].device
    ensures Registered(AgentCloses(r, r.records[h].id, now), g) <==> r.records[h].epoch != EpochOf(r, r.records[h].device)
  {
    hide Drop, Inv, Injective, EpochOf;
    SameIdSameEpoch(c, r, h, g);
    var id := r.records[h].id;
    DropSparesOtherIds(r, id, Expired, g);
    DropSparesOtherIds(r, id, AgentGone, g);
    hide Registered;
    if id in r.tunnels && r.records[r.tunnels[id]].expiresAt <= now { DropAgain(r, id); }
  }

  lemma DropAgain(r: Registry, id: TunnelId)
    ensures (id in r.tunnels ==> r.tunnels[id] in r.records) ==> Drop(Drop(r, id, Expired), id, AgentGone) == Drop(r, id, Expired)
  {
  }

  /** The same of a browser socket still charging the old record: over quota it drops whatever has the id. */
  lemma LateChargeSparesSuccessorIff(c: Config, r: Registry, h: nat, g: nat, bytes: nat)
    requires Inv(c, r) && Injective(c) && h in r.records && g in r.records && h != g
    requires Registered(r, g) && r.records[h].device == r.records[g].device && r.records[h].bytes + bytes > c.maxBytes
    ensures Registered(Charge(c, r, h, bytes).0, g) <==> r.records[h].epoch != EpochOf(r, r.records[h].device)
  {
    hide Drop, Inv, Injective, EpochOf;
    SameIdSameEpoch(c, r, h, g);
    var s := r.(records := r.records[h := r.records[h].(bytes := r.records[h].bytes + bytes)]);
    assert Registered(s, g);
    DropSparesOtherIds(s, r.records[h].id, QuotaExceeded, g);
  }

  lemma Prepend(c: Config, r: Registry, op: Op, rest: seq<Op>)
    requires Enabled(r, op) && AllEnabled(c, Apply(c, r, op), rest)
    ensures AllEnabled(c, r, [op] + rest) && Exec(c, r, [op] + rest) == Exec(c, Apply(c, r, op), rest)
  {
    hide Apply, Enabled;
    assert ([op] + rest)[1..] == rest;
  }

  /** A device whose agent came back: tunnel 0 was replaced by tunnel 1, under the same id. */
  lemma ReconnectedRun(c: Config, device: Device, first: Sink, second: Sink, now: int, later: int)
    ensures var ops := [RegisterOp(device, first, now), RegisterOp(device, second, later)];
            && AllEnabled(c, START, ops)
            && var r := Exec(c, START, ops);
               && r.records.Keys == {0, 1} && Registered(r, 1) && !Registered(r, 0)
               && r.records[0].device == r.records[1].device == device && r.records[0].id == r.records[1].id
               && r.records[0].bytes == r.records[1].bytes == 0 && r.records[1].expiresAt == later + c.maxMinutes * 60000
  {
    var r1 := Apply(c, START, RegisterOp(device, first, now));
    assert r1.records.Keys == {0} && r1.next == 1 && r1.byDevice == map[device := c.derive(device, 0)];
    var r2 := Apply(c, r1, RegisterOp(device, second, later));
    assert r2.records.Keys == {0, 1};
    Prepend(c, r1, RegisterOp(device, second, later), []);
    Prepend(c, START, RegisterOp(device, first, now), [RegisterOp(device, second, later)]);
  }

  /** The run that shows it: an agent reconnects, then its first socket's close arrives. The new tunnel, which
    * has time left, is gone. */
  lemma LateCloseDropsSuccessor(c: Config, device: Device, first: Sink, second: Sink, now: int, later: int)
    requires c.maxMinutes > 0
    ensures var ops := [RegisterOp(device, first, now), RegisterOp(device, second, later)];
            && AllEnabled(c, START, ops)
            && var r := Exec(c, START, ops);
               Registered(r, 1) && r.records[1].expiresAt > later && 0 in r.records && !Registered(AgentCloses(r, r.records[0].id, later), 1)
  {
    ReconnectedRun(c, device, first, second, now, later);
  }

  /** The same run, and a browser that still charges the first tunnel: over quota, it drops the new one, which
    * has carried nothing. */
  lemma LateChargeDropsSuccessor(c: Config, device: Device, first: Sink, second: Sink, now: int, later: int)
    ensures var ops := [RegisterOp(device, first, now), RegisterOp(device, second, later)];
            && AllEnabled(c, START, ops)
            && var r := Exec(c, START, ops);
               && Registered(r, 1) && r.records[1].bytes == 0 && Enabled(r, ChargeOp(0, c.maxBytes + 1))
               && !Registered(Apply(c, r, ChargeOp(0, c.maxBytes + 1)), 1)
  {
    ReconnectedRun(c, device, first, second, now, later);
    var r := Exec(c, START, [RegisterOp(device, first, now), RegisterOp(device, second, later)]);
    hide Exec, AllEnabled;
    var id := r.records[0].id;
    var s := r.(records := r.records[0 := r.records[0].(bytes := c.maxBytes + 1)]);
    assert s.records[0].id == id && s.tunnels[id] == 1;
    assert Charge(c, r, 0, c.maxBytes + 1).0 == Drop(s, id, QuotaExceeded);
    DropSparesOtherIds(s, id, QuotaExceeded, 1);
  }

  /** The other side: revoked in between, the device comes back under a new id, and both late callbacks spare it. */
  lemma RevocationSparesSuccessor(c: Config, device: Device, first: Sink, second: Sink, now: int, later: int)
    requires Injective(c)
    ensures var ops := [RegisterOp(device, first, now), CloseOp(c.derive(device, 0), Revoked), RegisterOp(device, second, later)];
            && AllEnabled(c, START, ops)
            && var r := Exec(c, START, ops);
               && Registered(r, 1) && 0 in r.records && r.records[0].device == r.records[1].device
               && Registered(AgentCloses(r, r.records[0].id, later), 1)
               && Registered(Charge(c, r, 0, c.maxBytes + 1).0, 1)
  {
    var r1 := Apply(c, START, RegisterOp(device, first, now));
    assert r1.records.Keys == {0} && r1.next == 1 && r1.byDevice == map[device := c.derive(device, 0)];
    var r2 := Apply(c, r1, CloseOp(c.derive(device, 0), Revoked));
    assert r2.records.Keys == {0} && r2.tunnels == map[] && r2.byDevice == map[] && EpochOf(r2, device) == 1;
    var r3 := Apply(c, r2, RegisterOp(device, second, later));
    assert r3.records.Keys == {0, 1};
    assert c.derive(device, 0) != c.derive(device, 1);
    Prepend(c, r2, RegisterOp(device, second, later), []);
    Prepend(c, r1, CloseOp(c.derive(device, 0), Revoked), [RegisterOp(device, second, later)]);
    Prepend(c, START, RegisterOp(device, first, now), [CloseOp(c.derive(device, 0), Revoked), RegisterOp(device, second, later)]);
  }
}

/** `createTunnelRegistry` as it is written: maps changed in place. Tunnel records are held by value. */
module TunnelRegistryObjects {
  import opened Options
  import opened TunnelRegistry

  class RegistryObject {
    const config: Config
    var records: map<nat, Tunnel>
    var next: nat
    var tunnels: map<TunnelId, nat>
    var byDevice: map<Device, TunnelId>
    var epochs: map<Device, nat>
    var log: seq<Entry>

    ghost function View(): Registry
      reads this
    {
      Registry(records, next, tunnels, byDevice, epochs, log)
    }

    constructor (config: Config)
      ensures this.config == config && View() == START
    {
      this.config := config;
      records, next, tunnels, byDevice, epochs, log := map[], 0, map[], map[], map[], [];
    }

    /** Tells every stream's browser and the agent, all in one entry, then forgets the tunnel. */
    method Close(id: TunnelId, reason: Reason)
      modifies this
      ensures View() == Drop(old(View()), id, reason)
    {
      if id !in tunnels || tunnels[id] !in records { return; }
      var h := tunnels[id];
      var tunnel := records[h];
      records := records[h := tunnel.(streams := map[])];
      log := log + [TunnelClosed(h, tunnel.device, tunnel.streams, reason)];
      tunnels := tunnels - {id};
      if tunnel.device in byDevice && byDevice[tunnel.device] == id { byDevice := byDevice - {tunnel.device}; }
      if reason.Revoked? {
        epochs := epochs[tunnel.device := (if tunnel.device in epochs then epochs[tunnel.device] else 0) + 1];
      }
    }

    method RegisterAgent(device: Device, agent: Sink, now: int) returns (tunnel: nat)
      modifies this
      ensures View() == Register(config, old(View()), device, agent, now)
      ensures tunnel + 1 == next
    {
      hide Drop;
      if device in byDevice { Close(byDevice[device], AgentGone); }
      var epoch := if device in epochs then epochs[device] else 0;
      var id := config.derive(device, epoch);
      tunnel := next;
      records := records[tunnel := Tunnel(id, device, epoch, now + config.maxMinutes * 60000, 0, false, agent, map[])];
      next := next + 1;
      tunnels := tunnels[id := tunnel];
      byDevice := byDevice[device := id];
    }

    method Lookup(id: TunnelId, now: int) returns (found: Option<nat>)
      modifies this
      ensures (View(), found) == Get(old(View()), id, now)
    {
      hide Drop;
      if id !in tunnels || tunnels[id] !in records { return None; }
      if records[tunnels[id]].expiresAt <= now {
        Close(id, Expired);
        return None;
      }
      found := Some(tunnels[id]);
    }

    method Open(tunnel: nat, stream: StreamId, browser: Sink) returns (carried: bool)
      requires tunnel in records
      modifies this
      ensures (View(), carried) == OpenStream(config, old(View()), tunnel, stream, browser)
    {
      var t := records[tunnel];
      if t.blocked { return false; }
      if |t.streams| >= config.maxStreams { return false; }
      records := records[tunnel := t.(streams := t.streams[stream := Some(browser)])];
      log := log + [StreamOpened(tunnel, stream)];
      carried := true;
    }

    method Attach(tunnel: nat, stream: StreamId, browser: Sink) returns (attached: bool)
      requires tunnel in records
      modifies this
      ensures (View(), attached) == AttachBrowser(old(View()), tunnel, stream, browser)
    {
      var t := records[tunnel];
      if stream !in t.streams { return false; }
      records := records[tunnel := t.(streams := t.streams[stream := Some(browser)])];
      attached := true;
    }

    method CloseOne(tunnel: nat, stream: StreamId)
      requires tunnel in records
      modifies this
      ensures View() == CloseStream(old(View()), tunnel, stream)
    {
      var t := records[tunnel];
      if stream !in t.streams { return; }
      records := records[tunnel := t.(streams := t.streams - {stream})];
      log := log + [StreamClosed(tunnel, stream, t.streams[stream])];
    }

    method ChargeBytes(tunnel: nat, bytes: nat) returns (within: bool)
      requires tunnel in records
      modifies this
      ensures (View(), within) == Charge(config, old(View()), tunnel, bytes)
    {
      hide Drop;
      var t := records[tunnel];
      records := records[tunnel := t.(bytes := t.bytes + bytes)];
      if t.bytes + bytes > config.maxBytes {
        Close(t.id, QuotaExceeded);
        return false;
      }
      within := true;
    }

    /** Walks the map in the order given. */
    method SweepExpired(order: seq<TunnelId>, now: int)
      modifies this
      ensures View() == Sweep(old(View()), order, now)
    {
      hide Drop;
      for i := 0 to |order|
        invariant View() == Sweep(old(View()), order[..i], now)
      {
        assert order[..i + 1][..i] == order[..i];
        var id := order[i];
        if id in tunnels && tunnels[id] in records && records[tunnels[id]].expiresAt <= now { Close(id, Expired); }
      }
      assert order[..|order|] == order;
    }
  }
}
