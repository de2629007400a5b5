/** What each operation on the tunnel registry must bring about (apps/api/src/tunnel.ts). */
module TunnelRegistryLaws {
  import opened Options
  import opened TunnelRegistry

  /** The tunnel is over: nobody reaches it, every browser it carried is told why, and everything else is as it was. */
  predicate Ended(r: Registry, t: Registry, h: nat, reason: Reason)
    requires h in r.records
  {
    && t.records == r.records[h := r.records[h].(streams := map[])]
    && t.tunnels == r.tunnels - {r.records[h].id} && t.byDevice == r.byDevice - {r.records[h].device}
    && t.log == r.log + [TunnelClosed(h, r.records[h].device, r.records[h].streams, reason)]
  }

  /** Closing by id ends the tunnel it names, and rotates the device's id only when it was revoked. */
  lemma ClosingEnds(c: Config, r: Registry, id: TunnelId, reason: Reason)
    requires Inv(c, r)
    ensures var t := Drop(r, id, reason);
            && (id !in r.tunnels ==> t == r)
            && (id in r.tunnels ==>
                  && r.tunnels[id] in r.records && Ended(r, t, r.tunnels[id], reason)
                  && var device := r.records[r.tunnels[id]].device;
                     t.epochs == if reason.Revoked? then r.epochs[device := EpochOf(r, device) + 1] else r.epochs)
  {
    if id in r.tunnels { assert IdOk(r, id); }
    hide Inv;
  }

  /** A registering agent gets a new, empty tunnel under its device's id, and the one it had is ended. */
  lemma RegisteringServes(c: Config, r: Registry, device: Device, agent: Sink, now: int)
    requires Inv(c, r) && r.next !in r.records
    ensures var t := Register(c, r, device, agent, now);
            && r.next in t.records && t.next == r.next + 1 && Registered(t, r.next)
            && t.records[r.next] == Tunnel(c.derive(device, EpochOf(r, device)), device, EpochOf(r, device), now + c.maxMinutes * 60000, 0, false, agent, map[])
            && device in t.byDevice && t.byDevice[device] == t.records[r.next].id && t.epochs == r.epochs
            && (device !in r.byDevice ==> t.log == r.log)
            && (device in r.byDevice ==>
                  && r.byDevice[device] in r.tunnels && r.tunnels[r.byDevice[device]] in r.records
                  && var was := r.tunnels[r.byDevice[device]];
                     t.records[was] == r.records[was].(streams := map[]) && t.log == r.log + [TunnelClosed(was, device, r.records[was].streams, AgentGone)])
  {
    var s := if device in r.byDevice then Drop(r, r.byDevice[device], AgentGone) else r;
    if device in r.byDevice {
      assert DeviceOk(r, device);
      ClosingEnds(c, r, r.byDevice[device], AgentGone);
    }
    hide Inv, Drop;
    assert s.epochs == r.epochs && s.next == r.next && Register(c, r, device, agent, now) == Enter(c, s, device, agent, now);
    hide Register;
    EnteringServes(c, s, device, agent, now);
    hide Enter;
  }

  lemma EnteringServes(c: Config, s: Registry, device: Device, agent: Sink, now: int)
    ensures var t := Enter(c, s, device, agent, now);
            && s.next in t.records && t.records == s.records[s.next := t.records[s.next]] && t.next == s.next + 1 && Registered(t, s.next)
            && t.records[s.next] == Tunnel(c.derive(device, EpochOf(s, device)), device, EpochOf(s, device), now + c.maxMinutes * 60000, 0, false, agent, map[])
            && device in t.byDevice && t.byDevice[device] == t.records[s.next].id && t.epochs == s.epochs && t.log == s.log
  {
  }

  /** An id answers with its tunnel exactly while the tunnel has time left; one that has run out is ended. */
  lemma LookingUpAnswers(c: Config, r: Registry, id: TunnelId, now: int)
    requires Inv(c, r)
    ensures var (t, found) := Get(r, id, now);
            && (id !in r.tunnels ==> t == r && found.None?)
            && (id in r.tunnels ==>
                  && r.tunnels[id] in r.records
                  && (now < r.records[r.tunnels[id]].expiresAt ==> t == r && found == Some(r.tunnels[id]))
                  && (r.records[r.tunnels[id]].expiresAt <= now ==> found.None? && Ended(r, t, r.tunnels[id], Expired)))
  {
    ClosingEnds(c, r, id, Expired);
    if id in r.tunnels { assert IdOk(r, id); }
    hide Inv, Drop;
  }

  /** A stream opens exactly when the tunnel is not blocked and has room, and then carries its browser. */
  lemma OpeningCarries(c: Config, r: Registry, h: nat, stream: StreamId, browser: Sink)
    requires h in r.records
    ensures var (t, carried) := OpenStream(c, r, h, stream, browser);
            && (carried <==> !r.records[h].blocked && |r.records[h].streams| < c.maxStreams)
            && (carried ==>
                  && t.records == r.records[h := r.records[h].(streams := r.records[h].streams[stream := Some(browser)])]
                  && t.log == r.log + [StreamOpened(h, stream)] && t.tunnels == r.tunnels)
            && (!carried ==> t == r)
  {
  }

  /** A charge is answered yes exactly while the tunnel stays within its quota; a blocked tunnel opens no stream. */
  lemma ChargingAnswers(c: Config, r: Registry, h: nat, bytes: nat, stream: StreamId, browser: Sink)
    requires h in r.records
    ensures var (t, within) := Charge(c, r, h, bytes);
            && (within <==> r.records[h].bytes + bytes <= c.maxBytes) && t == Apply(c, r, ChargeOp(h, bytes))
            && (within ==> t == r.(records := r.records[h := r.records[h].(bytes := r.records[h].bytes + bytes)]))
            && (!within ==> r.records[h].id !in t.tunnels || t.tunnels[r.records[h].id] !in r.records)
    ensures var t := Apply(c, r, BlockOp(h));
            && h in t.records && t.records == r.records[h := t.records[h]] && t.tunnels == r.tunnels && t.log == r.log
            && t.records[h].bytes == r.records[h].bytes && t.records[h].streams == r.records[h].streams
            && OpenStream(c, t, h, stream, browser) == (t, false)
  {
  }

  /** A stream that is there closes once, its browser told; a browser takes over only a stream that is there. */
  lemma ClosingAndAttaching(r: Registry, h: nat, stream: StreamId, browser: Sink)
    requires h in r.records
    ensures var t := CloseStream(r, h, stream);
            && (stream in r.records[h].streams ==>
                  && t.log == r.log + [StreamClosed(h, stream, r.records[h].streams[stream])]
                  && t.records == r.records[h := r.records[h].(streams := r.records[h].streams - {stream})])
            && (stream !in r.records[h].streams ==> t == r)
    ensures var (t, attached) := AttachBrowser(r, h, stream, browser);
            && (attached <==> stream in r.records[h].streams)
            && (attached ==> t == r.(records := r.records[h := r.records[h].(streams := r.records[h].streams[stream := Some(browser)])]))
            && (!attached ==> t == r)
  {
  }

  /** While the sweep has walked part of the ids: what has run out among them is gone, nothing else is. */
  predicate SweptAt(r: Registry, t: Registry, walked: seq<TunnelId>, now: int, h: nat)
    requires h in r.records
  {
    && h in t.records && t.records[h].id == r.records[h].id && t.records[h].expiresAt == r.records[h].expiresAt
    && (Registered(t, h) <==> Registered(r, h) && !(r.records[h].id in walked && r.records[h].expiresAt <= now))
  }

  predicate Swept(r: Registry, t: Registry, walked: seq<TunnelId>, now: int) {
    forall h | h in r.records :: SweptAt(r, t, walked, now, h)
  }

  lemma DropUnregisters(r: Registry, id: TunnelId, h: nat)
    requires id in r.tunnels && r.tunnels[id] in r.records && h in r.records
    ensures var t := Drop(r, id, Expired);
            && t.records.Keys == r.records.Keys && t.records[h].id == r.records[h].id && t.records[h].expiresAt == r.records[h].expiresAt
            && (Registered(t, h) <==> Registered(r, h) && r.records[h].id != id)
  {
  }

  function SweepOne(s: Registry, id: TunnelId, now: int): Registry {
    if id in s.tunnels && s.tunnels[id] in s.records && s.records[s.tunnels[id]].expiresAt <= now then Drop(s, id, Expired) else s
  }

  lemma OneMoreAt(c: Config, r: Registry, s: Registry, walked: seq<TunnelId>, id: TunnelId, now: int, h: nat)
    requires Inv(c, s) && h in r.records && SweptAt(r, s, walked, now, h)
    ensures SweptAt(r, SweepOne(s, id, now), walked + [id], now, h)
  {
    hide Drop, Inv;
    assert r.records[h].id in walked + [id] <==> r.records[h].id in walked || r.records[h].id == id;
    if id in s.tunnels {
      TunnelOfId(c, s, id);
      DropUnregisters(s, id, h);
    }
  }

  lemma TunnelOfId(c: Config, s: Registry, id: TunnelId)
    requires Inv(c, s) && id in s.tunnels
    ensures s.tunnels[id] in s.records && s.records[s.tunnels[id]].id == id
  {
    assert IdOk(s, id);
  }

  lemma OneMoreSwept(c: Config, r: Registry, s: Registry, walked: seq<TunnelId>, id: TunnelId, now: int)
    requires Inv(c, s) && Swept(r, s, walked, now)
    ensures Swept(r, SweepOne(s, id, now), walked + [id], now)
  {
    hide Inv, SweptAt, SweepOne;
    forall h | h in r.records ensures SweptAt(r, SweepOne(s, id, now), walked + [id], now, h) {
      assert SweptAt(r, s, walked, now, h);
      OneMoreAt(c, r, s, walked, id, now, h);
    }
  }

  lemma {:induction false} SweepWalks(c: Config, r: Registry, order: seq<TunnelId>, now: int)
    requires Inv(c, r)
    ensures Swept(r, Sweep(r, order, now), order, now)
  {
    if order == [] {
      hide Registered;
    } else {
      var before := order[..|order| - 1];
      SweepWalks(c, r, before, now);
      SweepKeepsInv(c, r, before, now);
      hide Inv, Drop, Swept;
      OneMoreSwept(c, r, Sweep(r, before, now), before, order[|order| - 1], now);
      assert before + [order[|order| - 1]] == order;
    }
  }

  /** Main result: after a sweep that walked every registered id, the registered tunnels are exactly those that were and have
    * time left. */
  lemma SweepForgetsExactlyTheExpired(c: Config, r: Registry, order: seq<TunnelId>, now: int, h: nat)
    requires Inv(c, r) && (forall id | id in r.tunnels :: id in order) && h in r.records
    ensures Registered(Sweep(r, order, now), h) <==> Registered(r, h) && now < r.records[h].expiresAt
  {
    SweepWalks(c, r, order, now);
    assert SweptAt(r, Sweep(r, order, now), order, now, h);
    hide Inv, Sweep;
  }
}
