/**
  vsSoundSystem's bookkeeping: a fixed table of deferred samples, each
  waiting for its fuse to burn down, and the count of mixer channels in use
  with its high-water mark.

  Samples are compared by identity, a type parameter here. The mixer's
  choice of channel is an input: each call to PlaySound is told which
  channel the mixer returned (-1 when none was free).
 */
module SoundSystem {
  import opened Wrappers

  /** One deferred-sample slot; an empty slot keeps its stale fuse. */
  datatype Slot<S> = Slot(sample: Option<S>, fuse: real)

  datatype System<S> = System(slots: seq<Slot<S>>, channelsInUse: int, maxChannelsInUse: int)

  /** The constructor's counters: no channel in use yet. */
  function NewSystem<S>(slots: seq<Slot<S>>): (r: System<S>)
    ensures r.slots == slots && r.channelsInUse == 0 && r.maxChannelsInUse == 0
  {
    System(slots, 0, 0)
  }

  predicate Empty<S>(slot: Slot<S>) { slot.sample.None? }

  /** Init: every deferred slot is emptied. */
  function Init<S>(sys: System<S>): (r: System<S>)
    ensures |r.slots| == |sys.slots|
    ensures forall i :: 0 <= i < |r.slots| ==> Empty(r.slots[i]) && r.slots[i].fuse == sys.slots[i].fuse
    ensures r.channelsInUse == sys.channelsInUse && r.maxChannelsInUse == sys.maxChannelsInUse
  {
    sys.(slots := seq(|sys.slots|, i requires 0 <= i < |sys.slots| => sys.slots[i].(sample := None)))
  }

  // ---------------------------------------------------------------------------
  // Deferred samples

  /** The index of the first empty slot at or after `from`, if any. */
  function FirstEmpty<S>(slots: seq<Slot<S>>, from: nat): (r: Option<nat>)
    requires from <= |slots|
    ensures r.None? <==> forall i :: from <= i < |slots| ==> !Empty(slots[i])
    ensures r.Some? ==>
      from <= r.value < |slots| && Empty(slots[r.value])
      && forall i :: from <= i < r.value ==> !Empty(slots[i])
    decreases |slots| - from
  {
    if from == |slots| then None
    else if Empty(slots[from]) then Some(from)
    else FirstEmpty(slots, from + 1)
  }

  /** PlaySoundDeferred: the sample and its fuse go into the first empty
      slot; when every slot is occupied the request is dropped. */
  function PlaySoundDeferred<S>(sys: System<S>, sound: S, fuse: real): (r: System<S>)
    ensures r.channelsInUse == sys.channelsInUse && r.maxChannelsInUse == sys.maxChannelsInUse
    ensures |r.slots| == |sys.slots|
    ensures (forall i :: 0 <= i < |sys.slots| ==> !Empty(sys.slots[i])) ==> r == sys
    ensures forall k :: 0 <= k < |sys.slots| && Empty(sys.slots[k])
                        && (forall i :: 0 <= i < k ==> !Empty(sys.slots[i])) ==>
      && r.slots[k] == Slot(Some(sound), fuse)
      && forall i :: 0 <= i < |sys.slots| && i != k ==> r.slots[i] == sys.slots[i]
  {
    match FirstEmpty(sys.slots, 0)
    case None => sys
    case Some(k) => sys.(slots := sys.slots[k := Slot(Some(sound), fuse)])
  }

  /** CancelDeferredSounds: exactly the slots holding `sound` are emptied. */
  function CancelDeferredSounds<S(==)>(sys: System<S>, sound: S): (r: System<S>)
    ensures r.channelsInUse == sys.channelsInUse && r.maxChannelsInUse == sys.maxChannelsInUse
    ensures |r.slots| == |sys.slots|
    ensures forall i :: 0 <= i < |sys.slots| ==>
      && r.slots[i].fuse == sys.slots[i].fuse
      && (sys.slots[i].sample == Some(sound) ==> Empty(r.slots[i]))
      && (sys.slots[i].sample != Some(sound) ==> r.slots[i] == sys.slots[i])
  {
    sys.(slots := seq(|sys.slots|, i requires 0 <= i < |sys.slots| =>
      if sys.slots[i].sample == Some(sound) then sys.slots[i].(sample := None) else sys.slots[i]))
  }

  /** One slot's part of Update: an occupied slot's fuse burns down by the
      time step and, once it is at or below zero, the sample fires and the
      slot empties. An empty slot is untouched. */
  function SlotStep<S>(slot: Slot<S>, dt: real): (r: (Slot<S>, Option<S>))
    ensures Empty(slot) ==> r == (slot, None)
    ensures !Empty(slot) ==> r.0.fuse == slot.fuse - dt
    ensures !Empty(slot) ==> (r.1.Some? <==> slot.fuse - dt <= 0.0)
    ensures r.1.Some? ==> r.1 == slot.sample && Empty(r.0)
    ensures r.1.None? && !Empty(slot) ==> r.0.sample == slot.sample
  {
    match slot.sample
    case None => (slot, None)
    case Some(s) =>
      var burnt := slot.fuse - dt;
      if burnt <= 0.0 then (Slot(None, burnt), Some(s)) else (Slot(slot.sample, burnt), None)
  }

  /** The samples the slots of `slots` fire, in slot order. */
  function Fired<S>(slots: seq<Slot<S>>, dt: real): (r: seq<S>)
    ensures |r| <= |slots|
  {
    if |slots| == 0 then []
    else
      match SlotStep(slots[0], dt).1
      case None => Fired(slots[1..], dt)
      case Some(s) => [s] + Fired(slots[1..], dt)
  }

  /** PlaySound's bookkeeping for the channel the mixer returned: a started
      sound (a channel other than -1) adds one channel in use and raises the
      high-water mark to it; a failed start changes nothing. The channel is
      returned to the caller. */
  function PlaySound<S>(sys: System<S>, channel: int): (r: (System<S>, int))
    ensures r.1 == channel && r.0.slots == sys.slots
    ensures channel == -1 ==> r.0 == sys
    ensures channel != -1 ==> r.0.channelsInUse == sys.channelsInUse + 1
    ensures channel != -1 ==>
      r.0.maxChannelsInUse >= r.0.channelsInUse && r.0.maxChannelsInUse >= sys.maxChannelsInUse
      && (r.0.maxChannelsInUse == r.0.channelsInUse || r.0.maxChannelsInUse == sys.maxChannelsInUse)
  {
    if channel == -1 then (sys, channel)
    else
      var inUse := sys.channelsInUse + 1;
      (sys.(channelsInUse := inUse,
            maxChannelsInUse := if inUse > sys.maxChannelsInUse then inUse else sys.maxChannelsInUse),
       channel)
  }

  /** Update: every slot steps in order; each fired sample is played on the
      channel the mixer gives it (`channels[j]` for the j-th fired sample).
      The samples played are returned alongside the new system: exactly the
      samples of the occupied slots whose fuse reached zero, in slot order. */
  function Update<S>(sys: System<S>, dt: real, channels: seq<int>): (r: (System<S>, seq<S>))
    requires |channels| == |Fired(sys.slots, dt)|
    ensures |r.0.slots| == |sys.slots|
    ensures forall i :: 0 <= i < |sys.slots| ==> r.0.slots[i] == SlotStep(sys.slots[i], dt).0
    ensures r.1 == Burnt(sys.slots, dt) && |r.1| == |channels|
    ensures r.0.channelsInUse == sys.channelsInUse + Starts(channels)
    ensures r.0.maxChannelsInUse ==
      if Starts(channels) == 0 then sys.maxChannelsInUse else Max(sys.maxChannelsInUse, r.0.channelsInUse)
    ensures CountersOk(sys) ==> CountersOk(r.0)
  {
    FiredExactly(sys.slots, dt);
    var stepped := seq(|sys.slots|, i requires 0 <= i < |sys.slots| => SlotStep(sys.slots[i], dt).0);
    (PlayAll(sys.(slots := stepped), channels), Fired(sys.slots, dt))
  }

  function Max(a: int, b: int): int
  {
    if a > b then a else b
  }

  /** The number of channels in `channels` that started a sound. */
  function Starts(channels: seq<int>): nat
  {
    if |channels| == 0 then 0 else (if channels[0] != -1 then 1 else 0) + Starts(channels[1..])
  }

  /** PlaySound for each channel in turn: every started sound adds a channel
      in use, and since the count only climbs, the high-water mark ends at
      the larger of its start and the final count. */
  function PlayAll<S>(sys: System<S>, channels: seq<int>): (r: System<S>)
    ensures r.slots == sys.slots
    ensures r.channelsInUse == sys.channelsInUse + Starts(channels)
    ensures r.maxChannelsInUse ==
      if Starts(channels) == 0 then sys.maxChannelsInUse else Max(sys.maxChannelsInUse, r.channelsInUse)
    decreases |channels|
  {
    if |channels| == 0 then sys else PlayAll(PlaySound(sys, channels[0]).0, channels[1..])
  }

  /** ChannelFinished: the mixer's callback gives one channel back. */
  function ChannelFinished<S>(sys: System<S>): (r: System<S>)
    ensures r.channelsInUse == sys.channelsInUse - 1
    ensures r.slots == sys.slots && r.maxChannelsInUse == sys.maxChannelsInUse
  {
    sys.(channelsInUse := sys.channelsInUse - 1)
  }

  const FadeOutMilliseconds: nat := 500

  /** The mixer call StopChannel makes. */
  datatype FadeOut = FadeOut(channel: int, milliseconds: nat)

  /** StopChannel: channel -1 (a sound that never started) is ignored;
      any other channel fades out over half a second. */
  function StopChannel(channel: int): (r: Option<FadeOut>)
    ensures r.None? <==> channel == -1
    ensures r.Some? ==> r.value.channel == channel && r.value.milliseconds == FadeOutMilliseconds
  {
    if channel == -1 then None else Some(FadeOut(channel, FadeOutMilliseconds))
  }

  // ---------------------------------------------------------------------------
  // Properties

  /** What Update does to one slot, and which samples it plays: the fired
      list is exactly the samples of the slots whose fuse reached zero, in
      slot order. */
  lemma {:induction false} FiredExactly<S>(slots: seq<Slot<S>>, dt: real)
    ensures Fired(slots, dt) == Burnt(slots, dt)
    decreases |slots|
  {
    if |slots| > 0 {
      FiredExactly(slots[1..], dt);
    }
  }

  /** Reference definition: the samples of the occupied slots whose fuse is
      at or below zero after the step. */
  function Burnt<S>(slots: seq<Slot<S>>, dt: real): seq<S>
  {
    if |slots| == 0 then []
    else if slots[0].sample.Some? && slots[0].fuse - dt <= 0.0 then [slots[0].sample.value] + Burnt(slots[1..], dt)
    else Burnt(slots[1..], dt)
  }

  /** Update never fills a slot: a slot empty before is empty after, and an
      occupied slot keeps its sample unless it fired. */
  lemma UpdateSlots<S>(sys: System<S>, dt: real, channels: seq<int>, i: nat)
    requires |channels| == |Fired(sys.slots, dt)| && i < |sys.slots|
    ensures var r := Update(sys, dt, channels).0.slots[i];
      && (Empty(sys.slots[i]) ==> r == sys.slots[i])
      && (!Empty(sys.slots[i]) ==>
            r.fuse == sys.slots[i].fuse - dt
            && (Empty(r) <==> sys.slots[i].fuse - dt <= 0.0)
            && (!Empty(r) ==> r.sample == sys.slots[i].sample))
  {
  }

  /** The slot's fuse after a run of updates, while it has not fired. */
  function Sum(dts: seq<real>): real
  {
    if |dts| == 0 then 0.0 else Sum(dts[..|dts| - 1]) + dts[|dts| - 1]
  }

  /** A slot through several updates. */
  function Steps<S>(slot: Slot<S>, dts: seq<real>): Slot<S>
    decreases |dts|
  {
    if |dts| == 0 then slot else SlotStep(Steps(slot, dts[..|dts| - 1]), dts[|dts| - 1]).0
  }

  /** A deferred sample with fuse f survives a run of updates exactly when
      every running total of the time steps stays below f; its fuse is then
      f minus the total. */
  lemma {:induction false} FuseBurnsDown<S>(slot: Slot<S>, dts: seq<real>)
    requires !Empty(slot)
    ensures !Empty(Steps(slot, dts)) <==> forall k :: 0 < k <= |dts| ==> Sum(dts[..k]) < slot.fuse
    ensures !Empty(Steps(slot, dts)) ==>
      Steps(slot, dts).fuse == slot.fuse - Sum(dts) && Steps(slot, dts).sample == slot.sample
    decreases |dts|
  {
    if |dts| > 0 {
      var n := |dts|;
      var pre := dts[..n - 1];
      FuseBurnsDown(slot, pre);
      assert forall k :: 0 < k <= n - 1 ==> pre[..k] == dts[..k];
      assert dts[..n] == dts;
      if Empty(Steps(slot, pre)) {
        assert Sum(pre[..n - 1]) >= slot.fuse || exists k :: 0 < k <= n - 1 && Sum(pre[..k]) >= slot.fuse;
      }
    }
  }

  /** The high-water mark never falls below the channels in use. */
  predicate CountersOk<S>(sys: System<S>)
  {
    sys.maxChannelsInUse >= sys.channelsInUse
  }

  /** The mixer events that move the counters. */
  datatype Event = Played(channel: int) | Finished

  function Apply<S>(sys: System<S>, e: Event): System<S>
  {
    match e
    case Played(c) => PlaySound(sys, c).0
    case Finished => ChannelFinished(sys)
  }

  function ApplyAll<S>(sys: System<S>, es: seq<Event>): System<S>
    decreases |es|
  {
    if |es| == 0 then sys else ApplyAll(Apply(sys, es[0]), es[1..])
  }

  /** The channels in use after each event, in order. */
  function InUseTrace<S>(sys: System<S>, es: seq<Event>): (r: seq<int>)
    ensures |r| == |es|
    decreases |es|
  {
    if |es| == 0 then []
    else
      var next := Apply(sys, es[0]);
      [next.channelsInUse] + InUseTrace(next, es[1..])
  }

  function MaxOf(start: int, xs: seq<int>): (r: int)
    decreases |xs|
  {
    if |xs| == 0 then start
    else
      var rest := MaxOf(start, xs[1..]);
      if xs[0] > rest then xs[0] else rest
  }

  /** The counters keep their invariant through any run of events, and the
      high-water mark after the run is the larger of its start and the peak
      number of channels in use along the way. */
  lemma {:induction false} HighWaterIsPeak<S>(sys: System<S>, es: seq<Event>)
    requires CountersOk(sys)
    ensures CountersOk(ApplyAll(sys, es))
    ensures ApplyAll(sys, es).channelsInUse == sys.channelsInUse + Started(es) - FinishedCount(es)
    ensures ApplyAll(sys, es).maxChannelsInUse == MaxOf(sys.maxChannelsInUse, InUseTrace(sys, es))
    decreases |es|
  {
    if |es| > 0 {
      var next := Apply(sys, es[0]);
      HighWaterIsPeak(next, es[1..]);
      MaxOfStart(next.maxChannelsInUse, sys.maxChannelsInUse, next.channelsInUse, InUseTrace(next, es[1..]));
    }
  }

  /** How a larger starting value moves MaxOf. */
  lemma {:induction false} MaxOfStart(m1: int, m0: int, c: int, xs: seq<int>)
    requires m1 == (if c > m0 then c else m0)
    ensures MaxOf(m1, xs) == MaxOf(m0, [c] + xs)
    decreases |xs|
  {
    assert ([c] + xs)[1..] == xs;
    if |xs| > 0 {
      MaxOfStart(m1, m0, c, xs[1..]);
      assert ([c] + xs[1..])[1..] == xs[1..];
    }
  }

  function Started(es: seq<Event>): nat
  {
    if |es| == 0 then 0 else (if es[0].Played? && es[0].channel != -1 then 1 else 0) + Started(es[1..])
  }

  function FinishedCount(es: seq<Event>): nat
  {
    if |es| == 0 then 0 else (if es[0].Finished? then 1 else 0) + FinishedCount(es[1..])
  }
}
