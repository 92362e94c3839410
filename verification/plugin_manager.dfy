/** The plugin manager of one client connection: on every poller activation
    it regenerates the web-resources event, serializes it, and sends it only
    when the serialization differs from the one it last sent.

    `json.Marshal` is not modelled; it is the `marshal` parameter, a
    deterministic function of the event.
 */
module PluginManager {
  import opened Results
  import opened Octant
  import PluginResource

  /** The serializer: the event's bytes, or an error. */
  type Marshal = Event -> Result<seq<byte>>

  /** What one activation finds: whether the context is cancelled, the event
      the generator returned, and whether it also returned an error. */
  datatype Tick = Tick(cancelled: bool, event: Event, generateFailed: bool)

  /** The outcome of one activation: the event sent, if any, the remembered
      serialization afterwards, and the flag returned to the poller. */
  datatype Activation = Activation(sent: Option<Event>, previous: seq<byte>, stop: bool)

  /** The remembered serialization before the first activation: Go's nil
      slice, which compares equal to an empty one. */
  const NoPrevious: seq<byte> := []

  /** `generatePluginEvents`: building the generator cannot fail, so an
      activation sees the web-resources event and no generator error. */
  function PluginTick(lookup: PluginResource.ResourceLookup, cancelled: bool): (t: Tick)
    ensures !t.generateFailed && t.cancelled == cancelled
    ensures t.event.eventType == EventTypeWebResources
    ensures t.event == PluginResource.ResourcesEvent(lookup)
  {
    Tick(cancelled, PluginResource.ResourcesEvent(lookup), false)
  }

  /** `runUpdate`'s poller function: one activation. */
  function Activate(marshal: Marshal, previous: seq<byte>, tick: Tick): (r: Activation)
    ensures !r.stop
    ensures tick.cancelled ==> r == Activation(None, previous, false)
    ensures marshal(tick.event).Failure? ==> r == Activation(None, previous, false)
    ensures r.sent.Some? <==> !tick.cancelled && marshal(tick.event).Success?
                              && marshal(tick.event).value != previous
    ensures r.sent.Some? ==> r.sent.value == tick.event && r.previous == marshal(tick.event).value
    ensures r.sent.None? ==> r.previous == previous
  {
    if tick.cancelled then Activation(None, previous, false)
    else
      match marshal(tick.event)
      case Failure => Activation(None, previous, false)
      case Success(cur) =>
        if cur != previous then Activation(Some(tick.event), cur, false)
        else Activation(None, previous, false)
  }

  /** An error from the generator is only logged: the activation treats the
      event it returned exactly as if there had been no error. */
  lemma GeneratorErrorOnlyLogged(marshal: Marshal, previous: seq<byte>, tick: Tick)
    ensures Activate(marshal, previous, tick.(generateFailed := true))
         == Activate(marshal, previous, tick.(generateFailed := false))
  {
  }

  /** The very first activation sends whenever it is not cancelled and the
      event serializes to a non-empty byte string. */
  lemma FirstActivationSends(marshal: Marshal, tick: Tick)
    requires !tick.cancelled && marshal(tick.event).Success? && marshal(tick.event).value != []
    ensures Activate(marshal, NoPrevious, tick).sent == Some(tick.event)
  {
  }

  /** The events sent over a run of activations and their serializations,
      and the remembered serialization at the end. */
  datatype History = History(sent: seq<Event>, sentBytes: seq<seq<byte>>, previous: seq<byte>)

  /** The activations for `ticks`, in order, starting from `previous`.  The
      remembered serialization is always that of the last event sent. */
  function Run(marshal: Marshal, previous: seq<byte>, ticks: seq<Tick>): (h: History)
    ensures |h.sent| == |h.sentBytes| <= |ticks|
    ensures forall i :: 0 <= i < |h.sent| ==> marshal(h.sent[i]) == Success(h.sentBytes[i])
    ensures |h.sentBytes| == 0 ==> h.previous == previous
    ensures |h.sentBytes| > 0 ==> h.previous == h.sentBytes[|h.sentBytes| - 1]
    decreases |ticks|
  {
    if |ticks| == 0 then History([], [], previous)
    else
      var before := Run(marshal, previous, ticks[..|ticks| - 1]);
      var a := Activate(marshal, before.previous, ticks[|ticks| - 1]);
      match a.sent
      case None => before
      case Some(ev) => History(before.sent + [ev], before.sentBytes + [a.previous], a.previous)
  }

  /** No two consecutive sends carry byte-equal serializations, and the first
      send differs from the serialization remembered at the start. */
  lemma {:induction false} ConsecutiveSendsDiffer(marshal: Marshal, previous: seq<byte>, ticks: seq<Tick>)
    ensures var h := Run(marshal, previous, ticks);
            && (|h.sentBytes| > 0 ==> h.sentBytes[0] != previous)
            && forall i :: 0 <= i < |h.sentBytes| - 1 ==> h.sentBytes[i] != h.sentBytes[i + 1]
    decreases |ticks|
  {
    if |ticks| > 0 {
      ConsecutiveSendsDiffer(marshal, previous, ticks[..|ticks| - 1]);
    }
  }

  /** After a run whose last activation was not cancelled and could
      serialize its event, the remembered bytes are that serialization,
      whether it was sent or equal to what was remembered before. */
  lemma RunRemembersLast(marshal: Marshal, previous: seq<byte>, ticks: seq<Tick>)
    requires |ticks| > 0
    requires !ticks[|ticks| - 1].cancelled && marshal(ticks[|ticks| - 1].event).Success?
    ensures Run(marshal, previous, ticks).previous == marshal(ticks[|ticks| - 1].event).value
  {
  }

  /** Completeness of the comparison: an activation that is not cancelled
      and whose serialization differs from the remembered one sends its
      event, appended after everything sent before. */
  lemma ChangedTickIsSent(marshal: Marshal, previous: seq<byte>, ticks: seq<Tick>, t: Tick)
    requires !t.cancelled && marshal(t.event).Success?
    requires marshal(t.event).value != Run(marshal, previous, ticks).previous
    ensures Run(marshal, previous, ticks + [t]).sent == Run(marshal, previous, ticks).sent + [t.event]
    ensures Run(marshal, previous, ticks + [t]).previous == marshal(t.event).value
  {
    assert (ticks + [t])[..|ticks|] == ticks;
  }

  /** Two activations that see the same plugin assets send at most once: the
      second finds its serialization unchanged. */
  lemma UnchangedResourcesNotResent(marshal: Marshal, lookup: PluginResource.ResourceLookup,
                                    previous: seq<byte>, cancelled: bool)
    ensures var a1 := Activate(marshal, previous, PluginTick(lookup, cancelled));
            var a2 := Activate(marshal, a1.previous, PluginTick(lookup, false));
            a1.sent.Some? ==> a2.sent.None?
  {
  }

  /** `Handlers`: the plugin manager serves no client requests. */
  function Handlers(): (r: seq<ClientRequestHandler<()>>)
    ensures |r| == 0
  {
    []
  }
}
