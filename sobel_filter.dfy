/** The control logic of the Sobel filter processor
    (openimaj/tools/SobelFilter.java): which band of the input is analysed,
    and how the two gradient matrices are persisted in the processor's store
    and published on its two output ports, with a roll-back when the run is
    interrupted. The gradient computation itself is a parameter. */
module SobelFilters {

  import opened Wrappers
  import opened Matrices
  import Ports
  import Processors

  /** The keys under which the two gradients are stored. */
  const StorageMatDx := "dx.bmat"
  const StorageMatDy := "dy.bmat"

  /** The band slider: 1 to 4, 1 by default. */
  const BandMin := 1
  const BandMax := 4
  const BandDefault := 1

  /** The data type of both output ports. */
  const FloatImage := "BufferedImageFloat"

  /** The three inputs of the exclusive input group. */
  datatype InputKind = ColorImage | GrayImage | FloatMatrix

  /** The points at which a run checks for an interruption, in order: after
      the image is loaded, after the analysis, after each gradient is
      converted, and after the outputs are set. */
  datatype Checkpoint = AfterLoad | AfterAnalysis | AfterDx | AfterDy | AfterOutputs

  /** `getBand` as written: 0 for the gray input; otherwise the 0-based index
      of the selected band `band` of an image with `bands` bands, where a band
      beyond the last one is replaced by 0 before the decrement. */
  function GetBandAsWritten(enabled: Option<InputKind>, bands: int, band: int): int {
    if enabled == Some(GrayImage) then 0
    else if band > bands then 0 - 1
    else band - 1
  }

  /** The as-written `getBand` yields the index -1, which is no band at all,
      exactly when a band beyond the last one is selected on a colour or
      float input, although the warning it logs announces the first band. */
  lemma GetBandAsWrittenMissesFirstBand(enabled: Option<InputKind>, bands: int, band: int)
    requires band >= BandMin
    ensures GetBandAsWritten(enabled, bands, band) < 0 <==> enabled != Some(GrayImage) && band > bands
  {
  }

  /** A concrete instance: band 2 of a one-band image. */
  lemma GetBandAsWrittenExample()
    ensures GetBandAsWritten(Some(FloatMatrix), 1, 2) == -1
  {
  }

  /** `getBand` as its warning describes it: an out-of-range band falls back
      to the first band, index 0. For a valid slider value and an image with
      at least one band the result is always a band of the image. */
  function GetBand(enabled: Option<InputKind>, bands: int, band: int): (b: int)
    ensures band >= BandMin && bands >= 1 ==> 0 <= b < bands
    ensures enabled == Some(GrayImage) ==> b == 0
  {
    if enabled == Some(GrayImage) then 0
    else if band > bands then 0
    else band - 1
  }

  /** The corrected `getBand` differs from the written one only in the
      fallback case. */
  lemma GetBandAgreesInRange(enabled: Option<InputKind>, bands: int, band: int)
    ensures enabled == Some(GrayImage) || band <= bands <==> GetBand(enabled, bands, band) == GetBandAsWritten(enabled, bands, band)
  {
  }

  /** The payload stored on a port, and its resulting state, when `v` is
      published on an output port: set, or reset when there is nothing. */
  ghost predicate Published(p: Ports.Port, v: Option<Matrix>)
    reads p
  {
    && p.payload == v
    && p.state == (if v.Some? then Ports.Ready else if p.connections == {} then Ports.Unconnected else Ports.Waiting)
  }

  /** The state of an input port connected to an output on which `v` was
      published. */
  function PeerState(v: Option<Matrix>): Ports.PortState {
    if v.Some? then Ports.Ready else Ports.Waiting
  }

  /** Publishes `v` on the output port `p`: `setOutput` for a matrix, a reset
      for none. */
  method Publish(p: Ports.Port, v: Option<Matrix>)
    requires p.Valid() && p.direction == Ports.Output
    modifies p, p.connections
    ensures p.Valid() && p.connections == old(p.connections)
    ensures Published(p, v)
    ensures forall q :: q in p.connections ==>
      q.state == PeerState(v) && q.connections == old(q.connections) && q.payload == old(q.payload)
  {
    if v.Some? {
      p.SetOutput(v.value);
    } else {
      p.ResetOutput();
    }
  }

  class SobelFilter {
    const dx: Ports.Port
    const dy: Ports.Port
    var band: int
    var bandSelectionDisabled: bool

    /** Two distinct float-image output ports, and a band on the slider. */
    ghost predicate Valid()
      reads this, dx, dy
    {
      && dx != dy
      && dx.Valid() && dx.direction == Ports.Output && dx.dataType == FloatImage
      && dy.Valid() && dy.direction == Ports.Output && dy.dataType == FloatImage
      && BandMin <= band <= BandMax
    }

    constructor ()
      ensures Valid()
      ensures fresh(dx) && fresh(dy)
      ensures band == BandDefault && !bandSelectionDisabled
      ensures dx.connections == {} && dx.state == Ports.Unconnected && dx.payload == None
      ensures dy.connections == {} && dy.state == Ports.Unconnected && dy.payload == None
    {
      dx := new Ports.Port(Ports.Output, FloatImage, false);
      dy := new Ports.Port(Ports.Output, FloatImage, false);
      band := BandDefault;
      bandSelectionDisabled := false;
    }

    /** `setOutputs`: publishes the two gradients; a peer of both outputs
        ends as the second one leaves it. */
    method SetOutputs(mx: Option<Matrix>, my: Option<Matrix>)
      requires Valid()
      modifies dx, dy, dx.connections, dy.connections
      ensures Valid()
      ensures dx.connections == old(dx.connections) && dy.connections == old(dy.connections)
      ensures Published(dx, mx) && Published(dy, my)
      ensures forall q :: q in dy.connections ==> q.state == PeerState(my)
      ensures forall q :: q in dx.connections && q !in dy.connections ==> q.state == PeerState(mx)
      ensures forall q :: q in dx.connections || q in dy.connections ==>
        q.connections == old(q.connections) && q.payload == old(q.payload)
      ensures band == old(band) && bandSelectionDisabled == old(bandSelectionDisabled)
    {
      Publish(dx, mx);
      Publish(dy, my);
    }

    /** `restoreOutputs`: publishes what the store holds under the two keys;
        a missing entry resets its output. */
    method RestoreOutputs(context: Processors.ProcessorContext)
      requires Valid()
      modifies dx, dy, dx.connections, dy.connections
      ensures Valid()
      ensures dx.connections == old(dx.connections) && dy.connections == old(dy.connections)
      ensures Published(dx, context.Read(StorageMatDx)) && Published(dy, context.Read(StorageMatDy))
      ensures band == old(band) && bandSelectionDisabled == old(bandSelectionDisabled)
    {
      SetOutputs(context.Read(StorageMatDx), context.Read(StorageMatDy));
    }

    /** `reset`: deletes both stored gradients and resets both outputs. */
    method Reset(context: Processors.ProcessorContext)
      requires Valid()
      modifies context, dx, dy, dx.connections, dy.connections
      ensures Valid()
      ensures context.entries == old(context.entries) - {StorageMatDx, StorageMatDy}
      ensures dx.connections == old(dx.connections) && dy.connections == old(dy.connections)
      ensures Published(dx, None) && Published(dy, None)
      ensures forall q :: q in dx.connections || q in dy.connections ==> q.state == Ports.Waiting
      ensures band == old(band) && bandSelectionDisabled == old(bandSelectionDisabled)
    {
      context.Delete(StorageMatDx);
      context.Delete(StorageMatDy);
      assert context.entries == old(context.entries) - {StorageMatDx, StorageMatDy};
      SetOutputs(None, None);
    }

    /** `init`: the band slider is disabled while the gray input is
        connected, and the outputs are restored from the store only when
        there is a context. */
    method Init(context: Option<Processors.ProcessorContext>, grayConnected: bool)
      requires Valid()
      modifies this, dx, dy, dx.connections, dy.connections
      ensures Valid()
      ensures bandSelectionDisabled == grayConnected && band == old(band)
      ensures dx.connections == old(dx.connections) && dy.connections == old(dy.connections)
      ensures context.None? ==> unchanged(dx, dy)
      ensures context.Some? ==>
        Published(dx, context.value.Read(StorageMatDx)) && Published(dy, context.value.Read(StorageMatDy))
    {
      bandSelectionDisabled := grayConnected;
      if context.Some? {
        RestoreOutputs(context.value);
      }
    }

    /** `process`. Without an enabled input nothing happens. Otherwise the
        gradients of the band chosen by `GetBand` are computed, stored and
        published; an interruption at any checkpoint ends in `Reset`, even
        after the outputs were set. `bands` is the band count of the input
        image and `gradients` stands for the filter mathematics. */
    method Process(context: Processors.ProcessorContext, enabled: Option<InputKind>, bands: int,
                   gradients: int -> (Matrix, Matrix), interrupt: Option<Checkpoint>)
      requires Valid()
      modifies context, dx, dy, dx.connections, dy.connections
      ensures Valid()
      ensures dx.connections == old(dx.connections) && dy.connections == old(dy.connections)
      ensures enabled.None? ==> unchanged(context, dx, dy) && unchanged(dx.connections, dy.connections)
      ensures enabled.Some? && interrupt.Some? ==>
        && context.entries == old(context.entries) - {StorageMatDx, StorageMatDy}
        && Published(dx, None) && Published(dy, None)
        && forall q :: q in dx.connections || q in dy.connections ==> q.state == Ports.Waiting
      ensures enabled.Some? && interrupt.None? ==>
        var (mx, my) := gradients(GetBand(enabled, bands, band));
        && context.entries == old(context.entries)[StorageMatDx := mx][StorageMatDy := my]
        && Published(dx, Some(mx)) && Published(dy, Some(my))
        && forall q :: q in dx.connections || q in dy.connections ==> q.state == Ports.Ready
    {
      if enabled.None? {
        return;
      }
      var b := GetBand(enabled, bands, band);
      if interrupt == Some(AfterLoad) {
        Reset(context);
        return;
      }
      var (mx, my) := gradients(b);
      if interrupt == Some(AfterAnalysis) || interrupt == Some(AfterDx) || interrupt == Some(AfterDy) {
        Reset(context);
        return;
      }
      context.Write(StorageMatDx, mx);
      context.Write(StorageMatDy, my);
      SetOutputs(Some(mx), Some(my));
      if interrupt.Some? {
        // the one checkpoint left: `AfterOutputs`
        Reset(context);
        assert context.entries == old(context.entries) - {StorageMatDx, StorageMatDy};
      }
    }
  }
}
