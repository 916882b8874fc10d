/** src/features/layer/layerOptionsSlice.ts: the store slice that holds the
    zoom scale. The reducer stores whatever it is given; the selector reads
    the stored scale rounded to two decimals. */
module LayerOptions {
  import opened Basics

  /** The slice state `{ zoomScaleFactor }`. */
  class LayerSliceState {
    var zoomScaleFactor: real

    /** `initialLayerSliceState`. */
    constructor ()
      ensures zoomScaleFactor == 1.0
    {
      zoomScaleFactor := 1.0;
    }

    /** The `setScaleFactor` reducer: stores the payload as it is, without clamping. */
    method SetScaleFactor(payload: real)
      modifies this
      ensures zoomScaleFactor == payload
    {
      zoomScaleFactor := payload;
    }

    /** The `getScaleFactor` selector: the stored scale to two decimals, at
        most half a hundredth away from it. */
    function GetScaleFactor(): (r: real)
      reads this
      ensures IsHundredths(r)
      ensures r - 0.005 <= zoomScaleFactor < r + 0.005
    {
      Round2(zoomScaleFactor)
    }
  }

  /** Storing what the selector read and reading again gives the same value. */
  lemma GetScaleFactorIdempotent(read: LayerSliceState, restored: LayerSliceState)
    requires restored.zoomScaleFactor == read.GetScaleFactor()
    ensures restored.GetScaleFactor() == read.GetScaleFactor()
  {
    Round2Idempotent(read.zoomScaleFactor);
  }

  /** The initial scale reads back as 1. */
  lemma InitialScaleReadsAsOne(state: LayerSliceState)
    requires state.zoomScaleFactor == 1.0
    ensures state.GetScaleFactor() == 1.0
  {
    Round2Exact(1.0);
  }
}
