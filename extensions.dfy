/**
 * Extension negotiation: for each vendor extension mode, in a fixed order,
 * ask the host whether the mode is available for the current camera
 * selector and, if so, replace the selector by the extension-enabled one
 * the host hands back. Later checks see the selector narrowed by earlier ones.
 */
module Extensions {
  import opened CameraTypes

  /** The vendor extension modes the controller probes. */
  datatype ExtensionMode = Auto | Bokeh | Hdr | FaceRetouch | Night

  /** The order in which both pipeline builders probe the modes. */
  const ExtensionOrder: seq<ExtensionMode> := [Auto, Bokeh, Hdr, FaceRetouch, Night]

  /**
   * A camera selector. The controller itself only builds one from a lens;
   * every selector the host derives from it is an opaque handle.
   */
  datatype CameraSelector = LensSelector(lens: LensFacing) | HostSelector(handle: int)

  /**
   * The host's extension manager: whether a mode is available for a selector,
   * and the extension-enabled selector it returns for one.
   */
  datatype ExtensionsManager = ExtensionsManager(
    isExtensionAvailable: (CameraSelector, ExtensionMode) -> bool,
    enabledSelector: (CameraSelector, ExtensionMode) -> CameraSelector)

  /** One probe: the selector after checking `mode` against `selector`. */
  function WithExtension(manager: ExtensionsManager, selector: CameraSelector, mode: ExtensionMode): (r: CameraSelector)
    ensures manager.isExtensionAvailable(selector, mode) ==> r == manager.enabledSelector(selector, mode)
    ensures !manager.isExtensionAvailable(selector, mode) ==> r == selector
  {
    if manager.isExtensionAvailable(selector, mode) then manager.enabledSelector(selector, mode) else selector
  }

  /** The selector after probing `modes` in order, each on the previous result. */
  function ApplyExtensions(manager: ExtensionsManager, selector: CameraSelector, modes: seq<ExtensionMode>): CameraSelector
    decreases |modes|
  {
    if modes == [] then selector
    else ApplyExtensions(manager, WithExtension(manager, selector, modes[0]), modes[1..])
  }

  /** Probing `a` then `b` is probing `a + b`: each check sees the narrowed selector. */
  lemma {:induction false} ApplyExtensionsAppend(manager: ExtensionsManager, selector: CameraSelector,
                                                 a: seq<ExtensionMode>, b: seq<ExtensionMode>)
    ensures ApplyExtensions(manager, selector, a + b) == ApplyExtensions(manager, ApplyExtensions(manager, selector, a), b)
    decreases |a|
  {
    if a == [] {
      assert a + b == b;
    } else {
      assert (a + b)[0] == a[0];
      assert (a + b)[1..] == a[1..] + b;
      ApplyExtensionsAppend(manager, WithExtension(manager, selector, a[0]), a[1..], b);
    }
  }

  /** When no probed mode is available for the selector, it is left as it was. */
  lemma {:induction false} ApplyExtensionsNoneAvailable(manager: ExtensionsManager, selector: CameraSelector,
                                                        modes: seq<ExtensionMode>)
    requires forall i :: 0 <= i < |modes| ==> !manager.isExtensionAvailable(selector, modes[i])
    ensures ApplyExtensions(manager, selector, modes) == selector
    decreases |modes|
  {
    if modes != [] {
      assert WithExtension(manager, selector, modes[0]) == selector;
      forall i | 0 <= i < |modes[1..]|
        ensures !manager.isExtensionAvailable(selector, modes[1..][i])
      {
        assert modes[1..][i] == modes[i + 1];
      }
      ApplyExtensionsNoneAvailable(manager, selector, modes[1..]);
    }
  }

  /**
   * Only the last mode that gets enabled decides the outcome: if probing
   * `before + [mode]` enables `mode`, and nothing in `after` is available for
   * the selector this yields, the final selector is that enabled one.
   */
  lemma LastEnabledModeDecides(manager: ExtensionsManager, selector: CameraSelector,
                               before: seq<ExtensionMode>, mode: ExtensionMode, after: seq<ExtensionMode>)
    requires manager.isExtensionAvailable(ApplyExtensions(manager, selector, before), mode)
    requires forall i :: 0 <= i < |after| ==>
      !manager.isExtensionAvailable(manager.enabledSelector(ApplyExtensions(manager, selector, before), mode), after[i])
    ensures ApplyExtensions(manager, selector, before + [mode] + after)
         == manager.enabledSelector(ApplyExtensions(manager, selector, before), mode)
  {
    var narrowed := ApplyExtensions(manager, selector, before);
    ApplyExtensionsAppend(manager, selector, before + [mode], after);
    ApplyExtensionsAppend(manager, selector, before, [mode]);
    assert ApplyExtensions(manager, narrowed, [mode]) == ApplyExtensions(manager, WithExtension(manager, narrowed, mode), []);
    ApplyExtensionsNoneAvailable(manager, manager.enabledSelector(narrowed, mode), after);
  }

  /**
   * The fixed probing order written out: AUTO is checked on the starting
   * selector and every later mode on the selector the earlier checks left.
   */
  lemma ExtensionOrderUnfolds(manager: ExtensionsManager, selector: CameraSelector)
    ensures ApplyExtensions(manager, selector, ExtensionOrder)
         == WithExtension(manager,
              WithExtension(manager,
                WithExtension(manager,
                  WithExtension(manager,
                    WithExtension(manager, selector, Auto),
                    Bokeh),
                  Hdr),
                FaceRetouch),
              Night)
  {
  }
}
