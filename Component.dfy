/**
  The state of one `ScalingLayout` instance and the effect that drives it.
  The effect (mount) sets `mounted`, measures the window once and starts a
  resize observer; every observed resize overwrites the stored dimensions;
  the effect's cleanup (unmount) disconnects the observer. The window size
  arrives as method parameters; the observer is the `observerConnected` flag
  and a count of the `disconnect()` calls issued.
 */
module Component {
  import opened Scaling

  class ScalingLayout {
    /** The props, fixed for the life of the instance. */
    const config: Config
    /** `dimensions.width` and `dimensions.height`. */
    var width: nat
    var height: nat
    /** The `mounted` state. */
    var mounted: bool
    /** Whether the resize observer is observing the document element. */
    var observerConnected: bool
    /** How many times `disconnect()` has been called on the observer. */
    var disconnects: nat

    /**
      Until the effect runs nothing has been measured nor observed; after it, the
      observer is connected until the single disconnect of the cleanup.
     */
    ghost predicate Valid()
      reads this
    {
      config.Valid() &&
      (!mounted ==> width == 0 && height == 0 && !observerConnected && disconnects == 0) &&
      (mounted ==> disconnects == if observerConnected then 0 else 1)
    }

    /** The snapshot this instance publishes to its descendants. */
    function Snapshot(): (r: ScalingContext)
      reads this
      requires config.Valid()
      ensures r.windowWidth == width && r.windowHeight == height
    {
      ContextValue(width, height, config)
    }

    /** What this instance renders now. */
    function View(): (r: Output)
      reads this
      requires config.Valid()
      ensures r.Nothing? <==> !mounted
    {
      Render(mounted, width, height, config)
    }

    /** The first render: dimensions {0, 0}, not mounted, so it renders nothing. */
    constructor (config: Config)
      requires config.Valid()
      ensures Valid() && this.config == config
      ensures width == 0 && height == 0 && !mounted
      ensures !observerConnected && disconnects == 0
      ensures View() == Nothing
      ensures Snapshot().scale == 1.0
    {
      this.config := config;
      width, height := 0, 0;
      mounted := false;
      observerConnected := false;
      disconnects := 0;
    }

    /**
      The mount effect, given the window's inner size at that moment: mark
      mounted, take one measurement, start observing.
     */
    method Mount(innerWidth: nat, innerHeight: nat)
      requires Valid() && !mounted
      modifies this
      ensures Valid()
      ensures mounted && observerConnected && disconnects == 0
      ensures width == innerWidth && height == innerHeight
      ensures View() == Render(true, innerWidth, innerHeight, config)
      ensures View().Wrapper? && View().scaleVar == Scale(innerWidth, config)
    {
      mounted := true;
      width, height := innerWidth, innerHeight;
      observerConnected := true;
    }

    /**
      An observed resize, given the window's inner size at that moment: the
      dimensions are overwritten and the scale follows the new width alone.
     */
    method Resize(innerWidth: nat, innerHeight: nat)
      requires Valid() && observerConnected
      modifies this`width, this`height
      ensures Valid()
      ensures width == innerWidth && height == innerHeight
      ensures Snapshot().scale == Scale(innerWidth, config)
      ensures Snapshot().windowWidth == innerWidth && Snapshot().windowHeight == innerHeight
      ensures View().Wrapper?
    {
      width, height := innerWidth, innerHeight;
    }

    /**
      The cleanup: the observer is disconnected, exactly once after the effect
      has run; before that no cleanup exists and nothing is released.
     */
    method Unmount()
      requires Valid()
      modifies this`observerConnected, this`disconnects
      ensures Valid() && !observerConnected
      ensures disconnects == if mounted then 1 else 0
      ensures disconnects == old(disconnects) + (if old(observerConnected) then 1 else 0)
    {
      if observerConnected {
        observerConnected := false;
        disconnects := disconnects + 1;
      }
    }
  }

  /** A lifecycle sequence with the default props; each assertion is proved. */
  method DefaultLifecycle()
  {
    var layout := new ScalingLayout(DefaultConfig);
    assert layout.View() == Nothing;
    layout.Mount(384, 800);
    Scenarios();
    assert layout.Snapshot().scale == 0.5;
    assert layout.Snapshot().scaledVh(50.0) == Finite(800.0);
    layout.Resize(1200, 900);
    assert layout.Snapshot().scale == 1.0;
    layout.Unmount();
    assert layout.disconnects == 1 && !layout.observerConnected;
  }
}
