/**
 * `ThreedProgressBarComponent`: a thin bar inserted at the top of the
 * renderer container. Each initialisation takes a number from a shared
 * counter to name its two elements; loading progress resizes the bar and
 * shows it until loading completes. Finding the elements in the page is a
 * DOM query, an input here.
 */
module ProgressBar {
  import opened Wrappers
  import opened BaseComponents

  /** Decimal digits of a number, as template literals print it. */
  function NatToString(n: nat): (r: string)
    decreases n
    ensures |r| >= 1 && (|r| == 1 <==> n < 10)
    ensures forall i :: 0 <= i < |r| ==> '0' <= r[i] <= '9'
  {
    if n < 10 then [Digit(n)] else NatToString(n / 10) + [Digit(n % 10)]
  }

  function Digit(d: nat): (c: char)
    requires d < 10
    ensures '0' <= c <= '9' && c as int - '0' as int == d
  {
    ('0' as int + d) as char
  }

  /** Different numbers print differently. */
  lemma {:induction false} NatToStringInjective(n: nat, m: nat)
    decreases n
    ensures NatToString(n) == NatToString(m) ==> n == m
  {
    if NatToString(n) == NatToString(m) && n >= 10 && m >= 10 {
      var s := NatToString(n);
      assert s == NatToString(n / 10) + [Digit(n % 10)];
      assert s == NatToString(m / 10) + [Digit(m % 10)];
      assert s[..|s| - 1] == NatToString(n / 10) && s[..|s| - 1] == NatToString(m / 10);
      NatToStringInjective(n / 10, m / 10);
      assert Digit(n % 10) == s[|s| - 1] == Digit(m % 10);
    }
  }

  const ContainerPrefix: string := "Container_ThreedProgressBarComponentId_"
  const ElementPrefix: string := "Element_ThreedProgressBarComponentId_"

  function ContainerId(n: nat): string
  {
    ContainerPrefix + NatToString(n)
  }

  function ElementId(n: nat): string
  {
    ElementPrefix + NatToString(n)
  }

  /** Bars made from different counter values have different container and element ids, and the two never coincide. */
  lemma IdsAreUnique(n: nat, m: nat)
    ensures n != m ==> ContainerId(n) != ContainerId(m) && ElementId(n) != ElementId(m)
    ensures ContainerId(n) != ElementId(m)
  {
    NatToStringInjective(n, m);
    if ContainerId(n) == ContainerId(m) {
      assert NatToString(n) == ContainerId(n)[|ContainerPrefix|..];
      assert NatToString(m) == ContainerId(m)[|ContainerPrefix|..];
    }
    if ElementId(n) == ElementId(m) {
      assert NatToString(n) == ElementId(n)[|ElementPrefix|..];
      assert NatToString(m) == ElementId(m)[|ElementPrefix|..];
    }
    assert ContainerId(n)[0] != ElementId(m)[0];
  }

  /** The static `lastId` counter shared by every progress bar. */
  class ProgressIdCounter {
    var lastId: nat

    constructor()
      ensures lastId == 0
    {
      lastId := 0;
    }
  }

  /**
   * What the bar shows: whether the container and bar elements were found,
   * the `visible` flag, the container's `display` style and the bar's width
   * and `aria-valuenow` (a percentage).
   */
  datatype BarState = BarState(hasContainer: bool, hasElement: bool, visible: bool, display: string,
                               width: Option<real>, ariaValueNow: Option<real>)

  /** `hide`: only a found, visible container is hidden. */
  function Hide(s: BarState): (r: BarState)
    ensures s.hasContainer ==> !r.visible
    ensures !(s.hasContainer && s.visible) ==> r == s
    ensures s.hasContainer && s.visible ==> r == s.(visible := false, display := "none")
  {
    if s.hasContainer && s.visible then s.(display := "none", visible := false) else s
  }

  /** `show`: only a found, hidden container is shown. */
  function Show(s: BarState): (r: BarState)
    ensures s.hasContainer ==> r.visible
    ensures !(s.hasContainer && !s.visible) ==> r == s
    ensures s.hasContainer && !s.visible ==> r == s.(visible := true, display := "block")
  {
    if s.hasContainer && !s.visible then s.(display := "block", visible := true) else s
  }

  /** `tryGetElements`: the lookups' results are taken, the flag is set and the bar is hidden. */
  function Fetch(s: BarState, containerFound: bool, elementFound: bool): (r: BarState)
    ensures r.hasContainer == containerFound && r.hasElement == elementFound
    ensures r.visible == !containerFound
  {
    Hide(s.(hasContainer := containerFound, hasElement := elementFound, visible := true))
  }

  /**
   * `updateProgress`: the fraction becomes a percentage; 100 or more hides
   * the bar and less shows it; a known bar takes the percentage as width and
   * `aria-valuenow`, otherwise the elements are looked up again. So a known
   * bar with a container is visible exactly while progress is incomplete,
   * and a bar not yet known ends hidden once its container is found,
   * whatever the progress.
   */
  function Update(s: BarState, progress: real, containerFound: bool, elementFound: bool): (r: BarState)
    ensures s.hasElement ==> r.width == Some(progress * 100.0) && r.ariaValueNow == Some(progress * 100.0) &&
                             (s.hasContainer ==> (r.visible <==> progress * 100.0 < 100.0))
    ensures !s.hasElement ==> r.hasContainer == containerFound && r.visible == !containerFound && r.width == s.width
  {
    var percent := progress * 100.0;
    var s1 := if percent >= 100.0 then Hide(s) else Show(s);
    if s1.hasElement then s1.(width := Some(percent), ariaValueNow := Some(percent))
    else Fetch(s1, containerFound, elementFound)
  }

  lemma {:induction false} HideShowIdempotent(s: BarState)
    ensures Hide(Hide(s)) == Hide(s) && Show(Show(s)) == Show(s)
  {
    if s.hasContainer && s.visible {
      assert Hide(s).hasContainer && !Hide(s).visible;
    }
    if s.hasContainer && !s.visible {
      assert Show(s).hasContainer && Show(s).visible;
    }
  }

  class ThreedProgressBarComponent {
    const base: ThreedBaseComponent
    const counter: ProgressIdCounter
    var containerId: string
    var progressBarId: string
    var bar: BarState
    /** Copies of the bar's HTML inserted into containers so far. */
    var inserted: nat

    constructor(base: ThreedBaseComponent, counter: ProgressIdCounter)
      ensures this.base == base && this.counter == counter && containerId == "" && progressBarId == ""
      ensures bar == BarState(false, false, false, "", None, None) && inserted == 0
    {
      this.base := base;
      this.counter := counter;
      containerId, progressBarId := "", "";
      bar := BarState(false, false, false, "", None, None);
      inserted := 0;
    }

    /** `initialize` with `generateHtmlAndId`: each call names the bar after the next counter value and subscribes to container changes. */
    method Initialize(manager: nat, subscription: nat)
      modifies this, base, counter
      ensures counter.lastId == old(counter.lastId) + 1
      ensures containerId == ContainerId(old(counter.lastId)) && progressBarId == ElementId(old(counter.lastId))
      ensures base.initialized && base.subscriptions == old(base.subscriptions) + [subscription]
      ensures bar == old(bar) && inserted == old(inserted)
    {
      base.Initialize(manager);
      var id := counter.lastId;
      counter.lastId := counter.lastId + 1;
      containerId := ContainerId(id);
      progressBarId := ElementId(id);
      base.Subscribe(subscription);
    }

    /**
     * `attachHtmlToContainer` followed by its deferred `tryGetElements`:
     * the bar's HTML is inserted into the new container, then the elements
     * are looked up and the bar hidden.
     */
    method AttachHtmlToContainer(containerFound: bool, elementFound: bool)
      modifies this
      ensures inserted == old(inserted) + 1
      ensures bar == Fetch(old(bar), containerFound, elementFound)
      ensures containerId == old(containerId) && progressBarId == old(progressBarId)
    {
      inserted := inserted + 1;
      bar := Fetch(bar, containerFound, elementFound);
    }

    method UpdateProgress(progress: real, containerFound: bool, elementFound: bool)
      modifies this
      ensures bar == Update(old(bar), progress, containerFound, elementFound)
      ensures containerId == old(containerId) && progressBarId == old(progressBarId) && inserted == old(inserted)
    {
      var percent := progress * 100.0;
      if percent >= 100.0 {
        bar := Hide(bar);
      } else {
        bar := Show(bar);
      }
      if bar.hasElement {
        bar := bar.(width := Some(percent), ariaValueNow := Some(percent));
      } else {
        bar := Fetch(bar, containerFound, elementFound);
      }
    }
  }
}
