/** The scroll-reveal mechanism every animated section of the page repeats:
    an `isVisible` state cell that starts false, an IntersectionObserver whose
    callback writes true on an intersecting entry and never writes false, and
    render rules that give each block its animation class once the section is
    visible and the hidden class before. */
module Reveal {

  /** Class a revealed block carries while its section is not yet visible. */
  const HiddenClass: string := "opacity-0"

  /** The `isVisible` cell of one section together with the observer that
      writes it. */
  class RevealLatch {
    /** Intersection threshold in percent (`threshold: 0.2` is 20). */
    const thresholdPercent: nat
    /** The section's `isVisible` state. */
    var isVisible: bool
    /** Whether the observer is attached to the section element. */
    var observing: bool

    /** Mount: `useState(false)` and an observer not yet attached. */
    constructor (thresholdPercent: nat)
      ensures this.thresholdPercent == thresholdPercent
      ensures !isVisible && !observing
    {
      this.thresholdPercent := thresholdPercent;
      isVisible := false;
      observing := false;
    }

    /** The mount effect: the observer watches the section only when the
        section ref is set. */
    method Attach(refPresent: bool)
      modifies this
      ensures observing == refPresent
      ensures isVisible == old(isVisible)
    {
      if refPresent {
        observing := true;
      } else {
        observing := false;
      }
    }

    /** One entry delivered to the observer callback. An intersecting entry
        sets the flag; nothing ever clears it; a disconnected observer
        receives nothing. */
    method OnEntry(intersecting: bool)
      modifies this
      ensures observing == old(observing)
      ensures observing ==> isVisible == Latch(old(isVisible), [intersecting])
      ensures !observing ==> isVisible == old(isVisible)
    {
      if observing && intersecting {
        isVisible := true;
      }
    }

    /** One callback invocation with a batch of entries. The callback
        destructures `[entry]`, so only the first entry of the batch is read;
        the browser never calls it with an empty batch. */
    method OnBatch(batch: seq<bool>)
      requires |batch| > 0
      modifies this
      ensures observing == old(observing)
      ensures isVisible == (old(isVisible) || (observing && batch[0]))
    {
      OnEntry(batch[0]);
    }

    /** The effect's cleanup, `observer.disconnect()`. */
    method Disconnect()
      modifies this
      ensures !observing
      ensures isVisible == old(isVisible)
    {
      observing := false;
    }
  }

  /** The flag after the callback has seen `entries` (each the entry's
      `isIntersecting`), starting from `visible`. */
  function Latch(visible: bool, entries: seq<bool>): bool
    decreases |entries|
  {
    if entries == [] then visible else Latch(visible || entries[0], entries[1..])
  }

  /** The flag is set exactly when it was already set or some entry
      intersected. */
  lemma {:induction false} LatchIsAnyIntersecting(visible: bool, entries: seq<bool>)
    ensures Latch(visible, entries) <==> visible || true in entries
    decreases |entries|
  {
    if entries != [] {
      LatchIsAnyIntersecting(visible || entries[0], entries[1..]);
      assert entries == [entries[0]] + entries[1..];
    }
  }

  /** Once set, no sequence of later entries clears the flag. */
  lemma LatchMonotone(entries: seq<bool>)
    ensures Latch(true, entries)
  {
    LatchIsAnyIntersecting(true, entries);
  }

  /** Feeding entries in two rounds is feeding them all at once. */
  lemma {:induction false} LatchAppend(visible: bool, first: seq<bool>, later: seq<bool>)
    ensures Latch(visible, first + later) == Latch(Latch(visible, first), later)
    decreases |first|
  {
    if first == [] {
      assert first + later == later;
    } else {
      assert (first + later)[1..] == first[1..] + later;
      LatchAppend(visible || first[0], first[1..], later);
    }
  }

  /** A block of a section whose class depends on the section's flag. */
  datatype Block = Block(key: string, animation: string, delayTenths: nat)

  /** A block as rendered: its key, its class and its `animationDelay` in
      tenths of a second. */
  datatype Rendered = Rendered(key: string, cls: string, delayTenths: nat)

  /** `isVisible ? animation : 'opacity-0'`. */
  function ClassFor(visible: bool, animation: string): string
  {
    if visible then animation else HiddenClass
  }

  /** Renders each block with the class the flag selects. */
  function Render(visible: bool, blocks: seq<Block>): seq<Rendered>
  {
    seq(|blocks|, i requires 0 <= i < |blocks| =>
      Rendered(blocks[i].key, ClassFor(visible, blocks[i].animation), blocks[i].delayTenths))
  }

  /** `list.map((x, index) => ...)` with delay `base + index * 0.1` seconds. */
  function Staggered(keys: seq<string>, animation: string, baseTenths: nat): seq<Block>
  {
    seq(|keys|, i requires 0 <= i < |keys| => Block(keys[i], animation, baseTenths + i))
  }

  /** No animation class of the page is the hidden class itself. */
  predicate Animated(blocks: seq<Block>)
  {
    forall i :: 0 <= i < |blocks| ==> blocks[i].animation != HiddenClass
  }

  /** Rendering keeps the blocks in order, and a block shows the hidden class
      exactly when the section is not visible. */
  lemma RenderRevealsIffVisible(visible: bool, blocks: seq<Block>)
    requires Animated(blocks)
    ensures |Render(visible, blocks)| == |blocks|
    ensures forall i :: 0 <= i < |blocks| ==>
      Render(visible, blocks)[i].key == blocks[i].key &&
      Render(visible, blocks)[i].delayTenths == blocks[i].delayTenths &&
      (Render(visible, blocks)[i].cls == HiddenClass <==> !visible) &&
      (visible ==> Render(visible, blocks)[i].cls == blocks[i].animation)
  {
  }

  /** Staggered delays start at the base and strictly increase with the
      index, so siblings cascade instead of appearing together. */
  lemma StaggerCascades(keys: seq<string>, animation: string, baseTenths: nat)
    ensures |Staggered(keys, animation, baseTenths)| == |keys|
    ensures forall i, j :: 0 <= i < j < |keys| ==>
      Staggered(keys, animation, baseTenths)[i].delayTenths < Staggered(keys, animation, baseTenths)[j].delayTenths
    ensures |keys| > 0 ==> Staggered(keys, animation, baseTenths)[0].delayTenths == baseTenths
  {
  }

  /** Once a section has been revealed, every later run of entries leaves
      its rendering exactly as revealed. */
  lemma RevealedRenderingIsStable(blocks: seq<Block>, entries: seq<bool>)
    ensures Render(Latch(true, entries), blocks) == Render(true, blocks)
  {
    LatchMonotone(entries);
  }
}
