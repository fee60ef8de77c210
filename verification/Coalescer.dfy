/** The strip coalescer: the pending labels of one tape width, and when to print them. */
module Coalescer {
  import opened Basics
  import opened Contract
  import opened PrintLoop

  /** A flushed strip. */
  datatype Batch = Batch(labels: seq<PendingLabel>, width: real)

  class Coalescer {
    const cfg: Config
    var pending: seq<PendingLabel>
    var width: Option<real>
    var lastAdd: Option<real>

    function Buffered(): Buffer
      reads this
    {
      Buffer(pending, width, lastAdd)
    }

    /** A strip has a width exactly while it has labels. */
    predicate Valid()
      reads this
    {
      pending == [] <==> width == None
    }

    constructor (cfg: Config)
      ensures this.cfg == cfg && Valid() && Buffered() == EMPTY_BUFFER
    {
      this.cfg := cfg;
      pending, width, lastAdd := [], None, None;
    }

    predicate AcceptsWidth(tapeWidth: real)
      reads this
    {
      width == None || width == Some(tapeWidth)
    }

    /** The strip's length: its pixels, and a separator before every label and at the end. */
    method StripLength() returns (mm: real)
      ensures mm == LengthMm(cfg, pending)
    {
      if pending == [] {
        return 0.0;
      }
      var px := 0;
      for i := 0 to |pending|
        invariant px == PixelSum(pending[..i])
      {
        assert pending[..i + 1][..i] == pending[..i];
        px := px + pending[i].image.width;
      }
      assert pending[..|pending|] == pending;
      mm := px as real / PX_PER_MM + cfg.separator * (|pending| + 1) as real;
    }

    method Full() returns (full: bool)
      ensures full == IsFull(cfg, pending)
    {
      var mm := StripLength();
      full := |pending| >= cfg.maxLabels || mm >= cfg.maxLength;
    }

    /** False stands for the ValueError on a label of another width. */
    method Add(label0: PendingLabel, tapeWidth: real, now: real) returns (ok: bool)
      modifies this
      ensures ok == old(AcceptsWidth(tapeWidth)) && (old(Valid()) ==> Valid())
      ensures Buffered() == if ok then AddTo(old(Buffered()), label0, tapeWidth, now) else old(Buffered())
    {
      ok := AcceptsWidth(tapeWidth);
      if ok {
        width := Some(tapeWidth);
        pending := pending + [label0];
        lastAdd := Some(now);
      }
    }

    /** Hand the pending strip out and start a new one; None when there is nothing to print. */
    method Flush() returns (batch: Option<Batch>)
      modifies this
      ensures batch.None? <==> old(pending) == []
      ensures batch.Some? ==> batch.value.labels == old(pending) && Buffered() == EMPTY_BUFFER && Valid()
      ensures batch.None? ==> Buffered() == old(Buffered())
    {
      if pending == [] {
        return None;
      }
      batch := Some(Batch(pending, if width.Some? then width.value else 0.0));
      pending, width, lastAdd := [], None, None;
    }
  }
}
