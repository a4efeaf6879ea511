/**
 * The pixel-pack parameters `main` gives the read-back of each rendered
 * frame into `dst`: 4-byte row alignment when the row stride allows it,
 * otherwise 1, and a row length of stride / element size pixels.
 */
module PixelPack {

  /** `(step & 3) ? 1 : 4`; for an unsigned stride `step & 3` is `step % 4`. */
  function PackAlignment(step: nat): (a: nat)
    ensures a == 1 || a == 4
    ensures step % a == 0
    // 4 whenever 4 divides the stride: the larger of the two admissible alignments
    ensures step % 4 == 0 ==> a == 4
  {
    if step % 4 != 0 then 1 else 4
  }

  /** `step / elemSize`: the number of whole pixels in a row of `step` bytes. */
  function RowLength(step: nat, elemSize: nat): (n: nat)
    requires elemSize > 0
    ensures n * elemSize <= step < (n + 1) * elemSize
  {
    step / elemSize
  }

  /** Bytes per pixel of `dst`, an 8-bit three-channel (`CV_8UC3`) matrix. */
  const DstElemSize: nat := 3

  /** The stride of a freshly created, continuous `dst` of `cols` pixels per row. */
  function DstStep(cols: nat): nat
  {
    cols * DstElemSize
  }

  /** For `dst` the row length is the output width, and 4-byte alignment is chosen
      exactly when the width is a multiple of 4. */
  lemma DstPackParameters(cols: nat)
    ensures RowLength(DstStep(cols), DstElemSize) == cols
    ensures PackAlignment(DstStep(cols)) == 4 <==> cols % 4 == 0
  {
    var step := DstStep(cols);
    assert step == 3 * cols;
    assert step / 3 == cols;
    var q, r := cols / 4, cols % 4;
    assert step == 4 * (3 * q) + 3 * r;
    assert step % 4 == (3 * r) % 4;
  }

  /** The default 1920-pixel-wide output uses 4-byte alignment and 1920-pixel rows. */
  lemma DefaultWidthAligned()
    ensures PackAlignment(DstStep(1920)) == 4 && RowLength(DstStep(1920), DstElemSize) == 1920
  {
    DstPackParameters(1920);
  }
}
