/** The 64 x 32 framebuffer and the effect of the clear-screen instruction 00E0.

    The framebuffer is an array of 2048 `uint32_t` pixels, row after row. 00E0
    clears it with `memset`, whose count is in BYTES, and passes the number of
    PIXELS: 2048 bytes are 512 four-byte pixels, so only the first 512 pixels,
    the top eight rows, are cleared. */
module Display {
  import opened Word

  const VIDEO_WIDTH := 64
  const VIDEO_HEIGHT := 32

  /** `sizeof(uint32_t)`: the bytes in one pixel. */
  const PIXEL_BYTES := 4

  /** The count 00E0 passes to `memset`, taken there as bytes. */
  const CLEAR_BYTES := VIDEO_HEIGHT * VIDEO_WIDTH

  /** The pixels that those bytes cover. */
  const CLEARED_PIXELS := CLEAR_BYTES / PIXEL_BYTES

  /** The framebuffer with its first n pixels set to 0. */
  function ZeroPixels(video: seq<u32>, n: nat): (r: seq<u32>)
    requires n <= |video|
    ensures |r| == |video|
    ensures forall i :: 0 <= i < n ==> r[i] == 0
    ensures forall i :: n <= i < |video| ==> r[i] == video[i]
  {
    seq(n, _ => 0) + video[n..]
  }

  /** 00E0 as written clears the pixel at (col, row) to 0 when row < 8;
      every pixel of rows 8 to 31 keeps its value. */
  lemma ClearBlanksTopRows(video: seq<u32>, row: nat, col: nat)
    requires |video| == VIDEO_WIDTH * VIDEO_HEIGHT
    requires row < VIDEO_HEIGHT && col < VIDEO_WIDTH
    ensures row * VIDEO_WIDTH + col < |video|
    ensures ZeroPixels(video, CLEARED_PIXELS)[row * VIDEO_WIDTH + col] ==
      if row < 8 then 0 else video[row * VIDEO_WIDTH + col]
  {
    if row < 8 {
      assert row * VIDEO_WIDTH <= 7 * VIDEO_WIDTH;
    } else {
      assert row * VIDEO_WIDTH >= 8 * VIDEO_WIDTH;
    }
  }
}
