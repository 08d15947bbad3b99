/**
 * The key-event translation of the CEC manager. A TV remote's PLAY_PAUSE key
 * would be sent over CEC as "pause" every time, so it is forwarded as PLAY or
 * PAUSE alternately, by the parity of a counter of its releases. The counter is
 * a Java `int`: it wraps at 2^31 and its parity is read with Java's `%`, which
 * truncates toward zero.
 */
module KeyForwarder {

  /** Android key codes. */
  const KeycodeMediaPlayPause: int := 85
  const KeycodeMediaPlay: int := 126
  const KeycodeMediaPause: int := 127

  const Int32Min: int := -0x8000_0000
  const Int32Max: int := 0x7fff_ffff

  predicate IsInt32(x: int) {
    Int32Min <= x <= Int32Max
  }

  /** Java's `a % 2`: the remainder takes the sign of `a`, so it is -1 for a negative odd `a`. */
  function JavaRem2(a: int): (r: int)
    ensures r == 0 <==> a % 2 == 0
    ensures a >= 0 ==> r == 0 || r == 1
    ensures a < 0 ==> r == 0 || r == -1
  {
    if a >= 0 then a % 2 else -((-a) % 2)
  }

  /** Java's `c++` on an `int`. */
  function Int32Increment(c: int): (r: int)
    requires IsInt32(c)
    ensures IsInt32(r)
    ensures c < Int32Max ==> r == c + 1
    ensures c == Int32Max ==> r == Int32Min
  {
    if c == Int32Max then Int32Min else c + 1
  }

  /** The key code that is forwarded for `keyCode` when the release counter reads `count`. */
  function ForwardedKeyCode(keyCode: int, count: int): (r: int)
    ensures keyCode != KeycodeMediaPlayPause ==> r == keyCode
    ensures keyCode == KeycodeMediaPlayPause ==> r == KeycodeMediaPlay || r == KeycodeMediaPause
    ensures keyCode == KeycodeMediaPlayPause && count >= 0 ==> (r == KeycodeMediaPlay <==> count % 2 == 0)
  {
    if keyCode == KeycodeMediaPlayPause then
      if JavaRem2(count) == 1 then KeycodeMediaPause else KeycodeMediaPlay
    else keyCode
  }

  /** The release counter after forwarding `keyCode`: only a PLAY_PAUSE release advances it. */
  function NextKeyCount(keyCode: int, isPressed: bool, count: int): (r: int)
    requires IsInt32(count)
    ensures IsInt32(r)
    ensures isPressed || keyCode != KeycodeMediaPlayPause ==> r == count
    ensures keyCode == KeycodeMediaPlayPause && !isPressed && count < Int32Max ==> r == count + 1
    ensures keyCode == KeycodeMediaPlayPause && !isPressed && count == Int32Max ==> r == Int32Min
  {
    if keyCode == KeycodeMediaPlayPause && !isPressed then Int32Increment(count) else count
  }

  /**
   * Every key but PLAY_PAUSE is forwarded unchanged and leaves the counter alone;
   * a press never moves the counter.
   */
  lemma OtherKeysPassThrough(keyCode: int, isPressed: bool, count: int)
    requires IsInt32(count)
    ensures keyCode != KeycodeMediaPlayPause ==>
      ForwardedKeyCode(keyCode, count) == keyCode && NextKeyCount(keyCode, isPressed, count) == count
    ensures isPressed ==> NextKeyCount(keyCode, isPressed, count) == count
  {
  }

  /**
   * While the counter is non-negative, PLAY_PAUSE becomes PLAY at an even count
   * and PAUSE at an odd one; a press and its release forward the same key, and
   * the next press forwards the other one.
   */
  lemma PlayPauseAlternates(count: int)
    requires 0 <= count < Int32Max
    ensures ForwardedKeyCode(KeycodeMediaPlayPause, count) ==
      (if count % 2 == 0 then KeycodeMediaPlay else KeycodeMediaPause)
    ensures NextKeyCount(KeycodeMediaPlayPause, true, count) == count
    ensures NextKeyCount(KeycodeMediaPlayPause, false, count) == count + 1
    ensures ForwardedKeyCode(KeycodeMediaPlayPause, count + 1) != ForwardedKeyCode(KeycodeMediaPlayPause, count)
  {
  }

  /**
   * After 2^31 releases the counter wraps to a negative value, where Java's
   * remainder is 0 or -1 and never 1: from then on PLAY_PAUSE is always sent as PLAY.
   */
  lemma WrappedCounterForwardsPlay(count: int)
    requires Int32Min <= count < 0
    ensures ForwardedKeyCode(KeycodeMediaPlayPause, count) == KeycodeMediaPlay
  {
  }
}
