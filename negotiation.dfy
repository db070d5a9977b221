/** The decisions `parse_hello` takes on the client's capabilities, beyond reading them. */
module Negotiation {
  import opened Common

  /** Desktop dimensions must lie in (0, 32768). */
  const MAX_DESKTOP_DIMENSION: int := 32768

  predicate ValidDimension(d: int) { 0 < d < MAX_DESKTOP_DIMENSION }

  /** The client's `desktop_size`, dropped (set to None, not an error) when either side is out of range. */
  function CheckedDesktopSize(size: Option<(int, int)>): (r: Option<(int, int)>)
    ensures r.Some? <==> size.Some? && ValidDimension(size.value.0) && ValidDimension(size.value.1)
    ensures r.Some? ==> r == size
  {
    match size
    case None => None
    case Some((w, h)) => if w <= 0 || h <= 0 || w >= MAX_DESKTOP_DIMENSION || h >= MAX_DESKTOP_DIMENSION then None else size
  }

  /**
   * The session's bandwidth limit: the client's when the server sets none, otherwise the
   * smaller of the two (so a client limit of 0 gives 0), and 0 whenever mmap is in use.
   */
  function NegotiatedBandwidthLimit(serverLimit: int, clientLimit: int, mmapSize: int): (r: int)
    ensures mmapSize > 0 ==> r == 0
    ensures mmapSize <= 0 && serverLimit <= 0 ==> r == clientLimit
    ensures mmapSize <= 0 && serverLimit > 0 ==> r <= serverLimit && r <= clientLimit && (r == serverLimit || r == clientLimit)
  {
    if mmapSize > 0 then 0
    else if serverLimit <= 0 then clientLimit
    else Min(serverLimit, clientLimit)
  }

  /** `desktops or 1`: a count of 0 means one desktop. */
  function DesktopCount(desktops: int): (r: int)
    ensures r != 0
    ensures desktops != 0 ==> r == desktops
  {
    if desktops == 0 then 1 else desktops
  }

  /** A client asking for 40000 x 10 gets no desktop size. */
  lemma OversizedDesktopDropped()
    ensures CheckedDesktopSize(Some((40000, 10))).None?
  {
  }

  /** A client limit of 0 under a positive server limit yields 0. */
  lemma ZeroClientLimit(serverLimit: int)
    requires serverLimit > 0
    ensures NegotiatedBandwidthLimit(serverLimit, 0, 0) == 0
  {
  }
}
