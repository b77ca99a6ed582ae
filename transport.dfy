/** The two-wire bus as the driver sees it: a read either fails or yields a
    fixed four-byte frame; a write either succeeds or fails. The outcomes are
    chosen by the bus, so the driver's methods take them as parameters. */
module Transport {

  /** An outcome that may be missing; `None` is a failed bus transaction. */
  datatype Option<+T> = None | Some(value: T)

  /** The four bytes every read of the device requests and receives. */
  type Frame = s: seq<bv8> | |s| == 4 witness [0, 0, 0, 0]
}
