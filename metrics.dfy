/** The part of the metrics library the collector uses: series descriptors,
    gauge samples, and the channels they are sent on. */
module Metrics {

  /** A series descriptor: its fully-qualified name and its help text. */
  datatype Desc = Desc(fqName: string, help: string)

  /** A constant gauge sample: the series it belongs to and its value. */
  datatype Metric = Metric(desc: Desc, value: real)

  /** A channel seen from the receiving side: everything sent on it, in order. */
  class Channel<T> {
    var sent: seq<T>

    constructor ()
      ensures sent == []
    {
      sent := [];
    }

    /** `ch <- x` */
    method Send(x: T)
      modifies this
      ensures sent == old(sent) + [x]
    {
      sent := sent + [x];
    }
  }
}
