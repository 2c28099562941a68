/**
 * The io.WriteCloser that Caddy writes log lines to (writer.go): every
 * Write sends one labelled entry to the Loki client, and Close stops the
 * client. The client's entry channel is the queue of entries sent so far;
 * the clock reading of a Write is a parameter.
 */
module Writer {
  import opened Wrappers

  newtype byte = x: int | 0 <= x < 256

  /** api.Entry: the stream labels, the timestamp and the log line. */
  datatype Entry = Entry(Labels: map<string, string>, Timestamp: int, Line: seq<byte>)

  /** The Loki client as the writer sees it: its entry channel and its stop requests. */
  class Client {
    /** Every entry sent on the channel, oldest first. */
    var Chan: seq<Entry>
    /** How many times StopNow was called. */
    var StopRequests: nat

    constructor ()
      ensures Chan == [] && StopRequests == 0
    {
      Chan := [];
      StopRequests := 0;
    }
  }

  /** The label set of newLokiWriter: every pair of the map copied, one key at a time. */
  method LabelSetOf(labels: map<string, string>) returns (lbs: map<string, string>)
    ensures lbs == labels
  {
    lbs := map[];
    var rest := labels.Keys;
    while rest != {}
      invariant rest <= labels.Keys
      invariant lbs.Keys == labels.Keys - rest
      invariant forall k :: k in lbs ==> lbs[k] == labels[k]
      decreases rest
    {
      var k :| k in rest;
      lbs := lbs[k := labels[k]];
      rest := rest - {k};
    }
  }

  class LokiWriter {
    const client: Client
    const lbs: map<string, string>

    /** newLokiWriter: the writer sends to the client's channel with the labels given. */
    constructor (client: Client, labels: map<string, string>)
      ensures this.client == client && lbs == labels
    {
      var l := LabelSetOf(labels);
      this.client := client;
      lbs := l;
    }

    /**
     * Write: one entry carrying the writer's labels, the clock reading
     * `now` and the bytes of p, appended to the channel; the whole of p is
     * reported written.
     */
    method Write(p: seq<byte>, now: int) returns (n: int, err: Option<string>)
      modifies client
      ensures client.Chan == old(client.Chan) + [Entry(lbs, now, p)]
      ensures client.StopRequests == old(client.StopRequests)
      ensures n == |p| && err == None
    {
      var entry := Entry(lbs, now, p);
      client.Chan := client.Chan + [entry];
      return |p|, None;
    }

    /** Close: one immediate stop requested of the client; nothing is sent and no error returned. */
    method Close() returns (err: Option<string>)
      modifies client
      ensures client.StopRequests == old(client.StopRequests) + 1
      ensures client.Chan == old(client.Chan)
      ensures err == None
    {
      client.StopRequests := client.StopRequests + 1;
      return None;
    }
  }

  /**
   * Two writes send two entries in the order of the calls, each with the
   * writer's labels and its own clock reading.
   */
  method WriteTwice(w: LokiWriter, p: seq<byte>, q: seq<byte>, t1: int, t2: int)
    returns (n1: int, n2: int)
    modifies w.client
    ensures w.client.Chan == old(w.client.Chan) + [Entry(w.lbs, t1, p), Entry(w.lbs, t2, q)]
    ensures w.client.StopRequests == old(w.client.StopRequests)
    ensures n1 == |p| && n2 == |q|
  {
    var e1, e2;
    n1, e1 := w.Write(p, t1);
    n2, e2 := w.Write(q, t2);
  }
}
