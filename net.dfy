/**
 * The parts of Go's `net` package that the DNS cache relies on: IP values,
 * the resolver's address records, resolution errors, and the name-resolution
 * backend itself, which stands for the network and is given as an oracle.
 */
module Net {

  /** An IP address, as the raw bytes Go keeps in a `net.IP` slice. */
  datatype IP = IP(octets: seq<bv8>)

  /** One record of a resolver answer: Go's `net.IPAddr` (address and IPv6 zone). */
  datatype IPAddr = IPAddr(ip: IP, zone: string)

  /** An opaque resolution failure, passed through verbatim. */
  datatype Error = Error(message: string)

  /** Go's "no value" (`nil`) for an optional result. */
  datatype Option<T> = None | Some(value: T)

  /**
   * Go's `(value, error)` pair: `Ok(v)` is `(v, nil)`, and `Err(e)` is the zero
   * value of the result type (a nil slice, a nil IP, an empty string)
   * together with the non-nil error `e`.
   */
  datatype Result<T> = Ok(value: T) | Err(error: Error)

  /** What resolving each host name yields at present: the state of DNS. */
  type Answers = string -> Result<seq<IPAddr>>

  /**
   * The name-resolution backend (Go's `*net.Resolver`). Each call answers
   * from `answers`; the ghost log `asked` records every host name it was
   * asked about, in order, so that `|asked|` counts the backend calls.
   * `answers` is a variable because what DNS says may change between calls.
   */
  class Resolver {
    var answers: Answers
    ghost var asked: seq<string>

    constructor (answers: Answers)
      ensures this.answers == answers && asked == []
    {
      this.answers := answers;
      asked := [];
    }

    /** One live lookup of `host`: `LookupIPAddr(ctx, host)`. */
    method LookupIPAddr(host: string) returns (r: Result<seq<IPAddr>>)
      modifies this
      ensures answers == old(answers)
      ensures asked == old(asked) + [host]
      ensures r == answers(host)
    {
      r := answers(host);
      asked := asked + [host];
    }
  }
}
