/**
 * The slice of the DNS message format (RFC 1035) that the probe reads and
 * writes, and a client that performs one request/response exchange.
 */
module Dns {
  import opened Wrappers

  /** TYPE value of a TXT record (section 3.2.2 of RFC 1035). */
  const TypeTXT: nat := 16
  /** CLASS value of the CHAOS class (section 3.2.4 of RFC 1035). */
  const ClassCHAOS: nat := 3

  datatype Question = Question(name: string, qtype: nat, qclass: nat)

  /** An answer record: a TXT record with its text strings, or any other type. */
  datatype RR =
    | TXT(name: string, txt: seq<string>)
    | Other(name: string, rrtype: nat)

  datatype Msg = Msg(recursionDesired: bool, question: seq<Question>, answer: seq<RR>)

  /**
   * A DNS client.  What the resolver answers at an address is the function
   * `responder`; `sent` records every request the client has sent, in order.
   */
  class Client {
    const responder: (Msg, string) -> Result<Msg, string>
    var sent: seq<(Msg, string)>

    constructor (responder: (Msg, string) -> Result<Msg, string>)
      ensures this.responder == responder && sent == []
    {
      this.responder := responder;
      sent := [];
    }

    /** Sends `m` to `address` and returns the reply or a transport error. */
    method Exchange(m: Msg, address: string) returns (r: Result<Msg, string>)
      modifies this
      ensures sent == old(sent) + [(m, address)]
      ensures r == responder(m, address)
    {
      sent := sent + [(m, address)];
      r := responder(m, address);
    }
  }
}
