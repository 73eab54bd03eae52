/**
 * The dnsmasq statistics probe: it asks a dnsmasq resolver for its cache
 * counters with TXT queries in the CHAOS class, merges the numbers in the
 * replies into one field map, and reports that map as a single data point.
 *
 * The number parser (`strconv.ParseFloat` in the probe) is a parameter
 * `parse` over an arbitrary value type `V`; the resolver is the responder
 * of the DNS client; the host name is an input.
 */
module Dnsmasq {
  import opened Wrappers
  import opened GoStrings
  import Dns
  import Telegraf

  /** Name of the composite record with per-upstream-server counts. */
  const ServersName: string := "servers.bind."
  /** Resolver address used when none is configured. */
  const DefaultServer: string := "127.0.0.1:53"
  /** Measurement name of the data point. */
  const MeasurementName: string := "dnsmasq"

  /** The statistics names queried in one cycle, in query order. */
  const Metrics: seq<string> := [
    "cachesize.bind.",
    "insertions.bind.",
    "evictions.bind.",
    "misses.bind.",
    "hits.bind.",
    "auth.bind.",
    ServersName
  ]

  /** Why a cycle stops; the counts mirror the probe's error messages. */
  datatype Error =
    | WrongTokenCount(got: nat, want: nat)
    | WrongReplyCount(name: string, got: nat, want: nat)
    | NotANumber(text: string)
    | Transport(message: string)
    | NoHostname(message: string)

  /** The field map after merging some records, and the error that stopped the merge, if any. */
  datatype Merge<V> = Merge(fields: map<string, V>, err: Option<Error>)

  /** Where a cycle ended: the field map, how many names were queried, and the error if any. */
  datatype Cycle<V> = Cycle(fields: map<string, V>, asked: nat, err: Option<Error>)

  /** `g` has every key of `f`, no key outside `f` and `keys`, and agrees with `f` outside `keys`. */
  ghost predicate Preserves<V>(f: map<string, V>, g: map<string, V>, keys: set<string>)
  {
    && f.Keys <= g.Keys <= f.Keys + keys
    && forall k :: k in f && k !in keys ==> g[k] == f[k]
  }

  // ---------------------------------------------------------------------------
  // Answer records
  // ---------------------------------------------------------------------------

  /** A `servers.bind.` text string is "<label> <queries> <failed>" with both counts parsing. */
  predicate WellFormedServersText<V>(s: string, parse: string -> Option<V>)
  {
    var arr := Fields(s);
    |arr| == 3 && parse(arr[1]).Some? && parse(arr[2]).Some?
  }

  /** One text string of the `servers.bind.` record. */
  function ServersEntry<V>(s: string, fields: map<string, V>, parse: string -> Option<V>): (r: Merge<V>)
    ensures r.err.None? <==> WellFormedServersText(s, parse)
    ensures r.err.Some? ==> r.fields == fields
  {
    var arr := Fields(s);
    if |arr| != 3 then Merge(fields, Some(WrongTokenCount(|arr|, 3)))
    else match parse(arr[1])
      case None => Merge(fields, Some(NotANumber(arr[1])))
      case Some(queries) =>
        match parse(arr[2])
        case None => Merge(fields, Some(NotANumber(arr[2])))
        case Some(failed) => Merge(fields["queries" := queries]["queries_failed" := failed], None)
  }

  /** The text strings of a `servers.bind.` record, in order, up to the first bad one. */
  function ServersRecord<V>(txt: seq<string>, fields: map<string, V>, parse: string -> Option<V>): (r: Merge<V>)
    ensures fields.Keys <= r.fields.Keys
    ensures txt != [] && r.err.None? ==> "queries" in r.fields && "queries_failed" in r.fields
    decreases |txt|
  {
    if txt == [] then Merge(fields, None)
    else
      var m := ServersEntry(txt[0], fields, parse);
      if m.err.Some? then m else ServersRecord(txt[1..], m.fields, parse)
  }

  /** Any other TXT record: one text string, stored under the name's first segment. */
  function SimpleRecord<V>(name: string, txt: seq<string>, fields: map<string, V>, parse: string -> Option<V>): (r: Merge<V>)
    ensures r.err.Some? ==> r.fields == fields
  {
    if |txt| != 1 then Merge(fields, Some(WrongReplyCount(name, |txt|, 1)))
    else match parse(txt[0])
      case None => Merge(fields, Some(NotANumber(txt[0])))
      case Some(f) =>
        var names := Split(name, '.');
        if |names| > 0 then Merge(fields[names[0] := f], None) else Merge(fields, None)
  }

  /** The keys a record may write. */
  function RecordKeys(rr: Dns.RR): set<string>
  {
    match rr
    case TXT(name, _) => if name == ServersName then {"queries", "queries_failed"} else {FirstSegment(name)}
    case Other(_, _) => {}
  }

  /** One answer record: TXT records are dispatched on their own name, others are skipped. */
  function Record<V>(rr: Dns.RR, fields: map<string, V>, parse: string -> Option<V>): (r: Merge<V>)
    ensures rr.Other? ==> r == Merge(fields, None)
  {
    match rr
    case TXT(name, txt) =>
      if name == ServersName then ServersRecord(txt, fields, parse) else SimpleRecord(name, txt, fields, parse)
    case Other(_, _) => Merge(fields, None)
  }

  /** The keys the records of an answer section may write. */
  function AnswerKeys(answer: seq<Dns.RR>): set<string>
  {
    if answer == [] then {} else RecordKeys(answer[0]) + AnswerKeys(answer[1..])
  }

  /** The answer section, record by record, up to the first bad record. */
  function Answers<V>(answer: seq<Dns.RR>, fields: map<string, V>, parse: string -> Option<V>): (r: Merge<V>)
    ensures fields.Keys <= r.fields.Keys
    ensures r.err.Some? ==> exists k :: 0 <= k < |answer| && answer[k].TXT?
    decreases |answer|
  {
    if answer == [] then Merge(fields, None)
    else
      var m := Record(answer[0], fields, parse);
      if m.err.Some? then m else Answers(answer[1..], m.fields, parse)
  }

  /**
   * `processResponse`: merges the numbers carried by the TXT answers of
   * `response` into `fields`.  The field map is returned as it stands when
   * the merge stops, with the error that stopped it.  `metricName` is not
   * used, as in the probe.
   */
  method ProcessResponse<V>(response: Dns.Msg, metricName: string, fields: map<string, V>, parse: string -> Option<V>)
    returns (fields': map<string, V>, err: Option<Error>)
    ensures Merge(fields', err) == Answers(response.answer, fields, parse)
  {
    var answer := response.answer;
    fields' := fields;
    var i := 0;
    while i < |answer|
      invariant 0 <= i <= |answer|
      invariant Answers(answer, fields, parse) == Answers(answer[i..], fields', parse)
    {
      assert answer[i..][1..] == answer[i + 1..];
      var a := answer[i];
      if !a.TXT? {
        i := i + 1;
        continue;
      }
      if a.name == ServersName {
        ghost var before := fields';
        var j := 0;
        while j < |a.txt|
          invariant 0 <= j <= |a.txt|
          invariant ServersRecord(a.txt, before, parse) == ServersRecord(a.txt[j..], fields', parse)
        {
          assert a.txt[j..][1..] == a.txt[j + 1..];
          var arr := Fields(a.txt[j]);
          if |arr| != 3 {
            return fields', Some(WrongTokenCount(|arr|, 3));
          }
          var queries := parse(arr[1]);
          if queries.None? {
            return fields', Some(NotANumber(arr[1]));
          }
          var failed := parse(arr[2]);
          if failed.None? {
            return fields', Some(NotANumber(arr[2]));
          }
          fields' := fields'["queries" := queries.value];
          fields' := fields'["queries_failed" := failed.value];
          j := j + 1;
        }
      } else {
        if |a.txt| != 1 {
          return fields', Some(WrongReplyCount(a.name, |a.txt|, 1));
        }
        var f := parse(a.txt[0]);
        if f.None? {
          return fields', Some(NotANumber(a.txt[0]));
        }
        var names := Split(a.name, '.');
        if |names| > 0 {
          fields' := fields'[names[0] := f.value];
        }
      }
      i := i + 1;
    }
    err := None;
  }

  // ---------------------------------------------------------------------------
  // Queries and configuration
  // ---------------------------------------------------------------------------

  /** `question`: the statistics question for `name`, a TXT query in the CHAOS class. */
  function Question(name: string): (q: Dns.Question)
    ensures q.name == name
    ensures q.qtype == Dns.TypeTXT && q.qclass == Dns.ClassCHAOS
  {
    Dns.Question(name, Dns.TypeTXT, Dns.ClassCHAOS)
  }

  /** The request message for one statistics name, with recursion desired. */
  function StatQuery(name: string): (m: Dns.Msg)
    ensures m.recursionDesired && m.question == [Question(name)] && m.answer == []
  {
    Dns.Msg(true, [Question(name)], [])
  }

  /** The requests a cycle sends for `names`, in order. */
  function Sent(names: seq<string>, server: string): (r: seq<(Dns.Msg, string)>)
    ensures |r| == |names|
  {
    if names == [] then [] else Sent(names[..|names| - 1], server) + [(StatQuery(names[|names| - 1]), server)]
  }

  /** The effective resolver address: the configured one, or the default when it is empty. */
  function Defaulted(server: string): (r: string)
    ensures r != ""
    ensures server != "" ==> r == server
    ensures server == "" ==> r == DefaultServer
  {
    if server == "" then DefaultServer else server
  }

  /** Tags of the data point: the resolver address and the host name's first segment. */
  function Tags(server: string, hostname: string): (r: map<string, string>)
    ensures r.Keys == {"server", "host"} && r["server"] == server
    ensures r["host"] <= hostname && '.' !in r["host"]
    ensures |r["host"]| < |hostname| ==> hostname[|r["host"]|] == '.'
  {
    map["server" := server, "host" := FirstSegment(hostname)]
  }

  // ---------------------------------------------------------------------------
  // Collection cycle
  // ---------------------------------------------------------------------------

  /**
   * The names of a cycle, one exchange and one merge each, stopping at the
   * first transport or parse error.
   */
  function Collect<V>(names: seq<string>, server: string, responder: (Dns.Msg, string) -> Result<Dns.Msg, string>,
                      parse: string -> Option<V>, fields: map<string, V>): (r: Cycle<V>)
    ensures r.asked <= |names|
    ensures r.err.None? ==> r.asked == |names|
    ensures r.err.Some? ==> 1 <= r.asked
    decreases |names|
  {
    if names == [] then Cycle(fields, 0, None)
    else match responder(StatQuery(names[0]), server)
      case Failure(e) => Cycle(fields, 1, Some(Transport(e)))
      case Success(reply) =>
        var m := Answers(reply.answer, fields, parse);
        if m.err.Some? then Cycle(m.fields, 1, m.err)
        else
          var rest := Collect(names[1..], server, responder, parse, m.fields);
          Cycle(rest.fields, rest.asked + 1, rest.err)
  }

  /** Logging the request for the `i`-th name extends the log of the first `i` requests. */
  lemma SentStep(log: seq<(Dns.Msg, string)>, names: seq<string>, i: nat, server: string)
    requires i < |names|
    ensures log + Sent(names[..i + 1], server) == (log + Sent(names[..i], server)) + [(StatQuery(names[i]), server)]
  {
    assert names[..i + 1][..i] == names[..i];
  }

  /** One step of a cycle, seen from the `i`-th name on. */
  lemma CollectStep<V>(names: seq<string>, i: nat, server: string, responder: (Dns.Msg, string) -> Result<Dns.Msg, string>,
                       parse: string -> Option<V>, fields: map<string, V>)
    requires i < |names|
    ensures var reply := responder(StatQuery(names[i]), server);
      reply.Failure? ==> Collect(names[i..], server, responder, parse, fields) == Cycle(fields, 1, Some(Transport(reply.error)))
    ensures var reply := responder(StatQuery(names[i]), server);
      reply.Success? ==>
        var m := Answers(reply.value.answer, fields, parse);
        var rest := Collect(names[i + 1..], server, responder, parse, m.fields);
        Collect(names[i..], server, responder, parse, fields) ==
          if m.err.Some? then Cycle(m.fields, 1, m.err) else Cycle(rest.fields, rest.asked + 1, rest.err)
  {
    assert names[i..][0] == names[i];
    assert names[i..][1..] == names[i + 1..];
  }

  /** The probe instance: its DNS client and its configured resolver address. */
  class Dnsmasq {
    const c: Dns.Client
    var server: string

    constructor (c: Dns.Client, server: string)
      ensures this.c == c && this.server == server
    {
      this.c := c;
      this.server := server;
    }

    /** `setDefaultValues`: an empty resolver address becomes the default one. */
    method SetDefaultValues()
      modifies this`server
      ensures server == Defaulted(old(server))
    {
      if server == "" {
        server := DefaultServer;
      }
    }

    /**
     * `Gather`: one collection cycle.  It applies the default address, reads
     * the host name, queries every statistics name in order and, only when
     * every exchange and every merge succeeded, hands one data point to `acc`.
     */
    method Gather<V>(acc: Telegraf.Accumulator<V>, hostname: Result<string, string>, parse: string -> Option<V>)
      returns (err: Option<Error>)
      modifies this`server, c, acc
      ensures server == Defaulted(old(server))
      ensures hostname.Failure? ==>
        && err == Some(NoHostname(hostname.error))
        && c.sent == old(c.sent)
        && acc.added == old(acc.added)
      ensures hostname.Success? ==> err == Collect(Metrics, server, c.responder, parse, map[]).err
      ensures hostname.Success? ==>
        c.sent == old(c.sent) + Sent(Metrics[..Collect(Metrics, server, c.responder, parse, map[]).asked], server)
      ensures hostname.Success? && err.None? ==>
        var fields := Collect(Metrics, server, c.responder, parse, map[]).fields;
        acc.added == old(acc.added) + [Telegraf.Measurement(MeasurementName, fields, Tags(server, hostname.value))]
      ensures hostname.Success? && err.Some? ==> acc.added == old(acc.added)
    {
      SetDefaultValues();
      var fields: map<string, V> := map[];
      if hostname.Failure? {
        return Some(NoHostname(hostname.error));
      }
      var tags := Tags(server, hostname.value);
      ghost var run := Collect(Metrics, server, c.responder, parse, map[]);
      var i := 0;
      while i < |Metrics|
        invariant 0 <= i <= |Metrics|
        invariant server == Defaulted(old(server))
        invariant c.sent == old(c.sent) + Sent(Metrics[..i], server)
        invariant acc.added == old(acc.added)
        invariant var rest := Collect(Metrics[i..], server, c.responder, parse, fields);
          run == Cycle(rest.fields, rest.asked + i, rest.err)
      {
        SentStep(old(c.sent), Metrics, i, server);
        CollectStep(Metrics, i, server, c.responder, parse, fields);
        var reply := c.Exchange(StatQuery(Metrics[i]), server);
        if reply.Failure? {
          assert run == Cycle(fields, i + 1, Some(Transport(reply.error)));
          return Some(Transport(reply.error));
        }
        var e;
        fields, e := ProcessResponse(reply.value, Metrics[i], fields, parse);
        if e.Some? {
          assert run == Cycle(fields, i + 1, e);
          return e;
        }
        i := i + 1;
      }
      assert Metrics[i..] == [];
      assert run == Cycle(fields, |Metrics|, None);
      acc.AddFields(MeasurementName, fields, tags);
      err := None;
    }
  }
}
