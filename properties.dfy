/**
 * What the probe promises about its answer parsing and its collection
 * cycle, proved of the model in dnsmasq.dfy.
 */
module DnsmasqProperties {
  import opened Wrappers
  import opened GoStrings
  import Dns
  import opened Dnsmasq
  import opened Strconv

  // ---------------------------------------------------------------------------
  // Records that are not TXT
  // ---------------------------------------------------------------------------

  /** The TXT records of an answer section, in order. */
  function TxtOnly(answer: seq<Dns.RR>): (r: seq<Dns.RR>)
    ensures forall k :: 0 <= k < |r| ==> r[k].TXT?
    ensures |r| <= |answer|
  {
    if answer == [] then []
    else if answer[0].TXT? then [answer[0]] + TxtOnly(answer[1..])
    else TxtOnly(answer[1..])
  }

  /**
   * Records that are not TXT neither write a field nor cause an error:
   * dropping them changes nothing, and a section made only of them leaves
   * the map as it was.
   */
  lemma {:induction false} NonTxtIgnored<V>(answer: seq<Dns.RR>, fields: map<string, V>, parse: string -> Option<V>)
    ensures Answers(answer, fields, parse) == Answers(TxtOnly(answer), fields, parse)
    ensures (forall k :: 0 <= k < |answer| ==> answer[k].Other?) ==> Answers(answer, fields, parse) == Merge(fields, None)
    decreases |answer|
  {
    if answer != [] {
      NonTxtIgnored(answer[1..], fields, parse);
      if answer[0].TXT? {
        var m := Record(answer[0], fields, parse);
        if m.err.None? {
          NonTxtIgnored(answer[1..], m.fields, parse);
        }
        assert TxtOnly(answer)[0] == answer[0];
        assert TxtOnly(answer)[1..] == TxtOnly(answer[1..]);
      } else {
        assert forall k :: 0 <= k < |answer[1..]| ==> answer[1..][k] == answer[k + 1];
      }
    }
  }

  // ---------------------------------------------------------------------------
  // Which keys a merge may write
  // ---------------------------------------------------------------------------

  /** One `servers.bind.` string never removes a key and writes only `queries` and `queries_failed`. */
  lemma ServersEntryKeys<V>(s: string, fields: map<string, V>, parse: string -> Option<V>)
    ensures Preserves(fields, ServersEntry(s, fields, parse).fields, {"queries", "queries_failed"})
  {
  }

  /** A `servers.bind.` record never removes a key and writes only `queries` and `queries_failed`. */
  lemma {:induction false} ServersRecordKeys<V>(txt: seq<string>, fields: map<string, V>, parse: string -> Option<V>)
    ensures Preserves(fields, ServersRecord(txt, fields, parse).fields, {"queries", "queries_failed"})
    decreases |txt|
  {
    if txt != [] {
      var m := ServersEntry(txt[0], fields, parse);
      ServersEntryKeys(txt[0], fields, parse);
      if m.err.None? {
        ServersRecordKeys(txt[1..], m.fields, parse);
      }
    }
  }

  /** A record never removes a key and writes only the keys derived from its own name. */
  lemma RecordKeysOnly<V>(rr: Dns.RR, fields: map<string, V>, parse: string -> Option<V>)
    ensures Preserves(fields, Record(rr, fields, parse).fields, RecordKeys(rr))
  {
    if rr.TXT? && rr.name == ServersName {
      ServersRecordKeys(rr.txt, fields, parse);
    }
  }

  /**
   * Merging an answer section never removes a key, and every key it adds or
   * changes is derived from the name of one of its records.
   */
  lemma {:induction false} AnswersKeysOnly<V>(answer: seq<Dns.RR>, fields: map<string, V>, parse: string -> Option<V>)
    ensures Preserves(fields, Answers(answer, fields, parse).fields, AnswerKeys(answer))
    decreases |answer|
  {
    if answer != [] {
      var m := Record(answer[0], fields, parse);
      RecordKeysOnly(answer[0], fields, parse);
      if m.err.None? {
        AnswersKeysOnly(answer[1..], m.fields, parse);
      }
    }
  }

  // ---------------------------------------------------------------------------
  // The servers.bind. record
  // ---------------------------------------------------------------------------

  /** A `servers.bind.` record fails exactly when one of its text strings is not well formed. */
  lemma {:induction false} ServersRecordFails<V>(txt: seq<string>, fields: map<string, V>, parse: string -> Option<V>)
    ensures ServersRecord(txt, fields, parse).err.Some? <==>
            exists j :: 0 <= j < |txt| && !WellFormedServersText(txt[j], parse)
    decreases |txt|
  {
    if txt != [] {
      var m := ServersEntry(txt[0], fields, parse);
      ServersRecordFails(txt[1..], m.fields, parse);
      if m.err.None? {
        if exists j :: 0 <= j < |txt[1..]| && !WellFormedServersText(txt[1..][j], parse) {
          var j :| 0 <= j < |txt[1..]| && !WellFormedServersText(txt[1..][j], parse);
          assert !WellFormedServersText(txt[j + 1], parse);
        }
        if exists j :: 0 <= j < |txt| && !WellFormedServersText(txt[j], parse) {
          var j :| 0 <= j < |txt| && !WellFormedServersText(txt[j], parse);
          assert j != 0;
          assert !WellFormedServersText(txt[1..][j - 1], parse);
        }
      }
    }
  }

  /**
   * The first bad text string of a `servers.bind.` record decides the error:
   * a wrong token count is reported with the count found, and three tokens
   * that do not parse give a number error.  What the strings before it wrote
   * stays in the map.
   */
  lemma {:induction false} ServersFirstError<V>(txt: seq<string>, j: nat, fields: map<string, V>, parse: string -> Option<V>)
    requires j < |txt|
    requires forall k :: 0 <= k < j ==> WellFormedServersText(txt[k], parse)
    requires !WellFormedServersText(txt[j], parse)
    ensures var r := ServersRecord(txt, fields, parse);
      && r.fields == ServersRecord(txt[..j], fields, parse).fields
      && (|Fields(txt[j])| != 3 ==> r.err == Some(WrongTokenCount(|Fields(txt[j])|, 3)))
      && (|Fields(txt[j])| == 3 ==> r.err.Some? && r.err.value.NotANumber?)
    decreases j
  {
    var m := ServersEntry(txt[0], fields, parse);
    if j > 0 {
      assert WellFormedServersText(txt[0], parse);
      assert txt[1..][..j - 1] == txt[..j][1..];
      ServersFirstError(txt[1..], j - 1, m.fields, parse);
    } else {
      assert txt[..0] == [];
    }
  }

  /** The two counts of a well-formed `servers.bind.` text string. */
  function Queries<V>(s: string, parse: string -> Option<V>): V
    requires WellFormedServersText(s, parse)
  {
    parse(Fields(s)[1]).value
  }

  function QueriesFailed<V>(s: string, parse: string -> Option<V>): V
    requires WellFormedServersText(s, parse)
  {
    parse(Fields(s)[2]).value
  }

  /**
   * With well-formed text strings only, `queries` and `queries_failed` hold
   * the counts of the LAST string: values of several upstream servers are
   * overwritten, not summed, and no other key changes.
   */
  lemma {:induction false} ServersLastWins<V>(txt: seq<string>, fields: map<string, V>, parse: string -> Option<V>)
    requires txt != []
    requires forall k :: 0 <= k < |txt| ==> WellFormedServersText(txt[k], parse)
    ensures var last := txt[|txt| - 1];
      ServersRecord(txt, fields, parse) ==
      Merge(fields["queries" := Queries(last, parse)]["queries_failed" := QueriesFailed(last, parse)], None)
    decreases |txt|
  {
    var s := txt[0];
    var m := ServersEntry(s, fields, parse);
    assert m == Merge(fields["queries" := Queries(s, parse)]["queries_failed" := QueriesFailed(s, parse)], None);
    if |txt| == 1 {
      assert txt[1..] == [];
    } else {
      ServersLastWins(txt[1..], m.fields, parse);
      var last := txt[|txt| - 1];
      assert txt[1..][|txt| - 2] == last;
      OverwriteCounts(fields, Queries(s, parse), QueriesFailed(s, parse), Queries(last, parse), QueriesFailed(last, parse));
    }
  }

  /** Writing both counts again replaces the earlier pair. */
  lemma OverwriteCounts<V>(fields: map<string, V>, q: V, f: V, q': V, f': V)
    ensures fields["queries" := q]["queries_failed" := f]["queries" := q']["queries_failed" := f'] ==
            fields["queries" := q']["queries_failed" := f']
  {
  }

  // ---------------------------------------------------------------------------
  // Other TXT records
  // ---------------------------------------------------------------------------

  /**
   * A TXT record not named `servers.bind.` needs exactly one text string
   * holding a number; the number is stored under the part of the record's
   * name before its first dot and no other key changes.
   */
  lemma SimpleRecordOutcome<V>(name: string, txt: seq<string>, fields: map<string, V>, parse: string -> Option<V>)
    requires name != ServersName
    ensures var r := Answers([Dns.TXT(name, txt)], fields, parse);
      && (|txt| != 1 ==> r == Merge(fields, Some(WrongReplyCount(name, |txt|, 1))))
      && (|txt| == 1 && parse(txt[0]).None? ==> r == Merge(fields, Some(NotANumber(txt[0]))))
      && (|txt| == 1 && parse(txt[0]).Some? ==> r == Merge(fields[FirstSegment(name) := parse(txt[0]).value], None))
  {
    assert [Dns.TXT(name, txt)][1..] == [];
  }

  /** The key of a record named "<segment>.<rest>" is `segment` when it has no dot. */
  lemma FirstSegmentOf(segment: string, rest: string)
    requires '.' !in segment
    ensures FirstSegment(segment + "." + rest) == segment
  {
    var name := segment + "." + rest;
    IndexOfAt(name, '.', |segment|);
    assert name[..|segment|] == segment;
  }

  // ---------------------------------------------------------------------------
  // A whole answer section
  // ---------------------------------------------------------------------------

  /**
   * Records are merged left to right and the merge stops at the first bad
   * record: the section `a + b` is `a` followed by `b` only when `a` succeeds,
   * and otherwise `b` is never looked at and `a`'s writes are kept.
   */
  lemma {:induction false} AnswersAppend<V>(a: seq<Dns.RR>, b: seq<Dns.RR>, fields: map<string, V>, parse: string -> Option<V>)
    ensures var m := Answers(a, fields, parse);
      Answers(a + b, fields, parse) == if m.err.Some? then m else Answers(b, m.fields, parse)
    decreases |a|
  {
    if a == [] {
      assert a + b == b;
    } else {
      var m := Record(a[0], fields, parse);
      assert (a + b)[0] == a[0];
      assert (a + b)[1..] == a[1..] + b;
      if m.err.None? {
        AnswersAppend(a[1..], b, m.fields, parse);
      }
    }
  }

  /**
   * When record `k` is the first to fail, the outcome is that record's
   * error with every field written by the records before it.
   */
  lemma StopsAtFailingRecord<V>(answer: seq<Dns.RR>, k: nat, fields: map<string, V>, parse: string -> Option<V>)
    requires k < |answer|
    requires Answers(answer[..k], fields, parse).err.None?
    requires Record(answer[k], Answers(answer[..k], fields, parse).fields, parse).err.Some?
    ensures Answers(answer, fields, parse) == Record(answer[k], Answers(answer[..k], fields, parse).fields, parse)
  {
    var m := Answers(answer[..k], fields, parse);
    assert answer == answer[..k] + answer[k..];
    AnswersAppend(answer[..k], answer[k..], fields, parse);
    assert answer[k..][0] == answer[k];
  }

  /** Whether a `servers.bind.` record fails does not depend on the map it is merged into. */
  lemma {:induction false} ServersErrorIndependent<V>(txt: seq<string>, f: map<string, V>, g: map<string, V>, parse: string -> Option<V>)
    ensures ServersRecord(txt, f, parse).err == ServersRecord(txt, g, parse).err
    decreases |txt|
  {
    if txt != [] {
      var mf := ServersEntry(txt[0], f, parse);
      var mg := ServersEntry(txt[0], g, parse);
      ServersErrorIndependent(txt[1..], mf.fields, mg.fields, parse);
    }
  }

  /** Whether an answer section fails, and with which error, does not depend on the map. */
  lemma {:induction false} AnswersErrorIndependent<V>(answer: seq<Dns.RR>, f: map<string, V>, g: map<string, V>, parse: string -> Option<V>)
    ensures Answers(answer, f, parse).err == Answers(answer, g, parse).err
    decreases |answer|
  {
    if answer != [] {
      var rr := answer[0];
      if rr.TXT? && rr.name == ServersName {
        ServersErrorIndependent(rr.txt, f, g, parse);
      }
      var mf := Record(rr, f, parse);
      var mg := Record(rr, g, parse);
      AnswersErrorIndependent(answer[1..], mf.fields, mg.fields, parse);
    }
  }

  // ---------------------------------------------------------------------------
  // The collection cycle
  // ---------------------------------------------------------------------------

  /** The exchange for `name` succeeds and its reply merges without error. */
  predicate Answered<V>(name: string, server: string, responder: (Dns.Msg, string) -> Result<Dns.Msg, string>,
                        parse: string -> Option<V>)
  {
    var reply := responder(StatQuery(name), server);
    reply.Success? && Answers(reply.value.answer, map[], parse).err.None?
  }

  /** A cycle succeeds exactly when every name is answered and every reply merges. */
  lemma {:induction false} CollectSucceedsIff<V>(names: seq<string>, server: string,
                                                responder: (Dns.Msg, string) -> Result<Dns.Msg, string>,
                                                parse: string -> Option<V>, fields: map<string, V>)
    ensures Collect(names, server, responder, parse, fields).err.None? <==>
            forall k :: 0 <= k < |names| ==> Answered(names[k], server, responder, parse)
    decreases |names|
  {
    if names != [] {
      var reply := responder(StatQuery(names[0]), server);
      if reply.Success? {
        var m := Answers(reply.value.answer, fields, parse);
        AnswersErrorIndependent(reply.value.answer, fields, map[], parse);
        CollectSucceedsIff(names[1..], server, responder, parse, m.fields);
        assert forall k :: 0 < k < |names| ==> names[1..][k - 1] == names[k];
      }
    }
  }

  /**
   * A failed cycle stops at the first name that is not answered: every name
   * before it was answered, and the transport error or the merge error of the
   * reply there is the cycle's error.
   * With the requests Gather records, no name after it is ever queried.
   */
  lemma {:induction false} CollectStopsAtFirstFailure<V>(names: seq<string>, server: string,
                                                        responder: (Dns.Msg, string) -> Result<Dns.Msg, string>,
                                                        parse: string -> Option<V>, fields: map<string, V>)
    ensures var r := Collect(names, server, responder, parse, fields);
      r.err.Some? ==>
        && (forall k :: 0 <= k < r.asked - 1 ==> Answered(names[k], server, responder, parse))
        && !Answered(names[r.asked - 1], server, responder, parse)
        && (var reply := responder(StatQuery(names[r.asked - 1]), server);
            && (reply.Failure? ==> r.err == Some(Transport(reply.error)))
            && (reply.Success? ==> r.err == Answers(reply.value.answer, map[], parse).err))
    decreases |names|
  {
    if names != [] {
      var reply := responder(StatQuery(names[0]), server);
      if reply.Success? {
        var m := Answers(reply.value.answer, fields, parse);
        AnswersErrorIndependent(reply.value.answer, fields, map[], parse);
        if m.err.None? {
          CollectStopsAtFirstFailure(names[1..], server, responder, parse, m.fields);
          FailureShift(names, server, responder, parse, fields);
        }
      }
    }
  }

  /** The failure point of a cycle past an answered first name is one further than in the rest. */
  lemma FailureShift<V>(names: seq<string>, server: string, responder: (Dns.Msg, string) -> Result<Dns.Msg, string>,
                        parse: string -> Option<V>, fields: map<string, V>)
    requires names != []
    requires Answered(names[0], server, responder, parse)
    ensures var reply := responder(StatQuery(names[0]), server);
      var m := Answers(reply.value.answer, fields, parse);
      var rest := Collect(names[1..], server, responder, parse, m.fields);
      var r := Collect(names, server, responder, parse, fields);
      && r == Cycle(rest.fields, rest.asked + 1, rest.err)
      && (r.err.Some? ==> names[r.asked - 1] == names[1..][rest.asked - 1])
      && (forall k :: 0 < k < r.asked - 1 ==> names[k] == names[1..][k - 1])
  {
    var reply := responder(StatQuery(names[0]), server);
    AnswersErrorIndependent(reply.value.answer, fields, map[], parse);
  }

  /** The field keys of the simple statistics names, in query order. */
  const SimpleKeys: seq<string> := ["cachesize", "insertions", "evictions", "misses", "hits", "auth"]

  /** Each simple statistics name differs from `servers.bind.` and is keyed by the label before ".bind.". */
  lemma MetricKeys()
    ensures forall k :: 0 <= k < 6 ==> Metrics[k] != ServersName && FirstSegment(Metrics[k]) == SimpleKeys[k]
  {
    forall k | 0 <= k < 6
      ensures Metrics[k] != ServersName && FirstSegment(Metrics[k]) == SimpleKeys[k]
    {
      assert Metrics[k] == SimpleKeys[k] + "." + "bind.";
      assert |Metrics[k]| != |ServersName| by {
        assert |SimpleKeys[k]| != 7;
      }
      FirstSegmentOf(SimpleKeys[k], "bind.");
    }
  }

  /** The resolver answers the query for `name` with one TXT record `name` holding `text`. */
  predicate RepliesWith(name: string, text: string, server: string, responder: (Dns.Msg, string) -> Result<Dns.Msg, string>)
  {
    var reply := responder(StatQuery(name), server);
    reply.Success? && reply.value.answer == [Dns.TXT(name, [text])]
  }

  /** A one-record answer section is that record. */
  lemma SingleRecord<V>(rr: Dns.RR, fields: map<string, V>, parse: string -> Option<V>)
    ensures Answers([rr], fields, parse) == Record(rr, fields, parse)
  {
    assert [rr][1..] == [];
  }

  lemma SimpleMetricStep<V>(k: nat, values: seq<string>, server: string,
                            responder: (Dns.Msg, string) -> Result<Dns.Msg, string>,
                            parse: string -> Option<V>, fields: map<string, V>)
    requires k < 6 && |values| == 6
    requires RepliesWith(Metrics[k], values[k], server, responder) && parse(values[k]).Some?
    ensures var rest := Collect(Metrics[k + 1..], server, responder, parse, fields[SimpleKeys[k] := parse(values[k]).value]);
      Collect(Metrics[k..], server, responder, parse, fields) == Cycle(rest.fields, rest.asked + 1, rest.err)
  {
    var rr := Dns.TXT(Metrics[k], [values[k]]);
    MetricKeys();
    assert Metrics[k] != ServersName && FirstSegment(Metrics[k]) == SimpleKeys[k];
    SimpleRecordOutcome(Metrics[k], [values[k]], fields, parse);
    assert Answers([rr], fields, parse) == Merge(fields[SimpleKeys[k] := parse(values[k]).value], None);
    CollectStep(Metrics, k, server, responder, parse, fields);
  }

  lemma ServersMetricStep<V>(line: string, server: string, responder: (Dns.Msg, string) -> Result<Dns.Msg, string>,
                             parse: string -> Option<V>, fields: map<string, V>)
    requires RepliesWith(ServersName, line, server, responder) && WellFormedServersText(line, parse)
    ensures Collect(Metrics[6..], server, responder, parse, fields) ==
            Cycle(fields["queries" := Queries(line, parse)]["queries_failed" := QueriesFailed(line, parse)], 1, None)
  {
    CollectStep(Metrics, 6, server, responder, parse, fields);
    SingleRecord(Dns.TXT(ServersName, [line]), fields, parse);
    ServersLastWins([line], fields, parse);
    assert Metrics[7..] == [];
  }

  /**
   * A cycle in which every simple statistics name is answered with one
   * number and `servers.bind.` with one well-formed line succeeds after all
   * seven queries, with exactly one field per simple name plus the two
   * counts of the line.
   */
  lemma WellFormedCycle<V>(values: seq<string>, line: string, server: string,
                           responder: (Dns.Msg, string) -> Result<Dns.Msg, string>, parse: string -> Option<V>)
    requires |values| == 6
    requires forall k :: 0 <= k < 6 ==> RepliesWith(Metrics[k], values[k], server, responder) && parse(values[k]).Some?
    requires RepliesWith(ServersName, line, server, responder) && WellFormedServersText(line, parse)
    ensures Collect(Metrics, server, responder, parse, map[]) ==
            Cycle(map["cachesize" := parse(values[0]).value,
                      "insertions" := parse(values[1]).value,
                      "evictions" := parse(values[2]).value,
                      "misses" := parse(values[3]).value,
                      "hits" := parse(values[4]).value,
                      "auth" := parse(values[5]).value,
                      "queries" := Queries(line, parse),
                      "queries_failed" := QueriesFailed(line, parse)], 7, None)
  {
    var f0: map<string, V> := map[];
    var f1 := f0["cachesize" := parse(values[0]).value];
    var f2 := f1["insertions" := parse(values[1]).value];
    var f3 := f2["evictions" := parse(values[2]).value];
    var f4 := f3["misses" := parse(values[3]).value];
    var f5 := f4["hits" := parse(values[4]).value];
    var f6 := f5["auth" := parse(values[5]).value];
    var done := f6["queries" := Queries(line, parse)]["queries_failed" := QueriesFailed(line, parse)];
    ServersMetricStep(line, server, responder, parse, f6);
    SimpleMetricStep(5, values, server, responder, parse, f5);
    assert Collect(Metrics[5..], server, responder, parse, f5) == Cycle(done, 2, None);
    SimpleMetricStep(4, values, server, responder, parse, f4);
    assert Collect(Metrics[4..], server, responder, parse, f4) == Cycle(done, 3, None);
    SimpleMetricStep(3, values, server, responder, parse, f3);
    assert Collect(Metrics[3..], server, responder, parse, f3) == Cycle(done, 4, None);
    SimpleMetricStep(2, values, server, responder, parse, f2);
    assert Collect(Metrics[2..], server, responder, parse, f2) == Cycle(done, 5, None);
    SimpleMetricStep(1, values, server, responder, parse, f1);
    assert Collect(Metrics[1..], server, responder, parse, f1) == Cycle(done, 6, None);
    SimpleMetricStep(0, values, server, responder, parse, f0);
    assert Collect(Metrics[0..], server, responder, parse, f0) == Cycle(done, 7, None);
    assert Metrics[0..] == Metrics;
  }

  // ---------------------------------------------------------------------------
  // Configuration
  // ---------------------------------------------------------------------------

  /** Applying the default address twice is the same as applying it once. */
  lemma DefaultedIdempotent(server: string)
    ensures Defaulted(Defaulted(server)) == Defaulted(server)
  {
  }

  // ---------------------------------------------------------------------------
  // Worked replies, with decimal numbers
  // ---------------------------------------------------------------------------

  lemma ServersTextFields()
    ensures Fields("127.0.0.1 42 1340") == ["127.0.0.1", "42", "1340"]
  {
    FieldsJoin(["127.0.0.1", "42", "1340"]);
    assert Join(["127.0.0.1", "42", "1340"], " ") == "127.0.0.1 42 1340";
  }

  lemma DigitsSnoc(s: string, c: char)
    requires AllDigits(s) && IsDigit(c)
    ensures AllDigits(s + [c])
    ensures DigitsValue(s + [c]) == DigitsValue(s) * 10 + (c as int - '0' as int)
  {
    assert (s + [c])[..|s|] == s;
  }

  lemma ParseExamples()
    ensures ParseDecimal("5") == Some(5)
    ensures ParseDecimal("42") == Some(42)
    ensures ParseDecimal("1340") == Some(1340)
  {
    DigitsSnoc([], '5');
    assert "5" == [] + ['5'];
    DigitsSnoc([], '4');
    DigitsSnoc("4", '2');
    assert "42" == "4" + ['2'];
    DigitsSnoc([], '1');
    DigitsSnoc("1", '3');
    DigitsSnoc("13", '4');
    DigitsSnoc("134", '0');
    assert "1340" == "134" + ['0'];
    assert "134" == "13" + ['4'];
    assert "13" == "1" + ['3'];
    assert "4" == [] + ['4'];
    assert "1" == [] + ['1'];
  }

  /** "127.0.0.1 42 1340" under `servers.bind.` gives queries 42 and queries_failed 1340. */
  lemma ServersExample()
    ensures Answers([Dns.TXT(ServersName, ["127.0.0.1 42 1340"])], map[], ParseDecimal) ==
            Merge(map["queries" := 42, "queries_failed" := 1340], None)
  {
    ServersTextFields();
    ParseExamples();
    var s := "127.0.0.1 42 1340";
    assert WellFormedServersText(s, ParseDecimal);
    assert Queries(s, ParseDecimal) == 42;
    assert QueriesFailed(s, ParseDecimal) == 1340;
    ServersLastWins([s], map[], ParseDecimal);
    assert [Dns.TXT(ServersName, [s])][1..] == [];
  }

  /** "5" under `hits.bind.` gives hits 5. */
  lemma HitsExample()
    ensures Answers([Dns.TXT("hits.bind.", ["5"])], map[], ParseDecimal) == Merge(map["hits" := 5], None)
  {
    FirstSegmentOf("hits", "bind.");
    assert "hits.bind." == "hits" + "." + "bind.";
    ParseExamples();
    SimpleRecordOutcome("hits.bind.", ["5"], map[], ParseDecimal);
  }
}
