# dnsmasq statistics probe, modelled in Dafny

This project models the telegraf input plugin that reads cache statistics
from a dnsmasq resolver. In one collection cycle the probe does four things:

- It applies the default resolver address `127.0.0.1:53` when none is configured.
- It tags the data point with that address and with the host name's first dot-separated segment.
- It sends seven TXT questions in the CHAOS class, in a fixed order: `cachesize.bind.`, `insertions.bind.`, `evictions.bind.`, `misses.bind.`, `hits.bind.`, `auth.bind.`, `servers.bind.`.
- It merges the numbers in the replies into one field map and reports it as a single `dnsmasq` measurement. This happens only when every exchange and every reply succeeded.

Reply parsing works as follows:

- Records that are not TXT are skipped.
- Each text string of the composite `servers.bind.` record must split on white space into exactly three tokens. The second and third tokens become `queries` and `queries_failed`, and a later string overwrites an earlier one.
- Every other TXT record must carry exactly one text string. Its number is stored under the part of the record name before the first dot.
- The first bad record stops the merge. Fields written before it stay in the map.

Files and modules:

- `dnsmasq.dfy` (`Dnsmasq`) is the probe itself. It holds:
  - the merge of reply records as functions (`ServersEntry`, `ServersRecord`, `SimpleRecord`, `Record`, `Answers`);
  - `ProcessResponse`, the imperative record loop, proved equal to `Answers`;
  - `Question`, `Defaulted`, and the cycle function `Collect`;
  - the class `Dnsmasq`, whose `SetDefaultValues` and `Gather` update its `server` field, query through its DNS client and report to the accumulator.
- `properties.dfy` (`DnsmasqProperties`) holds the lemmas that state what the probe promises.
- `gostrings.dfy` (`GoStrings`) models Go's `strings.Fields`, `strings.Split` and `strings.Join`, with their round trips.
- `strconv.dfy` (`Strconv`) is a decimal parser for natural numbers. It is used only to instantiate the probe on concrete replies.
- `dns.dfy` (`Dns`) holds DNS messages, records, the TXT type code and the CHAOS class code. It also has a client whose resolver is a function and which logs every request it sends.
- `telegraf.dfy` (`Telegraf`) holds the accumulator, which logs every data point it receives.
- `wrappers.dfy` (`Wrappers`) holds `Option` and `Result`.

Collaborators that are abstracted:

- The number parser (`strconv.ParseFloat`) is a parameter `parse: string -> Option<V>` over an arbitrary value type `V`.
- The resolver is the `responder` function of the DNS client.
- The host name lookup is an input `Result<string, string>`.

Two behaviours of the source that a reader might not expect:

- A malformed `servers.bind.` record is merged in part. When a later text string of the record is bad, the counts written by the earlier strings of that record stay in the map (plugins/inputs/dnsmasq/dnsmasq.go:95-110). `ServersFirstError` states this.
- `question` does not check its name (plugins/inputs/dnsmasq/dnsmasq.go:134-140), so `Question` accepts any name, the empty one included.

## Model

| member | source | states |
|---|---|---|
| `GoStrings.Fields` | plugins/inputs/dnsmasq/dnsmasq.go:96 | `strings.Fields`: every field is non-empty and holds no white space; that the fields are exactly the maximal non-space runs, in order, is stated by `FieldsSingle` and `FieldsSpace` |
| `GoStrings.FieldsSingle` | plugins/inputs/dnsmasq/dnsmasq.go:96 | a non-empty text without white space is exactly one field, itself |
| `GoStrings.FieldsSpace` | plugins/inputs/dnsmasq/dnsmasq.go:96 | any white-space character (tab, newline, Unicode space, leading, trailing or repeated) separates fields: the fields of `a + [c] + b` are those of `a` followed by those of `b`; with `FieldsSingle` and `Fields([]) == []` this fixes `Fields` on every text |
| `GoStrings.FieldsJoin` | plugins/inputs/dnsmasq/dnsmasq.go:96 | splitting non-empty space-free tokens joined by single spaces gives back exactly those tokens |
| `GoStrings.Split` | plugins/inputs/dnsmasq/dnsmasq.go:119-120 | `strings.Split` returns at least one piece, so the `len(names) > 0` guard always holds; no piece contains the separator |
| `GoStrings.JoinSplit` | plugins/inputs/dnsmasq/dnsmasq.go:119 | joining the pieces of a split with the separator gives back the original text |
| `GoStrings.SplitJoin` | plugins/inputs/dnsmasq/dnsmasq.go:119 | splitting separator-free pieces joined by the separator gives back the pieces |
| `GoStrings.FirstSegment` | plugins/inputs/dnsmasq/dnsmasq.go:119-121 | the first piece of a split on "." is the longest dot-free prefix of the name, either the whole name or followed by a dot |
| `Strconv.ParseDecimal` | plugins/inputs/dnsmasq/dnsmasq.go:115 | the stand-in parser succeeds exactly on non-empty strings of decimal digits |
| `Strconv.ParseFormat` | plugins/inputs/dnsmasq/dnsmasq.go:115 | parsing the decimal rendering of a natural number gives the number back |
| `Dns.Client.Exchange` | plugins/inputs/dnsmasq/dnsmasq.go:73 | one exchange appends the request and its address to the client's log and returns the resolver's answer to it |
| `Telegraf.Accumulator.AddFields` | plugins/inputs/dnsmasq/dnsmasq.go:83 | one call appends exactly one data point with the given name, fields and tags |
| `Dnsmasq.ServersEntry` | plugins/inputs/dnsmasq/dnsmasq.go:96-109 | one `servers.bind.` string succeeds exactly when it has three tokens whose 2nd and 3rd parse; a rejected string writes nothing |
| `Dnsmasq.ServersRecord` | plugins/inputs/dnsmasq/dnsmasq.go:95-110 | the loop over the record's strings never removes a key, and when it succeeds on a non-empty record both `queries` and `queries_failed` are set; its error condition is stated by `ServersRecordFails` and `ServersFirstError`, its values by `ServersLastWins` |
| `Dnsmasq.SimpleRecord` | plugins/inputs/dnsmasq/dnsmasq.go:112-122 | a rejected simple record (wrong string count or unparseable value) leaves the map as it was |
| `Dnsmasq.Record` | plugins/inputs/dnsmasq/dnsmasq.go:89-92 | a record that is not TXT leaves the map unchanged and is no error |
| `Dnsmasq.Answers` | plugins/inputs/dnsmasq/dnsmasq.go:88-125 | the loop over the answer section never removes a key, and an error always comes from a TXT record; its merge order and stop at the first failure are stated by `AnswersAppend` and `StopsAtFailingRecord`, its skipping of other records by `NonTxtIgnored` |
| `Dnsmasq.ProcessResponse` | plugins/inputs/dnsmasq/dnsmasq.go:87-126 | the nested record/text loops with early error returns compute exactly `Answers`: the map as it stands at the first bad record, with that record's error |
| `Dnsmasq.Question` | plugins/inputs/dnsmasq/dnsmasq.go:134-140 | the question carries the given name unchanged, type TXT (16) and class CHAOS (3) |
| `Dnsmasq.StatQuery` | plugins/inputs/dnsmasq/dnsmasq.go:64-72 | the request for a name asks for recursion and carries exactly one question, `Question(name)` |
| `Dnsmasq.Tags` | plugins/inputs/dnsmasq/dnsmasq.go:50-53 | the tags are exactly `server` and `host`; `server` is the resolver address and `host` is the longest dot-free prefix of the host name, which is the whole name or is followed by a dot |
| `Dnsmasq.Defaulted` | plugins/inputs/dnsmasq/dnsmasq.go:128-132 | an empty address becomes `127.0.0.1:53`, a non-empty one is kept, and the result is never empty |
| `Dnsmasq.Collect` | plugins/inputs/dnsmasq/dnsmasq.go:63-81 | a cycle queries at most all names, all of them when it succeeds, and at least one when it fails |
| `Dnsmasq.Dnsmasq.constructor` | plugins/inputs/dnsmasq/dnsmasq.go:23-28 | a probe holds the given client and configured address |
| `Dnsmasq.Dnsmasq.SetDefaultValues` | plugins/inputs/dnsmasq/dnsmasq.go:128-132 | the address field becomes `Defaulted` of its old value |
| `Dnsmasq.Dnsmasq.Gather` | plugins/inputs/dnsmasq/dnsmasq.go:43-85 | applies the default address; a host name failure returns an error before any query and emits nothing; otherwise the requests sent are the questions for the fixed names, in order, up to and including the first failure; the error is the cycle's; exactly one `dnsmasq` data point with the fields of `Collect` (from an empty map) and tags `server`/`host` is emitted only on success |
| `DnsmasqProperties.ServersRecordKeys` | plugins/inputs/dnsmasq/dnsmasq.go:95-110 | a `servers.bind.` record never removes a key and changes no key other than `queries` and `queries_failed` |
| `DnsmasqProperties.RecordKeysOnly` | plugins/inputs/dnsmasq/dnsmasq.go:93-123 | a record never removes a key; a simple TXT record changes only the first segment of its own name, `servers.bind.` only the two counts, other types nothing |
| `DnsmasqProperties.AnswersKeysOnly` | plugins/inputs/dnsmasq/dnsmasq.go:88-125 | merging an answer section keeps every existing key, and every key it adds or changes is derived from the name of one of its records |
| `DnsmasqProperties.NonTxtIgnored` | plugins/inputs/dnsmasq/dnsmasq.go:88-92 | dropping all non-TXT records from an answer section changes neither the fields nor the error; a section of only non-TXT records leaves the map unchanged with no error |
| `DnsmasqProperties.ServersRecordFails` | plugins/inputs/dnsmasq/dnsmasq.go:95-107 | a `servers.bind.` record fails exactly when one of its strings lacks exactly three tokens or has a count that does not parse |
| `DnsmasqProperties.ServersFirstError` | plugins/inputs/dnsmasq/dnsmasq.go:95-107 | the first bad string decides the error (wrong token count with the count found, else a number error) and the writes of the strings before it stay |
| `DnsmasqProperties.ServersLastWins` | plugins/inputs/dnsmasq/dnsmasq.go:100-109 | with well-formed strings only, `queries`/`queries_failed` hold the last string's counts (overwritten, not summed) and no other key changes |
| `DnsmasqProperties.SimpleRecordOutcome` | plugins/inputs/dnsmasq/dnsmasq.go:112-122 | for a name other than `servers.bind.`: not exactly one string is an error with the count, an unparseable string a number error, else exactly the key `FirstSegment(name)` is set to the number |
| `DnsmasqProperties.FirstSegmentOf` | plugins/inputs/dnsmasq/dnsmasq.go:119-121 | a name "<segment>.<rest>" with a dot-free segment is keyed by that segment |
| `DnsmasqProperties.AnswersAppend` | plugins/inputs/dnsmasq/dnsmasq.go:88-125 | records are merged left to right and a failure stops the merge: later records are not looked at and earlier writes are kept |
| `DnsmasqProperties.StopsAtFailingRecord` | plugins/inputs/dnsmasq/dnsmasq.go:88-125 | when record k is the first to fail, the result is that record's outcome on the fields written by records 0..k-1 |
| `DnsmasqProperties.ServersErrorIndependent` | plugins/inputs/dnsmasq/dnsmasq.go:95-110 | whether and how a `servers.bind.` record fails does not depend on the field map |
| `DnsmasqProperties.AnswersErrorIndependent` | plugins/inputs/dnsmasq/dnsmasq.go:88-125 | whether and how an answer section fails does not depend on the field map |
| `DnsmasqProperties.CollectSucceedsIff` | plugins/inputs/dnsmasq/dnsmasq.go:63-81 | a cycle succeeds if and only if every name's exchange succeeds and every reply merges without error |
| `DnsmasqProperties.CollectStopsAtFirstFailure` | plugins/inputs/dnsmasq/dnsmasq.go:63-81 | a failed cycle stops at the first name not answered and every earlier name was answered; its error is the transport error of that exchange, or else the merge error of that reply |
| `DnsmasqProperties.MetricKeys` | plugins/inputs/dnsmasq/dnsmasq.go:54-62 | the six simple names are keyed `cachesize`, `insertions`, `evictions`, `misses`, `hits`, `auth` |
| `DnsmasqProperties.WellFormedCycle` | plugins/inputs/dnsmasq/dnsmasq.go:54-84 | when every name gets one well-formed record, the cycle asks all seven names and yields exactly the six simple fields plus `queries` and `queries_failed` |
| `DnsmasqProperties.DefaultedIdempotent` | plugins/inputs/dnsmasq/dnsmasq.go:128-132 | applying the default address twice is the same as once |
| `DnsmasqProperties.ServersExample` | plugins/inputs/dnsmasq/dnsmasq.go:95-109 | "127.0.0.1 42 1340" under `servers.bind.` gives exactly `queries` 42 and `queries_failed` 1340 |
| `DnsmasqProperties.HitsExample` | plugins/inputs/dnsmasq/dnsmasq.go:112-122 | "5" under `hits.bind.` gives exactly `hits` 5 |

## Left out

- The network exchange, including `dns.Client` with `SingleInflight` (plugins/inputs/dnsmasq/dnsmasq.go:73, 143-145), is a pure function of the request and address. Concurrency, in-flight deduplication, timeouts and the round-trip time (which the probe discards) are not modelled.
- The random transaction id from `dns.Id()` (line 66) is not modelled; requests carry no id.
- `os.Hostname` (line 46) is an input to `Gather`. Only its split at line 52 is modelled.
- `strconv.ParseFloat` is an arbitrary parser passed as a parameter. Its float64 semantics (rounding, special values, syntax) are not modelled, and field values are of an opaque type `V`.
- Error values are a datatype carrying the counts and texts of the probe's messages. The message strings themselves are not modelled, and that includes the malformed `fmt.Errorf` call at line 48.
- `Dnsmasq.ProcessResponse`: the probe mutates a map it receives by reference. The model passes the map in and returns the updated map. This is equivalent because the map is local to `Gather` and has no other alias.
- Go strings are byte strings that `strings.Fields` decodes as UTF-8. The model works on Unicode scalar values and leaves out the decoding of invalid UTF-8.
- The DNS wire encoding of messages is not modelled.
- The plugin registration in `init` (lines 142-149) is not modelled: it is global runtime state.
- The `SampleConfig` and `Description` constant strings (lines 30-41) are not modelled: they are constants with no logic.
- The unused `ResultType` constants (lines 15-21) are not modelled: nothing uses them.
