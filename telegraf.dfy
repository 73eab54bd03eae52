/** The metrics sink the probe reports to. */
module Telegraf {

  /** One data point: a measurement name, its fields and its tags. */
  datatype Measurement<V> = Measurement(name: string, fields: map<string, V>, tags: map<string, string>)

  /** Records every data point handed to it, in order. */
  class Accumulator<V> {
    var added: seq<Measurement<V>>

    constructor ()
      ensures added == []
    {
      added := [];
    }

    method AddFields(name: string, fields: map<string, V>, tags: map<string, string>)
      modifies this
      ensures added == old(added) + [Measurement(name, fields, tags)]
    {
      added := added + [Measurement(name, fields, tags)];
    }
  }
}
