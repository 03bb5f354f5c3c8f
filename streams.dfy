/**
 * `java.io.DataOutput` and `DataInput` as the privilege classes use them. A
 * stream is the sequence of values written to it, in order; writing appends,
 * reading takes values from the front. The byte encoding is not modelled.
 */
module Streams {
  import opened Java

  datatype Datum =
    | LongDatum(long: Long)        // DataOutput.writeLong
    | StringDatum(text: string)    // Text.writeString
      /** Everything PrivEntry.write emits for the fields of the superclass. */
    | PrivEntryDatum(host: string, user: string, isDomain: bool, privs: Long)

  /** DataInput.readLong: the long at the front of the input, and the rest. */
  function ReadLong(input: seq<Datum>): (r: Result<(Long, seq<Datum>)>)
    ensures r.Ok? <==> |input| > 0 && input[0].LongDatum?
    ensures r.Ok? ==> [LongDatum(r.value.0)] + r.value.1 == input
    ensures r.Err? ==> r.error == IOException
  {
    if |input| > 0 && input[0].LongDatum? then Ok((input[0].long, input[1..]))
    else Err(IOException)
  }

  /** Text.readString: the string at the front of the input, and the rest. */
  function ReadString(input: seq<Datum>): (r: Result<(string, seq<Datum>)>)
    ensures r.Ok? <==> |input| > 0 && input[0].StringDatum?
    ensures r.Ok? ==> [StringDatum(r.value.0)] + r.value.1 == input
    ensures r.Err? ==> r.error == IOException
  {
    if |input| > 0 && input[0].StringDatum? then Ok((input[0].text, input[1..]))
    else Err(IOException)
  }
}
