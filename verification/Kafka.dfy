/** Records as the Kafka client sees them. */
module Kafka {
  import Envelopes

  datatype Header = Header(key: string, value: string)

  /** A record to publish. */
  datatype Message = Message(topic: string, key: string, value: Envelopes.Document, headers: seq<Header>)

  /** A record consumed; its topic, partition and offset are where the log keeps it. */
  datatype Record = Record(value: Envelopes.Document, headers: seq<Header>)

  /** Where a consumed record sits in its partition. */
  datatype Place = Place(partition: nat, offset: nat)

  /** The first value of the named header, or "". */
  function HeaderValue(headers: seq<Header>, name: string): string {
    if headers == [] then ""
    else if headers[0].key == name then headers[0].value
    else HeaderValue(headers[1..], name)
  }

  method RecordHeader(headers: seq<Header>, name: string) returns (value: string)
    ensures value == HeaderValue(headers, name)
    ensures if forall h :: h in headers ==> h.key != name then value == ""
      else exists i :: 0 <= i < |headers| && headers[i] == Header(name, value) && forall j :: 0 <= j < i ==> headers[j].key != name
  {
    for i := 0 to |headers|
      invariant HeaderValue(headers, name) == HeaderValue(headers[i..], name)
      invariant forall j :: 0 <= j < i ==> headers[j].key != name
    {
      if headers[i].key == name {
        assert headers[i] in headers && headers[i] == Header(name, headers[i].value);
        return headers[i].value;
      }
    }
    return "";
  }
}
