/** The replayable body reader shared by the request and response mungers:
    read the whole body, try to decode it, and put the same bytes back. */
module Helpers {
  import opened Outcomes
  import opened Http

  /** What a read leaves behind: the decoded value or an error, and the
      bytes the body holds afterwards. */
  datatype Read<+T> = Read(result: Result<T, Error>, rest: seq<byte>)

  /** Reading a body that holds `data` (and fails with `fault`, if that is
      set) and decoding it with `decode`. */
  function ReadBody<T>(role: Role, data: seq<byte>, fault: Option<Cause>,
                       decode: seq<byte> -> Result<T, Cause>): (r: Read<T>)
    // a failed read is reported as such, whatever the decoder would say
    ensures fault.Some? ==> r.result == Failure(ReadBodyError(role, fault.value))
    // after a successful read the body holds exactly the bytes read
    ensures fault.None? ==> r.rest == data
    // decoding sees exactly those bytes
    ensures fault.None? && decode(data).Failure? ==>
              r.result == Failure(UnmarshalBodyError(role, decode(data).error))
    // success only when both the read and the decode succeed
    ensures r.result.Success? <==> fault.None? && decode(data).Success?
    ensures r.result.Success? ==> r.result.value == decode(data).value
  {
    if fault.Some? then
      Read(Failure(ReadBodyError(role, fault.value)), [])
    else
      match decode(data)
      case Failure(e) => Read(Failure(UnmarshalBodyError(role, e)), data)
      case Success(v) => Read(Success(v), data)
  }

  /** A body left behind by a successful read can be read again, with the
      same outcome and the same bytes left behind. */
  lemma ReadBodyReplays<T>(role: Role, data: seq<byte>, fault: Option<Cause>,
                           decode: seq<byte> -> Result<T, Cause>)
    requires fault.None?
    ensures ReadBody(role, ReadBody(role, data, fault, decode).rest, None, decode)
            == ReadBody(role, data, fault, decode)
  {
  }

  /** Reads `msg`'s body and decodes it; on any outcome after a successful
      read, `msg` gets a fresh body over exactly the bytes read. `role`
      selects the error wording of the request or the response reader. */
  method ReadBodyJSON<T>(msg: Message, role: Role, decode: seq<byte> -> Result<T, Cause>)
    returns (r: Result<T, Error>)
    modifies msg, msg.body
    ensures var spec := ReadBody(role, old(msg.body.data), old(msg.body.fault), decode);
            r == spec.result && msg.body.data == spec.rest
    ensures old(msg.body.fault).None? ==> fresh(msg.body) && msg.body.fault.None?
    ensures old(msg.body.fault).Some? ==> msg.body == old(msg.body) && msg.body.fault == old(msg.body.fault)
    ensures msg.contentLength == old(msg.contentLength) && msg.header == old(msg.header)
  {
    var buf := msg.body.ReadAll();
    if buf.Failure? {
      return Failure(ReadBodyError(role, buf.error));
    }
    var decoded := decode(buf.value);
    msg.body := new Stream(buf.value);
    if decoded.Failure? {
      return Failure(UnmarshalBodyError(role, decoded.error));
    }
    r := Success(decoded.value);
  }
}
