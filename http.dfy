/** The parts of an HTTP message that the mungers read and replace: a body
    stream, the declared content length and the header map. */
module Http {
  import opened Outcomes

  /** Header field name to its list of values. */
  type Header = map<string, seq<string>>

  /** Field name of the declared body length (section 8.6 of RFC 9110). */
  const ContentLength: string := "Content-Length"

  /** A body stream: the bytes not yet read, and the error a read of it
      reports, if any. */
  class Stream {
    var data: seq<byte>
    var fault: Option<Cause>

    /** A stream over an in-memory buffer, which never fails. */
    constructor (buf: seq<byte>)
      ensures data == buf && fault == None
    {
      data := buf;
      fault := None;
    }

    /** Reads the stream to its end. A failing stream reports its error; in
        both cases the stream is consumed. */
    method ReadAll() returns (r: Result<seq<byte>, Cause>)
      modifies this
      ensures r == if old(fault).Some? then Failure(old(fault).value) else Success(old(data))
      ensures data == [] && fault == old(fault)
    {
      if fault.Some? {
        r := Failure(fault.value);
      } else {
        r := Success(data);
      }
      data := [];
    }
  }

  /** An HTTP request or response as the mungers see it. */
  class Message {
    var body: Stream
    var contentLength: int
    var header: Header

    constructor (body: Stream, contentLength: int, header: Header)
      ensures this.body == body && this.contentLength == contentLength && this.header == header
    {
      this.body := body;
      this.contentLength := contentLength;
      this.header := header;
    }
  }

  predicate IsDigits(s: string) {
    forall i | 0 <= i < |s| :: '0' <= s[i] <= '9'
  }

  function Digit(d: nat): (c: char)
    requires d < 10
  {
    ('0' as int + d) as char
  }

  /** The decimal rendering of `n`, as `%d` formats a non-negative integer:
      digits only, at least one, and no leading zero. */
  function Decimal(n: nat): (s: string)
    ensures |s| >= 1 && IsDigits(s)
    ensures s[0] == '0' ==> n == 0 && s == "0"
    decreases n
  {
    if n < 10 then [Digit(n)] else Decimal(n / 10) + [Digit(n % 10)]
  }

  /** The value of a string of decimal digits, as a reader of the
      Content-Length field computes it. */
  function ParseDecimal(s: string): nat
    requires IsDigits(s)
    decreases |s|
  {
    if s == [] then 0
    else ParseDecimal(s[..|s| - 1]) * 10 + (s[|s| - 1] as int - '0' as int)
  }

  /** A length written with Decimal reads back as the same number. */
  lemma {:induction false} ParseDecimalOfDecimal(n: nat)
    ensures ParseDecimal(Decimal(n)) == n
    decreases n
  {
    if n >= 10 {
      var s := Decimal(n);
      assert s[..|s| - 1] == Decimal(n / 10);
      ParseDecimalOfDecimal(n / 10);
    }
  }
}
