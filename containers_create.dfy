/** The `POST /containers/create` munger: rewrite the host side of every
    path bind in `HostConfig.Binds` from a client path to a daemon path,
    and replace the request body only when something was rewritten. */
module ContainersCreate {
  import opened Outcomes
  import opened Http
  import opened Helpers
  import opened BindString

  /** The (method, path) pair the munger is registered under. */
  const Method: string := "POST"
  const Path: string := "/containers/create"

  /** A decoded part of the body that the munger never examines. Only the
      decoded value is kept; how it is written again is up to the Codec. */
  datatype Opaque = Opaque(value: seq<byte>)

  datatype HostConfig = HostConfig(binds: seq<string>, others: Opaque)

  /** The decoded request body: container, host and networking config. */
  datatype CreateBody = CreateBody(containerConfig: Opaque, hostConfig: HostConfig, networkingConfig: Opaque)

  /** The platform routines the munger calls: the bind-string parser, and
      the translator from a client path to a daemon path. */
  datatype Platform = Platform(parse: string -> BindSpec, translate: string -> Result<string, Cause>)

  /** The JSON library, decoding a body and encoding it again. */
  datatype Codec = Codec(unmarshal: seq<byte> -> Result<CreateBody, Cause>,
                         marshal: CreateBody -> Result<seq<byte>, Cause>)

  function WithBinds(body: CreateBody, binds: seq<string>): CreateBody {
    body.(hostConfig := body.hostConfig.(binds := binds))
  }

  /** `bind` is a path bind whose host path cannot be translated. */
  predicate TranslationFails(p: Platform, bind: string) {
    var s := p.parse(bind);
    s.isPath && p.translate(s.host).Failure?
  }

  /** The error that names the host path of a bind that cannot be translated. */
  function TranslationError(p: Platform, bind: string): (e: Error)
    requires TranslationFails(p, bind)
    ensures e.TranslateMountPathError? && e.path == p.parse(bind).host
    ensures p.translate(e.path) == Failure(e.cause)
  {
    var s := p.parse(bind);
    TranslateMountPathError(s.host, p.translate(s.host).error)
  }

  /** The entry written back for one bind: its translated host for a path
      bind, its parsed host otherwise. */
  function Rebuilt(p: Platform, bind: string): (entry: string)
    requires !TranslationFails(p, bind)
  {
    var s := p.parse(bind);
    Format(if s.isPath then p.translate(s.host).value else s.host, s.container, s.options)
  }

  /** A rebuilt entry starts with the host it was given (translated for a
      path bind) and a colon, and ends with a colon and the parsed options
      when there are options. */
  lemma RebuiltLayout(p: Platform, bind: string)
    requires !TranslationFails(p, bind)
    ensures var s := p.parse(bind);
            var host := if s.isPath then p.translate(s.host).value else s.host;
            var entry := Rebuilt(p, bind);
            |entry| > |host| && entry[..|host|] == host && entry[|host|] == ':'
    ensures var s := p.parse(bind);
            var entry := Rebuilt(p, bind);
            s.options != "" ==> |entry| > |s.options| && entry[|entry| - |s.options|..] == s.options
                                && entry[|entry| - |s.options| - 1] == ':'
  {
    var s := p.parse(bind);
    FormatLayout(if s.isPath then p.translate(s.host).value else s.host, s.container, s.options);
  }

  /** The rewritten bind list and whether any host path was translated. */
  datatype Rewritten = Rewritten(binds: seq<string>, modified: bool)

  /** Rewriting `bs` entry by entry, in order, stopping at the first path
      that cannot be translated. */
  function RewriteBinds(p: Platform, bs: seq<string>): (r: Result<Rewritten, Error>)
    // a rewritten list has one entry per bind
    ensures r.Success? ==> |r.value.binds| == |bs|
    // the only failure is an untranslatable path
    ensures r.Failure? ==> r.error.TranslateMountPathError?
    decreases |bs|
  {
    if bs == [] then Success(Rewritten([], false))
    else
      match RewriteBinds(p, bs[..|bs| - 1])
      case Failure(e) => Failure(e)
      case Success(done) =>
        var last := bs[|bs| - 1];
        if TranslationFails(p, last) then Failure(TranslationError(p, last))
        else Success(Rewritten(done.binds + [Rebuilt(p, last)], done.modified || p.parse(last).isPath))
  }

  /** The host paths handed to the translator while rewriting `bs`. */
  function TranslateCalls(p: Platform, bs: seq<string>): (calls: seq<string>)
    // the translator sees the path binds' hosts in index order, possibly stopping early
    ensures calls <= PathHosts(p, bs)
    // when the rewrite succeeds it has seen every one of them
    ensures RewriteBinds(p, bs).Success? ==> calls == PathHosts(p, bs)
    decreases |bs|
  {
    if bs == [] then []
    else
      var front := bs[..|bs| - 1];
      if RewriteBinds(p, front).Failure? then TranslateCalls(p, front)
      else TranslateCalls(p, front) + PathHost(p, bs[|bs| - 1])
  }

  function PathHost(p: Platform, bind: string): seq<string> {
    var s := p.parse(bind);
    if s.isPath then [s.host] else []
  }

  /** The host sides of the path binds of `bs`, in index order. */
  function PathHosts(p: Platform, bs: seq<string>): seq<string>
    decreases |bs|
  {
    if bs == [] then [] else PathHosts(p, bs[..|bs| - 1]) + PathHost(p, bs[|bs| - 1])
  }

  /** `k` is the first index of `bs` whose path cannot be translated. */
  predicate FirstFailure(p: Platform, bs: seq<string>, k: int) {
    0 <= k < |bs| && TranslationFails(p, bs[k]) &&
    forall j | 0 <= j < k :: !TranslationFails(p, bs[j])
  }

  /** Once a prefix of the binds has failed, the rest is never looked at. */
  lemma {:induction false} PrefixFailure(p: Platform, bs: seq<string>, k: int)
    requires 0 <= k <= |bs| && RewriteBinds(p, bs[..k]).Failure?
    ensures RewriteBinds(p, bs) == RewriteBinds(p, bs[..k])
    ensures TranslateCalls(p, bs) == TranslateCalls(p, bs[..k])
    decreases |bs| - k
  {
    if k == |bs| {
      assert bs[..k] == bs;
    } else {
      var front := bs[..|bs| - 1];
      assert front[..k] == bs[..k];
      PrefixFailure(p, front, k);
    }
  }

  /** One loop step: bind i after a successfully rewritten prefix either
      fails the whole rewrite or extends the prefix by its rebuilt entry. */
  lemma RewriteStep(p: Platform, bs: seq<string>, i: int, done: seq<string>, modified: bool)
    requires 0 <= i < |bs|
    requires RewriteBinds(p, bs[..i]) == Success(Rewritten(done, modified))
    ensures TranslateCalls(p, bs[..i + 1]) == TranslateCalls(p, bs[..i]) + PathHost(p, bs[i])
    ensures TranslationFails(p, bs[i]) ==>
              RewriteBinds(p, bs) == Failure(TranslationError(p, bs[i]))
              && TranslateCalls(p, bs) == TranslateCalls(p, bs[..i + 1])
    ensures !TranslationFails(p, bs[i]) ==>
              RewriteBinds(p, bs[..i + 1])
              == Success(Rewritten(done + [Rebuilt(p, bs[i])], modified || p.parse(bs[i]).isPath))
  {
    var upto := bs[..i + 1];
    assert upto[..i] == bs[..i];
    assert upto[i] == bs[i];
    if TranslationFails(p, bs[i]) {
      PrefixFailure(p, bs, i + 1);
    }
  }

  /** When every path translates, the list keeps its length and order and
      entry i is the rebuilt bind i. */
  lemma {:induction false} RewriteBindsEntries(p: Platform, bs: seq<string>)
    requires forall i | 0 <= i < |bs| :: !TranslationFails(p, bs[i])
    ensures RewriteBinds(p, bs).Success?
    ensures var r := RewriteBinds(p, bs).value;
            |r.binds| == |bs| && forall i | 0 <= i < |bs| :: r.binds[i] == Rebuilt(p, bs[i])
    decreases |bs|
  {
    if bs != [] {
      var front := bs[..|bs| - 1];
      RewriteBindsEntries(p, front);
      var r' := RewriteBinds(p, front).value;
      var r := RewriteBinds(p, bs).value;
      assert r.binds == r'.binds + [Rebuilt(p, bs[|bs| - 1])];
      forall i | 0 <= i < |bs| ensures r.binds[i] == Rebuilt(p, bs[i]) {
        if i < |front| { assert front[i] == bs[i]; }
      }
    }
  }

  /** When every path translates, `modified` holds exactly when some bind is
      a path bind, that is, when some host was translated. */
  lemma {:induction false} RewriteBindsModified(p: Platform, bs: seq<string>)
    requires forall i | 0 <= i < |bs| :: !TranslationFails(p, bs[i])
    ensures RewriteBinds(p, bs).Success?
    ensures var r := RewriteBinds(p, bs).value;
            && (r.modified <==> exists i | 0 <= i < |bs| :: p.parse(bs[i]).isPath)
            && (r.modified <==> PathHosts(p, bs) != [])
    decreases |bs|
  {
    if bs != [] {
      var front := bs[..|bs| - 1];
      var last := bs[|bs| - 1];
      RewriteBindsModified(p, front);
      var r' := RewriteBinds(p, front).value;
      assert RewriteBinds(p, bs).value.modified == (r'.modified || p.parse(last).isPath);
      if r'.modified {
        var i :| 0 <= i < |front| && p.parse(front[i]).isPath;
        assert p.parse(bs[i]).isPath;
      }
      if exists i | 0 <= i < |bs| :: p.parse(bs[i]).isPath {
        var i :| 0 <= i < |bs| && p.parse(bs[i]).isPath;
        if i < |front| { assert p.parse(front[i]).isPath; }
      }
    }
  }

  /** When every path translates, the list keeps its length and order,
      entry i is the rebuilt bind i, `modified` holds exactly when some bind
      is a path bind, and every path bind's host is translated, in order. */
  lemma {:induction false} RewriteBindsSucceeds(p: Platform, bs: seq<string>)
    requires forall i | 0 <= i < |bs| :: !TranslationFails(p, bs[i])
    ensures RewriteBinds(p, bs).Success?
    ensures var r := RewriteBinds(p, bs).value;
            && |r.binds| == |bs|
            && (forall i | 0 <= i < |bs| :: r.binds[i] == Rebuilt(p, bs[i]))
            && (r.modified <==> exists i | 0 <= i < |bs| :: p.parse(bs[i]).isPath)
            && (r.modified <==> PathHosts(p, bs) != [])
    ensures TranslateCalls(p, bs) == PathHosts(p, bs)
  {
    RewriteBindsEntries(p, bs);
    RewriteBindsModified(p, bs);
  }

  /** Every list with an untranslatable path has a first one. */
  lemma {:induction false} FirstFailureExists(p: Platform, bs: seq<string>)
    requires exists i | 0 <= i < |bs| :: TranslationFails(p, bs[i])
    ensures exists k :: FirstFailure(p, bs, k)
    decreases |bs|
  {
    var front := bs[..|bs| - 1];
    if exists i | 0 <= i < |front| :: TranslationFails(p, front[i]) {
      FirstFailureExists(p, front);
      var k :| FirstFailure(p, front, k);
      assert FirstFailure(p, bs, k);
    } else {
      forall j | 0 <= j < |bs| - 1 ensures !TranslationFails(p, bs[j]) { assert bs[j] == front[j]; }
      assert FirstFailure(p, bs, |bs| - 1);
    }
  }

  /** The first untranslatable path aborts the whole rewrite with an error
      naming it; the translator has seen the path binds up to it and none
      after it. */
  lemma RewriteBindsFailsAtFirst(p: Platform, bs: seq<string>, k: int)
    requires FirstFailure(p, bs, k)
    ensures RewriteBinds(p, bs) == Failure(TranslationError(p, bs[k]))
    ensures TranslateCalls(p, bs) == PathHosts(p, bs[..k + 1])
  {
    var upto := bs[..k + 1];
    assert upto[..k] == bs[..k];
    assert upto[k] == bs[k];
    RewriteBindsSucceeds(p, bs[..k]);
    PrefixFailure(p, bs, k + 1);
  }

  /** The rewrite fails exactly when some path bind cannot be translated. */
  lemma {:induction false} RewriteBindsFailsIff(p: Platform, bs: seq<string>)
    ensures RewriteBinds(p, bs).Failure? <==> exists i | 0 <= i < |bs| :: TranslationFails(p, bs[i])
  {
    if exists i | 0 <= i < |bs| :: TranslationFails(p, bs[i]) {
      FirstFailureExists(p, bs);
      var k :| FirstFailure(p, bs, k);
      RewriteBindsFailsAtFirst(p, bs, k);
    } else {
      RewriteBindsSucceeds(p, bs);
    }
  }

  /** What one munger run leaves observable: the error it returns, the
      request body, declared length and header afterwards, the host paths
      it asked the translator for, and the body it encoded, if any. */
  datatype Run = Run(err: Option<Error>, body: seq<byte>, contentLength: int, header: Header,
                     calls: seq<string>, encoded: Option<CreateBody>)

  /** One run on a request whose body holds `data` (and fails with `fault`,
      if that is set). */
  function Munge(p: Platform, codec: Codec, data: seq<byte>, fault: Option<Cause>,
                 contentLength: int, header: Header): (run: Run)
    // the body is replaced only after an encode that succeeded, and then the
    // declared length and the Content-Length field give its length
    ensures run.err.None? && run.encoded.Some? ==>
              run.contentLength == |run.body| && run.header == header[ContentLength := [Decimal(|run.body|)]]
    // otherwise length and header stay, and a body that was read is given back
    ensures !(run.err.None? && run.encoded.Some?) ==>
              run.contentLength == contentLength && run.header == header && (fault.None? ==> run.body == data)
    // nothing is translated unless the body decoded
    ensures run.calls != [] ==> fault.None? && codec.unmarshal(data).Success?
  {
    var read := ReadBody(Request, data, fault, codec.unmarshal);
    match read.result
    case Failure(e) => Run(Some(e), read.rest, contentLength, header, [], None)
    case Success(body) =>
      var calls := TranslateCalls(p, body.hostConfig.binds);
      match RewriteBinds(p, body.hostConfig.binds)
      case Failure(e) => Run(Some(e), read.rest, contentLength, header, calls, None)
      case Success(r) =>
        if !r.modified then Run(None, read.rest, contentLength, header, calls, None)
        else
          var updated := WithBinds(body, r.binds);
          match codec.marshal(updated)
          case Failure(e) => Run(Some(RemarshalError(e)), read.rest, contentLength, header, calls, Some(updated))
          case Success(buf) => Run(None, buf, |buf|, header[ContentLength := [Decimal(|buf|)]], calls, Some(updated))
  }

  /** A body that cannot be read or decoded aborts the run before any bind
      is looked at: nothing is translated or encoded, the declared length
      and header stay, and a decode failure leaves the bytes in place. */
  lemma MungeStopsOnUnreadableBody(p: Platform, codec: Codec, data: seq<byte>, fault: Option<Cause>,
                                   contentLength: int, header: Header)
    requires fault.Some? || codec.unmarshal(data).Failure?
    ensures var run := Munge(p, codec, data, fault, contentLength, header);
            && run.err == Some(if fault.Some? then ReadBodyError(Request, fault.value)
                               else UnmarshalBodyError(Request, codec.unmarshal(data).error))
            && run.calls == [] && run.encoded == None
            && run.contentLength == contentLength && run.header == header
            && (fault.None? ==> run.body == data)
  {
  }

  /** When no bind is a path bind the run succeeds without translating or
      encoding anything, and the body, length and header stay as they were. */
  lemma MungeWithoutPathBindsIsNoOp(p: Platform, codec: Codec, data: seq<byte>,
                                    contentLength: int, header: Header)
    requires codec.unmarshal(data).Success?
    requires var bs := codec.unmarshal(data).value.hostConfig.binds;
             forall i | 0 <= i < |bs| :: !p.parse(bs[i]).isPath
    ensures Munge(p, codec, data, None, contentLength, header) == Run(None, data, contentLength, header, [], None)
  {
    RewriteBindsSucceeds(p, codec.unmarshal(data).value.hostConfig.binds);
  }

  /** A path that cannot be translated aborts the run with an error naming
      the first such path; no rewritten bind reaches the request, which
      keeps its bytes, length and header, and no bind after it is translated. */
  lemma MungeTranslationFailureIsAtomic(p: Platform, codec: Codec, data: seq<byte>,
                                        contentLength: int, header: Header, k: int)
    requires codec.unmarshal(data).Success?
    requires FirstFailure(p, codec.unmarshal(data).value.hostConfig.binds, k)
    ensures var bs := codec.unmarshal(data).value.hostConfig.binds;
            var host := p.parse(bs[k]).host;
            Munge(p, codec, data, None, contentLength, header)
            == Run(Some(TranslateMountPathError(host, p.translate(host).error)), data, contentLength, header,
                   PathHosts(p, bs[..k + 1]), None)
  {
    RewriteBindsFailsAtFirst(p, codec.unmarshal(data).value.hostConfig.binds, k);
  }

  /** When every path translates and at least one bind is a path bind, the
      encoded body is the decoded one with each bind rebuilt in place and
      nothing else changed; if encoding succeeds, the request carries exactly
      the new bytes, and both the declared length and the Content-Length
      field give their number. */
  lemma MungeRewritesPathBinds(p: Platform, codec: Codec, data: seq<byte>,
                               contentLength: int, header: Header)
    requires codec.unmarshal(data).Success?
    requires var bs := codec.unmarshal(data).value.hostConfig.binds;
             && (forall i | 0 <= i < |bs| :: !TranslationFails(p, bs[i]))
             && (exists i | 0 <= i < |bs| :: p.parse(bs[i]).isPath)
    ensures var body := codec.unmarshal(data).value;
            var bs := body.hostConfig.binds;
            var run := Munge(p, codec, data, None, contentLength, header);
            && run.calls == PathHosts(p, bs) && run.calls != []
            && run.encoded.Some?
            && run.encoded.value.containerConfig == body.containerConfig
            && run.encoded.value.networkingConfig == body.networkingConfig
            && run.encoded.value.hostConfig.others == body.hostConfig.others
            && |run.encoded.value.hostConfig.binds| == |bs|
            && (forall i | 0 <= i < |bs| :: run.encoded.value.hostConfig.binds[i] == Rebuilt(p, bs[i]))
            && (match codec.marshal(run.encoded.value)
                case Failure(e) =>
                  run == Run(Some(RemarshalError(e)), data, contentLength, header, run.calls, run.encoded)
                case Success(buf) =>
                  && run.err == None && run.body == buf
                  && run.contentLength == |buf| && run.header == header[ContentLength := [Decimal(|buf|)]]
                  && ParseDecimal(run.header[ContentLength][0]) == run.contentLength)
  {
    var bs := codec.unmarshal(data).value.hostConfig.binds;
    RewriteBindsSucceeds(p, bs);
    var run := Munge(p, codec, data, None, contentLength, header);
    if codec.marshal(run.encoded.value).Success? {
      ParseDecimalOfDecimal(|run.body|);
    }
  }

  /** On every input: the request body, its declared length and its
      Content-Length field change only together, only after an encoding that
      succeeded, and then agree with each other; otherwise a body that was
      read is given back byte for byte. */
  lemma MungeKeepsLengthConsistent(p: Platform, codec: Codec, data: seq<byte>, fault: Option<Cause>,
                                   contentLength: int, header: Header)
    ensures var run := Munge(p, codec, data, fault, contentLength, header);
            if run.err == None && run.encoded.Some? then
              && run.contentLength == |run.body|
              && run.header == header[ContentLength := [Decimal(run.contentLength)]]
              && ParseDecimal(run.header[ContentLength][0]) == run.contentLength
            else
              && run.contentLength == contentLength && run.header == header
              && (fault.None? ==> run.body == data)
  {
    var run := Munge(p, codec, data, fault, contentLength, header);
    if run.err == None && run.encoded.Some? {
      ParseDecimalOfDecimal(run.contentLength);
    }
  }

  /** A run changes the request (`encoded` is set) exactly when the body
      decodes, every path translates and at least one bind is a path bind. */
  lemma MungeEncodesIffTranslated(p: Platform, codec: Codec, data: seq<byte>, fault: Option<Cause>,
                                  contentLength: int, header: Header)
    ensures Munge(p, codec, data, fault, contentLength, header).encoded.Some?
            <==> && fault.None? && codec.unmarshal(data).Success?
                 && var bs := codec.unmarshal(data).value.hostConfig.binds;
                    && (forall i | 0 <= i < |bs| :: !TranslationFails(p, bs[i]))
                    && (exists i | 0 <= i < |bs| :: p.parse(bs[i]).isPath)
  {
    if fault.None? && codec.unmarshal(data).Success? {
      var bs := codec.unmarshal(data).value.hostConfig.binds;
      RewriteBindsFailsIff(p, bs);
      if forall i | 0 <= i < |bs| :: !TranslationFails(p, bs[i]) {
        RewriteBindsSucceeds(p, bs);
      }
    }
  }

  /** A Windows path bind with no options becomes the WSL path bind. */
  lemma TranslatesWindowsPathBind(p: Platform)
    requires p.parse("C:\\Users\\foo:/data") == BindSpec("C:\\Users\\foo", "/data", "", true)
    requires p.translate("C:\\Users\\foo") == Success("/mnt/c/Users/foo")
    ensures RewriteBinds(p, ["C:\\Users\\foo:/data"]) == Success(Rewritten(["/mnt/c/Users/foo:/data"], true))
    ensures TranslateCalls(p, ["C:\\Users\\foo:/data"]) == ["C:\\Users\\foo"]
  {
    var bs := ["C:\\Users\\foo:/data"];
    assert bs[..0] == [];
    assert Rebuilt(p, bs[0]) == "/mnt/c/Users/foo:/data";
    RewriteBindsSucceeds(p, bs);
    var r := RewriteBinds(p, bs).value;
    assert r.binds == [r.binds[0]];
    assert p.parse(bs[0]).isPath;
  }

  /** Of two path binds, the first translatable and the second not, the run
      fails naming the second, after asking for both translations. */
  lemma SecondBindUntranslatable(p: Platform, first: string, second: string)
    requires p.parse(first).isPath && p.translate(p.parse(first).host).Success?
    requires p.parse(second).isPath && p.translate(p.parse(second).host).Failure?
    ensures var host := p.parse(second).host;
            RewriteBinds(p, [first, second]) == Failure(TranslateMountPathError(host, p.translate(host).error))
    ensures TranslateCalls(p, [first, second]) == [p.parse(first).host, p.parse(second).host]
  {
    var bs := [first, second];
    assert FirstFailure(p, bs, 1);
    RewriteBindsFailsAtFirst(p, bs, 1);
    assert bs[..2] == bs && bs[..2][..1] == [first] && [first][..0] == [];
    assert PathHosts(p, [first]) == [p.parse(first).host];
  }

  /** Where a run on a decoded body ends once the bind loop has finished:
      the helper the munger's proof uses to follow `Munge` past the loop. */
  lemma MungeAfterLoop(p: Platform, codec: Codec, data: seq<byte>, contentLength: int, header: Header,
                       r: Rewritten)
    requires codec.unmarshal(data).Success?
    requires RewriteBinds(p, codec.unmarshal(data).value.hostConfig.binds) == Success(r)
    ensures var body := codec.unmarshal(data).value;
            var run := Munge(p, codec, data, None, contentLength, header);
            && run.calls == TranslateCalls(p, body.hostConfig.binds)
            && (!r.modified ==> run == Run(None, data, contentLength, header, run.calls, None))
            && (r.modified ==> run.encoded == Some(WithBinds(body, r.binds)))
            && (r.modified && codec.marshal(WithBinds(body, r.binds)).Failure? ==>
                  run.err == Some(RemarshalError(codec.marshal(WithBinds(body, r.binds)).error))
                  && run.body == data)
            && (r.modified && codec.marshal(WithBinds(body, r.binds)).Success? ==>
                  run.err == None && run.body == codec.marshal(WithBinds(body, r.binds)).value)
  {
  }

  /** Where a run on a decoded body ends when the rewrite fails: the
      helper the munger's proof uses at its early return. */
  lemma MungeAfterFailedRewrite(p: Platform, codec: Codec, data: seq<byte>, contentLength: int,
                                header: Header, e: Error)
    requires codec.unmarshal(data).Success?
    requires RewriteBinds(p, codec.unmarshal(data).value.hostConfig.binds) == Failure(e)
    ensures Munge(p, codec, data, None, contentLength, header)
            == Run(Some(e), data, contentLength, header, TranslateCalls(p, codec.unmarshal(data).value.hostConfig.binds), None)
  {
  }

  /** The bind loop of the munger: rewrites `binds` entry by entry, in
      order, stopping at the first path that cannot be translated. Entry i
      is overwritten only at step i. `calls` records the host paths handed to
      the translator. */
  method RewriteBindsInPlace(p: Platform, original: seq<string>)
    returns (r: Result<Rewritten, Error>, ghost calls: seq<string>)
    ensures r == RewriteBinds(p, original)
    ensures calls == TranslateCalls(p, original)
  {
    var binds := original;
    var modified := false;
    calls := [];
    var i := 0;
    while i < |binds|
      invariant 0 <= i <= |binds| == |original|
      invariant RewriteBinds(p, original[..i]) == Success(Rewritten(binds[..i], modified))
      invariant calls == TranslateCalls(p, original[..i])
    {
      ghost var done := binds[..i];
      RewriteStep(p, original, i, done, modified);
      var spec := p.parse(original[i]);
      var host := spec.host;
      if spec.isPath {
        calls := calls + [host];
        var translated := p.translate(host);
        if translated.Failure? {
          return Failure(TranslateMountPathError(host, translated.error)), calls;
        }
        host := translated.value;
        modified := true;
      }
      binds := binds[i := Format(host, spec.container, spec.options)];
      assert binds[..i + 1] == done + [Rebuilt(p, original[i])];
      i := i + 1;
    }
    assert original[..i] == original && binds[..i] == binds;
    r := Success(Rewritten(binds, modified));
  }

  /** The munger: decodes `req`'s body, rewrites its path binds and, if any
      was translated, replaces the body and its declared length. */
  method MungeContainersCreate(req: Message, p: Platform, codec: Codec)
    returns (err: Option<Error>, ghost calls: seq<string>, ghost encoded: Option<CreateBody>)
    modifies req, req.body
    ensures var run := Munge(p, codec, old(req.body.data), old(req.body.fault), old(req.contentLength), old(req.header));
            && err == run.err && req.body.data == run.body && req.contentLength == run.contentLength
            && req.header == run.header && calls == run.calls && encoded == run.encoded
    ensures old(req.body.fault).None? ==> fresh(req.body) && req.body.fault.None?
    ensures old(req.body.fault).Some? ==> req.body == old(req.body) && req.body.fault == old(req.body.fault)
  {
    var read := ReadBodyJSON(req, Request, codec.unmarshal);
    if read.Failure? {
      return Some(read.error), [], None;
    }
    var body := read.value;
    var rewritten;
    rewritten, calls := RewriteBindsInPlace(p, body.hostConfig.binds);
    if rewritten.Failure? {
      MungeAfterFailedRewrite(p, codec, old(req.body.data), old(req.contentLength), old(req.header), rewritten.error);
      return Some(rewritten.error), calls, None;
    }
    MungeAfterLoop(p, codec, old(req.body.data), old(req.contentLength), old(req.header), rewritten.value);
    if !rewritten.value.modified {
      return None, calls, None;
    }
    var updated := WithBinds(body, rewritten.value.binds);
    encoded := Some(updated);
    var buf := codec.marshal(updated);
    if buf.Failure? {
      return Some(RemarshalError(buf.error)), calls, encoded;
    }
    req.body := new Stream(buf.value);
    req.contentLength := |buf.value|;
    req.header := req.header[ContentLength := [Decimal(|buf.value|)]];
    err := None;
  }
}
