/** Bind-mount entries `host:container[:options]`: the parsed form of one
    entry, how an entry is written back, and a plain split at every colon
    that reads back entries whose fields hold no colon. */
module BindString {

  /** One parsed bind entry. `isPath` says the host side is a filesystem
      path of the client rather than a named volume. */
  datatype BindSpec = BindSpec(host: string, container: string, options: string, isPath: bool)

  /** Writes an entry back: `host:container`, or `host:container:options`
      when there are options. */
  function Format(host: string, container: string, options: string): string
  {
    if options == "" then host + ":" + container else host + ":" + container + ":" + options
  }

  /** A written-back entry starts with its host and a colon, and ends with
      a colon and its options when there are options. */
  lemma FormatLayout(host: string, container: string, options: string)
    ensures var s := Format(host, container, options);
            |s| > |host| && s[..|host|] == host && s[|host|] == ':'
    ensures var s := Format(host, container, options);
            options != "" ==> |s| > |options| && s[|s| - |options|..] == options && s[|s| - |options| - 1] == ':'
  {
  }

  /** The pieces of `s` between colons, in order (always at least one). This
      splits at EVERY colon, so it reads back only entries whose fields hold
      no colon; a Windows host such as `C:\\Users` is not one of them. */
  function Fields(s: string): (r: seq<string>)
    ensures |r| >= 1
    decreases |s|
  {
    if s == [] then [""]
    else if s[0] == ':' then [""] + Fields(s[1..])
    else
      var rest := Fields(s[1..]);
      [[s[0]] + rest[0]] + rest[1..]
  }

  lemma {:induction false} FieldsWithoutColon(s: string)
    requires ':' !in s
    ensures Fields(s) == [s]
    decreases |s|
  {
    if s != [] {
      assert ':' !in s[1..] by {
        forall i | 0 <= i < |s[1..]| ensures s[1..][i] != ':' { assert s[1..][i] == s[i + 1]; }
      }
      FieldsWithoutColon(s[1..]);
      assert [s[0]] + s[1..] == s;
    }
  }

  lemma {:induction false} FieldsAfterColon(a: string, b: string)
    requires ':' !in a
    ensures Fields(a + ":" + b) == [a] + Fields(b)
    decreases |a|
  {
    if a == [] {
      assert a + ":" + b == [':'] + b;
      assert ([':'] + b)[1..] == b;
    } else {
      var s := a + ":" + b;
      assert s[0] == a[0] != ':';
      assert ':' !in a[1..] by {
        forall i | 0 <= i < |a[1..]| ensures a[1..][i] != ':' { assert a[1..][i] == a[i + 1]; }
      }
      assert s[1..] == a[1..] + ":" + b;
      FieldsAfterColon(a[1..], b);
      assert [a[0]] + a[1..] == a;
    }
  }

  /** A formatted entry whose fields hold no colon splits back into exactly
      those fields; empty options give two fields, not three. */
  lemma FormatSplitsBack(host: string, container: string, options: string)
    requires ':' !in host && ':' !in container && ':' !in options
    ensures Fields(Format(host, container, options))
            == if options == "" then [host, container] else [host, container, options]
  {
    FieldsAfterColon(host, container);
    FieldsWithoutColon(container);
    if options != "" {
      assert host + ":" + container + ":" + options == host + ":" + (container + ":" + options);
      FieldsAfterColon(host, container + ":" + options);
      FieldsAfterColon(container, options);
      FieldsWithoutColon(options);
    } else {
      assert host + ":" + container == host + ":" + container;
    }
  }

  /** An entry written with an explicitly empty trailing options field,
      `host:container:`, has three fields; once parsed into empty options
      it is written back as `host:container`, with two. */
  lemma TrailingEmptyOptionsDropped(host: string, container: string)
    requires ':' !in host && ':' !in container
    ensures Fields(host + ":" + container + ":") == [host, container, ""]
    ensures Fields(Format(host, container, "")) == [host, container]
  {
    assert host + ":" + container + ":" == host + ":" + (container + ":" + "");
    FieldsAfterColon(host, container + ":" + "");
    FieldsAfterColon(container, "");
    FormatSplitsBack(host, container, "");
  }
}
