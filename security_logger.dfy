/**
 * The security logger: the redaction of sensitive log details, and the
 * choice between redacted and raw details that depends on the environment.
 * The console the lines go to is left out; a function returns the line
 * that would be written.
 */
module SecurityLogger {
  import opened Wrappers
  import opened Text
  import opened Security

  /** Key fragments that mark a detail as sensitive. */
  const SensitiveFields: seq<string> := ["password", "token", "secret", "authorization", "cookie"]

  const RedactedValue: Json := Str("[REDACTED]")

  /** A key whose lower case contains one of the sensitive fragments. */
  predicate Sensitive(key: string)
  {
    exists f :: f in SensitiveFields && Contains(Lower(key), f)
  }

  /** One entry of the copy after the redaction loop has passed it. */
  function RedactEntry(p: (string, Json)): (string, Json)
  {
    if Sensitive(p.0) then (p.0, RedactedValue) else p
  }

  /**
   * `sanitizeLogDetails`: the copy of the details with each sensitive
   * entry's value replaced; keys, their order and every other value are
   * those of the input.
   */
  function Redact(details: seq<(string, Json)>): (r: seq<(string, Json)>)
    ensures |r| == |details|
    ensures forall i :: 0 <= i < |r| ==> r[i].0 == details[i].0
    ensures forall i :: 0 <= i < |r| ==> r[i].1 == (if Sensitive(details[i].0) then RedactedValue else details[i].1)
  {
    if details == [] then []
    else Redact(details[..|details| - 1]) + [RedactEntry(details[|details| - 1])]
  }

  /**
   * Read as an object: a sensitive key the details define reads
   * `'[REDACTED]'`, any other key reads what it read before, and no key is
   * added or removed.
   */
  lemma {:induction false} RedactLookup(details: seq<(string, Json)>, k: string)
    ensures Keys(Redact(details)) == Keys(details)
    ensures Lookup(Redact(details), k) ==
              if Sensitive(k) && Lookup(details, k).Some? then Some(RedactedValue) else Lookup(details, k)
  {
    if details != [] {
      RedactLookup(details[1..], k);
      assert Redact(details) == [RedactEntry(details[0])] + Redact(details[1..]) by {
        RedactFront(details);
      }
      assert Keys(Redact(details)) == {details[0].0} + Keys(Redact(details[1..])) by {
        KeysFront(Redact(details));
      }
      assert Keys(details) == {details[0].0} + Keys(details[1..]) by {
        KeysFront(details);
      }
    }
  }

  /** The redaction works entry by entry, so it can be taken from the front as well. */
  lemma RedactFront(details: seq<(string, Json)>)
    requires details != []
    ensures Redact(details) == [RedactEntry(details[0])] + Redact(details[1..])
  {
    var r := Redact(details);
    var s := [RedactEntry(details[0])] + Redact(details[1..]);
    assert |r| == |s|;
    forall i | 0 <= i < |r| ensures r[i] == s[i] {
      if i > 0 {
        assert s[i] == Redact(details[1..])[i - 1];
      }
    }
  }

  lemma KeysFront(fs: seq<(string, Json)>)
    requires fs != []
    ensures Keys(fs) == {fs[0].0} + Keys(fs[1..])
  {
    forall x | x in Keys(fs) ensures x == fs[0].0 || x in Keys(fs[1..]) {
      var i :| 0 <= i < |fs| && fs[i].0 == x;
      if i > 0 { assert fs[1..][i - 1].0 == x; }
    }
    forall x | x in Keys(fs[1..]) ensures x in Keys(fs) {
      var i :| 0 <= i < |fs[1..]| && fs[1..][i].0 == x;
      assert fs[i + 1].0 == x;
    }
  }

  /** The loop of `sanitizeLogDetails` over a copy of the details; the input itself is a value and stays as it was. */
  method SanitizeLogDetails(details: seq<(string, Json)>) returns (sanitized: seq<(string, Json)>)
    ensures sanitized == Redact(details)
  {
    sanitized := details;
    for i := 0 to |sanitized|
      invariant |sanitized| == |details|
      invariant sanitized[..i] == Redact(details[..i])
      invariant sanitized[i..] == details[i..]
    {
      assert details[..i + 1] == details[..i] + [details[i]];
      if Sensitive(sanitized[i].0) {
        sanitized := sanitized[i := (sanitized[i].0, RedactedValue)];
      }
      assert sanitized[..i + 1] == sanitized[..i] + [sanitized[i]];
    }
    assert details[..|details|] == details;
    assert sanitized[..|sanitized|] == sanitized;
  }

  /** `NODE_ENV`: production, development, or anything else. */
  datatype Environment = Production | Development | OtherEnvironment

  /** A line on the console: the tag, the event or message, and the structured details. */
  datatype LogLine = LogLine(tag: string, text: string, details: seq<(string, Json)>)

  /** `logSecurityEvent`: the details go out redacted in production and raw anywhere else. */
  function SecurityEventLine(env: Environment, timestamp: string, event: string, details: seq<(string, Json)>): (line: LogLine)
    ensures line.tag == "[SECURITY]" && line.text == timestamp + " - " + event
    ensures env == Production ==> line.details == Redact(details)
    ensures env != Production ==> line.details == details
  {
    LogLine("[SECURITY]", timestamp + " - " + event, if env == Production then Redact(details) else details)
  }

  /** `{...base, ...extra}`: the fields of `extra` assigned over `base` in order. */
  function Spread(base: seq<(string, Json)>, extra: seq<(string, Json)>): seq<(string, Json)>
  {
    if extra == [] then base
    else Assign(Spread(base, extra[..|extra| - 1]), extra[|extra| - 1].0, extra[|extra| - 1].1)
  }

  /**
   * `logError`: in production the message and the redacted context; in
   * any other environment the whole error record, with the stack only in
   * development, and the context spread over it.
   */
  function ErrorLine(env: Environment, message: string, stack: string, context: seq<(string, Json)>): (line: LogLine)
    ensures line.tag == "[ERROR]"
    ensures env == Production ==> line.text == message && line.details == Redact(context)
    ensures env != Production ==>
              line.details == Spread([("message", Str(message)),
                                      ("stack", if env == Development then Str(stack) else Undefined)], context)
  {
    if env == Production then LogLine("[ERROR]", message, Redact(context))
    else
      LogLine("[ERROR]", "",
              Spread([("message", Str(message)), ("stack", if env == Development then Str(stack) else Undefined)], context))
  }

  /** Only production hides a password: in development it is written out as given. */
  lemma RedactionOnlyInProduction(timestamp: string, event: string, secret: string)
    ensures SecurityEventLine(Production, timestamp, event, [("password", Str(secret))]).details
            == [("password", RedactedValue)]
    ensures SecurityEventLine(Development, timestamp, event, [("password", Str(secret))]).details
            == [("password", Str(secret))]
  {
    assert Contains(Lower("password"), "password") by {
      assert OccursAt(Lower("password"), "password", 0);
    }
    assert Sensitive("password");
  }
}
