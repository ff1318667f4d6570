/**
 * The input sanitiser of the security middleware: a recursive clean-up of
 * JSON-like request data that drops query-operator keys and removes a fixed
 * set of characters from keys and strings, then writes the result back
 * into the request with a few credential fields restored.
 */
module Security {
  import opened Wrappers
  import opened Text

  /**
   * A JSON-like value as the body parser hands it over. An object is its
   * list of fields in insertion order; JavaScript keeps its keys distinct
   * (`UniqueKeys`).
   */
  datatype Json =
    | Null
    | Undefined
    | Bool(b: bool)
    | Num(n: real)
    | Str(s: string)
    | Arr(items: seq<Json>)
    | Obj(fields: seq<(string, Json)>)

  /** The character class ``[\$<>"'`{}[\]\\]`` of the sanitiser. */
  predicate Dangerous(c: char)
  {
    c == '$' || c == '<' || c == '>' || c == '"' || c == '\'' || c == '`'
    || c == '{' || c == '}' || c == '[' || c == ']' || c == '\\'
  }

  predicate NoDangerous(s: string)
  {
    forall c :: c in s ==> !Dangerous(c)
  }

  /** `s.replace(dangerousChars, '')` */
  function Strip(s: string): string
  {
    RemoveAll(s, Dangerous)
  }

  /** Stripping leaves no dangerous character and changes nothing in a clean string. */
  lemma {:induction false} StripMeaning(s: string)
    ensures NoDangerous(Strip(s))
    ensures Strip(s) == s <==> NoDangerous(s)
  {
    if s != [] {
      StripMeaning(s[1..]);
      if Dangerous(s[0]) {
        assert |Strip(s)| < |s|;
      } else {
        assert Strip(s) == [s[0]] + Strip(s[1..]);
        assert s == [s[0]] + s[1..];
        assert NoDangerous(s) <==> NoDangerous(s[1..]) by {
          forall c | c in s ensures c == s[0] || c in s[1..] {
            var i :| 0 <= i < |s| && s[i] == c;
            if i > 0 { assert s[1..][i - 1] == c; }
          }
        }
      }
    }
  }

  /** Trimming only removes characters, so a clean string stays clean. */
  lemma TrimKeepsClean(s: string)
    requires NoDangerous(s)
    ensures NoDangerous(Trim(s))
  {
    var r := Trim(s);
    var i :| OccursAt(s, r, i);
    forall c | c in r ensures !Dangerous(c) {
      var m :| 0 <= m < |r| && r[m] == c;
      assert s[i..i + |r|][m] == s[i + m];
      assert s[i + m] in s;
    }
  }

  /** The operator table exactly as the middleware writes it. */
  const OperatorTable: set<string> :=
    {"$gt", "$gte", "$lt", "$lte", "$ne", "$in", "$nin", "$or", "$and", "$regex",
     "$exists", "$type", "$mod", "$where", "$all", "$size", "$elemMatch"}

  /** The same operators, all in lower case, as the lower-cased lookup needs them. */
  const Operators: set<string> :=
    {"$gt", "$gte", "$lt", "$lte", "$ne", "$in", "$nin", "$or", "$and", "$regex",
     "$exists", "$type", "$mod", "$where", "$all", "$size", "$elemmatch"}

  /**
   * A key of the input object that survives into the result: its lower
   * case is not an operator, and stripping does not turn it into the
   * empty string.
   */
  predicate Kept(key: string, table: set<string>)
  {
    Lower(key) !in table && !(Strip(key) != key && Strip(key) == [])
  }

  /** The input key `key` is written to the result under `k`. */
  predicate Lands(key: string, k: string, table: set<string>)
  {
    Kept(key, table) && Strip(key) == k
  }

  function Keys(fs: seq<(string, Json)>): set<string>
  {
    set i | 0 <= i < |fs| :: fs[i].0
  }

  predicate UniqueKeys(fs: seq<(string, Json)>)
  {
    forall i, j :: 0 <= i < j < |fs| ==> fs[i].0 != fs[j].0
  }

  /** `obj[k]`, `None` for a key the object does not have. */
  function Lookup(fs: seq<(string, Json)>, k: string): (r: Option<Json>)
    ensures r.Some? <==> k in Keys(fs)
  {
    if fs == [] then None
    else if fs[0].0 == k then Some(fs[0].1)
    else
      assert Keys(fs) == {fs[0].0} + Keys(fs[1..]) by {
        forall x | x in Keys(fs) ensures x == fs[0].0 || x in Keys(fs[1..]) {
          var i :| 0 <= i < |fs| && fs[i].0 == x;
          if i > 0 { assert fs[1..][i - 1].0 == x; }
        }
      }
      Lookup(fs[1..], k)
  }

  /**
   * `obj[k] = v`: an existing key keeps its place and takes the new value,
   * a new key goes to the end.
   */
  function Assign(fs: seq<(string, Json)>, k: string, v: Json): (r: seq<(string, Json)>)
    ensures Lookup(r, k) == Some(v)
    ensures forall k' :: k' != k ==> Lookup(r, k') == Lookup(fs, k')
    ensures forall p :: p in r ==> p in fs || p == (k, v)
    ensures UniqueKeys(fs) ==> UniqueKeys(r)
  {
    if fs == [] then [(k, v)]
    else if fs[0].0 == k then
      assert forall k' :: k' != k ==> Lookup(fs, k') == Lookup(fs[1..], k');
      assert forall p :: p in fs[1..] ==> p in fs;
      [(k, v)] + fs[1..]
    else
      var tail := Assign(fs[1..], k, v);
      assert forall p :: p in fs[1..] ==> p in fs;
      assert UniqueKeys(fs) ==> UniqueKeys([fs[0]] + tail) by {
        if UniqueKeys(fs) {
          forall p | p in tail ensures p.0 != fs[0].0 {
            if p in fs[1..] {
              var m :| 0 <= m < |fs[1..]| && fs[1..][m] == p;
              assert fs[m + 1] == p;
            }
          }
          forall i, j | 0 <= i < j < |[fs[0]] + tail| ensures ([fs[0]] + tail)[i].0 != ([fs[0]] + tail)[j].0 {
            if i == 0 {
              assert ([fs[0]] + tail)[j] == tail[j - 1];
              assert tail[j - 1] in tail;
            }
          }
        }
      }
      [fs[0]] + tail
  }

  /**
   * `sanitize(obj)`: null, undefined, booleans and numbers come back as
   * they are; a string loses its dangerous characters and is trimmed; an
   * array is mapped element by element; an object is rebuilt key by key
   * (`Fields`). The operator table is a parameter so that the table the
   * middleware writes and the one its lookup needs can be compared.
   */
  function Sanitize(j: Json, table: set<string>): (r: Json)
    ensures j.Null? || j.Undefined? || j.Bool? || j.Num? ==> r == j
    ensures j.Str? ==> r == Str(Trim(Strip(j.s))) && NoDangerous(r.s)
    ensures j.Arr? ==> r.Arr? && |r.items| == |j.items|
                       && forall i :: 0 <= i < |j.items| ==> r.items[i] == Sanitize(j.items[i], table)
    ensures j.Obj? ==> r.Obj? && UniqueKeys(r.fields)
    decreases j, 1
  {
    match j
    case Str(s) =>
      StripMeaning(s);
      TrimKeepsClean(Strip(s));
      Str(Trim(Strip(s)))
    case Arr(items) => Arr(seq(|items|, i requires 0 <= i < |items| => Sanitize(items[i], table)))
    case Obj(fs) => Obj(Fields(j, |fs|, table))
    case _ => j
  }

  /**
   * The `for…in` loop over the first `n` keys of the object `j`: an
   * operator key is skipped, a key that stripping empties is skipped, and
   * otherwise the stripped key is assigned the sanitized value.
   */
  function Fields(j: Json, n: nat, table: set<string>): (r: seq<(string, Json)>)
    requires j.Obj? && n <= |j.fields|
    ensures UniqueKeys(r)
    decreases j, 0, n
  {
    if n == 0 then []
    else
      var acc := Fields(j, n - 1, table);
      var key := j.fields[n - 1].0;
      if Kept(key, table) then Assign(acc, Strip(key), Sanitize(j.fields[n - 1].1, table)) else acc
  }

  /**
   * What lands under a key of the sanitized object: the key is present
   * exactly when some input key lands on it, and its value is the
   * sanitized value of the last input key that does.
   */
  lemma {:induction false} FieldsLookup(j: Json, n: nat, table: set<string>, k: string)
    requires j.Obj? && n <= |j.fields|
    ensures Lookup(Fields(j, n, table), k).Some? <==> exists i :: 0 <= i < n && Lands(j.fields[i].0, k, table)
    ensures forall i :: 0 <= i < n && LastLanding(j, n, i, k, table)
                        ==> Lookup(Fields(j, n, table), k) == Some(Sanitize(j.fields[i].1, table))
  {
    FieldsPresence(j, n, table, k);
    forall i | 0 <= i < n && LastLanding(j, n, i, k, table)
      ensures Lookup(Fields(j, n, table), k) == Some(Sanitize(j.fields[i].1, table))
    {
      FieldsValue(j, n, table, k, i);
    }
  }

  /** One more input key either writes `k` or leaves it as it was. */
  lemma FieldsStep(j: Json, n: nat, table: set<string>, k: string)
    requires j.Obj? && 0 < n <= |j.fields|
    ensures Lookup(Fields(j, n, table), k) ==
              if Lands(j.fields[n - 1].0, k, table) then Some(Sanitize(j.fields[n - 1].1, table))
              else Lookup(Fields(j, n - 1, table), k)
  {
    if !Lands(j.fields[n - 1].0, k, table) {
      LookupSkipped(j, n, table, k);
    }
  }

  lemma {:induction false} FieldsPresence(j: Json, n: nat, table: set<string>, k: string)
    requires j.Obj? && n <= |j.fields|
    ensures Lookup(Fields(j, n, table), k).Some? <==> LandsBefore(j, n, k, table)
  {
    if n > 0 {
      FieldsPresence(j, n - 1, table, k);
      FieldsStep(j, n, table, k);
      LandsBeforeStep(j, n, k, table);
    }
  }

  /** Some of the first `n` input keys lands on `k`. */
  predicate LandsBefore(j: Json, n: nat, k: string, table: set<string>)
    requires j.Obj? && n <= |j.fields|
  {
    exists i :: 0 <= i < n && Lands(j.fields[i].0, k, table)
  }

  lemma LandsBeforeStep(j: Json, n: nat, k: string, table: set<string>)
    requires j.Obj? && 0 < n <= |j.fields|
    ensures LandsBefore(j, n, k, table) <==> LandsBefore(j, n - 1, k, table) || Lands(j.fields[n - 1].0, k, table)
  {
    if LandsBefore(j, n, k, table) && !Lands(j.fields[n - 1].0, k, table) {
      var i :| 0 <= i < n && Lands(j.fields[i].0, k, table);
      assert i != n - 1;
    }
  }

  lemma {:induction false} FieldsValue(j: Json, n: nat, table: set<string>, k: string, i: nat)
    requires j.Obj? && i < n <= |j.fields| && LastLanding(j, n, i, k, table)
    ensures Lookup(Fields(j, n, table), k) == Some(Sanitize(j.fields[i].1, table))
    decreases n, 1
  {
    if i < n - 1 {
      FieldsValueEarlier(j, n, table, k, i);
    } else {
      FieldsStep(j, n, table, k);
    }
  }

  /** The last landing comes before the `n`-th key: that key leaves `k` alone. */
  lemma {:induction false} FieldsValueEarlier(j: Json, n: nat, table: set<string>, k: string, i: nat)
    requires j.Obj? && i < n - 1 && n <= |j.fields| && LastLanding(j, n, i, k, table)
    ensures Lookup(Fields(j, n, table), k) == Some(Sanitize(j.fields[i].1, table))
    decreases n, 0
  {
    LastLandingEarlier(j, n, i, k, table);
    LookupSkipped(j, n, table, k);
    FieldsValue(j, n - 1, table, k, i);
  }

  /** The `i`-th of the first `n` input keys lands on `k`, and no later one of them does. */
  predicate LastLanding(j: Json, n: nat, i: nat, k: string, table: set<string>)
    requires j.Obj? && i < n <= |j.fields|
  {
    Lands(j.fields[i].0, k, table) && forall m :: i < m < n ==> !Lands(j.fields[m].0, k, table)
  }

  /** When the last landing is not the last key, the last key does not land and the landing is last among the others. */
  lemma LastLandingEarlier(j: Json, n: nat, i: nat, k: string, table: set<string>)
    requires j.Obj? && i < n - 1 && n <= |j.fields| && LastLanding(j, n, i, k, table)
    ensures !Lands(j.fields[n - 1].0, k, table) && LastLanding(j, n - 1, i, k, table)
  {
  }

  /** A key that does not land on `k` leaves the entry under `k` as it was. */
  lemma LookupSkipped(j: Json, n: nat, table: set<string>, k: string)
    requires j.Obj? && 0 < n <= |j.fields| && !Lands(j.fields[n - 1].0, k, table)
    ensures Lookup(Fields(j, n, table), k) == Lookup(Fields(j, n - 1, table), k)
  {
  }

  /** Every string and every key, at any depth, is free of dangerous characters. */
  predicate Clean(j: Json)
  {
    match j
    case Str(s) => NoDangerous(s)
    case Arr(items) => forall i :: 0 <= i < |items| ==> Clean(items[i])
    case Obj(fs) => forall i :: 0 <= i < |fs| ==> NoDangerous(fs[i].0) && Clean(fs[i].1)
    case _ => true
  }

  /** The sanitizer's output is clean, whatever its input. */
  lemma {:induction false} SanitizeClean(j: Json, table: set<string>)
    ensures Clean(Sanitize(j, table))
    decreases j, 1
  {
    match j
    case Arr(items) =>
      forall i | 0 <= i < |items| ensures Clean(Sanitize(j, table).items[i]) {
        SanitizeClean(items[i], table);
      }
    case Obj(fs) =>
      FieldsClean(j, |fs|, table);
      var r := Fields(j, |fs|, table);
      assert forall i :: 0 <= i < |r| ==> r[i] in r;
    case _ =>
  }

  lemma {:induction false} FieldsClean(j: Json, n: nat, table: set<string>)
    requires j.Obj? && n <= |j.fields|
    ensures CleanEntries(Fields(j, n, table))
    decreases j, 0, n
  {
    if n > 0 {
      FieldsClean(j, n - 1, table);
      var key := j.fields[n - 1].0;
      if Kept(key, table) {
        StripMeaning(key);
        SanitizeClean(j.fields[n - 1].1, table);
        AssignKeepsClean(Fields(j, n - 1, table), Strip(key), Sanitize(j.fields[n - 1].1, table));
      }
    }
  }

  /** Every key and every value of the entries is clean. */
  predicate CleanEntries(fs: seq<(string, Json)>)
  {
    forall p :: p in fs ==> NoDangerous(p.0) && Clean(p.1)
  }

  lemma AssignKeepsClean(fs: seq<(string, Json)>, k: string, v: Json)
    requires CleanEntries(fs) && NoDangerous(k) && Clean(v)
    ensures CleanEntries(Assign(fs, k, v))
  {
  }

  /** A clean object has no operator key at any level, in either table. */
  lemma {:induction false} CleanHasNoOperatorKey(j: Json)
    requires Clean(j) && j.Obj?
    ensures forall i :: 0 <= i < |j.fields| ==> j.fields[i].0 !in Operators && j.fields[i].0 !in OperatorTable
  {
    forall i | 0 <= i < |j.fields| ensures j.fields[i].0 !in Operators && j.fields[i].0 !in OperatorTable {
      var k := j.fields[i].0;
      assert k == [] || k[0] != '$' by {
        if k != [] { assert k[0] in k; }
      }
    }
  }

  /**
   * With the table as written, `$elemMatch` is never recognised: the key is
   * lower-cased before the lookup and the table holds it with a capital M,
   * so the key survives with its `$` stripped.
   */
  lemma ElemMatchSurvives(v: Json)
    ensures Sanitize(Obj([("$elemMatch", v)]), OperatorTable)
            == Obj([("elemMatch", Sanitize(v, OperatorTable))])
  {
    var j := Obj([("$elemMatch", v)]);
    ElemMatchKeptAsWritten();
    assert Fields(j, 1, OperatorTable) == Assign([], "elemMatch", Sanitize(v, OperatorTable));
  }

  /** With every operator in lower case, an `$elemMatch` key is dropped with its value, as is its lower-case spelling. */
  lemma ElemMatchDropped(v: Json)
    ensures Sanitize(Obj([("$elemMatch", v)]), Operators) == Obj([])
    ensures Sanitize(Obj([("$elemmatch", v)]), Operators) == Obj([])
  {
    ElemMatchNotKept();
    assert Fields(Obj([("$elemMatch", v)]), 1, Operators) == [];
    assert Fields(Obj([("$elemmatch", v)]), 1, Operators) == [];
  }

  lemma ElemMatchKeptAsWritten()
    ensures Kept("$elemMatch", OperatorTable) && Strip("$elemMatch") == "elemMatch"
  {
    LowerElemMatch();
    StripElemMatch();
    LowerCaseNotInTable();
  }

  lemma ElemMatchNotKept()
    ensures !Kept("$elemMatch", Operators) && !Kept("$elemmatch", Operators)
  {
    LowerElemMatch();
  }

  /** The lower-cased key differs from the table's entry in its capital M. */
  lemma LowerCaseNotInTable()
    ensures "$elemmatch" !in OperatorTable
  {
    assert "$elemmatch"[5] != "$elemMatch"[5];
  }

  lemma LowerElemMatch()
    ensures Lower("$elemMatch") == "$elemmatch"
    ensures Lower("$elemmatch") == "$elemmatch"
  {
  }

  lemma StripElemMatch()
    ensures Strip("$elemMatch") == "elemMatch"
  {
    assert "$elemMatch"[1..] == "elemMatch";
    assert NoDangerous("elemMatch");
    StripMeaning("elemMatch");
  }

  /** The fields of a request body that are put back unsanitized. */
  const PreserveFields: seq<string> := ["email", "password", "resetToken", "verificationToken"]

  /**
   * The `preserveFields.forEach` over the first fields of `names`: each
   * field the original body defines is written back with its original
   * value.
   */
  function Restore(body: Json, original: seq<(string, Json)>, names: seq<string>): (r: Json)
    requires body.Obj?
    ensures r.Obj?
    ensures UniqueKeys(body.fields) ==> UniqueKeys(r.fields)
  {
    if names == [] then body
    else
      var prev := Restore(body, original, names[..|names| - 1]);
      var f := names[|names| - 1];
      var v := Lookup(original, f);
      if v.Some? && !v.value.Undefined? then Obj(Assign(prev.fields, f, v.value)) else prev
  }

  /**
   * The new `req.body` under an operator table: objects and arrays are
   * sanitized; only an object has fields to restore.
   */
  function SanitizedBody(body: Json, table: set<string>): (r: Json)
  {
    match body
    case Obj(fs) => Restore(Sanitize(body, table), fs, PreserveFields)
    case Arr(_) => Sanitize(body, table)
    case _ => body
  }

  /**
   * A preserved field the original body defines keeps its original value;
   * every other key of the new body holds what the sanitizer produced.
   */
  lemma {:induction false} RestoreMeaning(body: Json, original: seq<(string, Json)>, names: seq<string>, k: string)
    requires body.Obj?
    ensures var v := Lookup(original, k);
            k in names && v.Some? && !v.value.Undefined? ==> Lookup(Restore(body, original, names).fields, k) == v
    ensures (k !in names || Lookup(original, k).None? || Lookup(original, k).value.Undefined?) ==>
              Lookup(Restore(body, original, names).fields, k) == Lookup(body.fields, k)
  {
    if names != [] {
      var init := names[..|names| - 1];
      RestoreMeaning(body, original, init, k);
      assert k in names && k != names[|names| - 1] ==> k in init by {
        if k in names && k != names[|names| - 1] {
          var i :| 0 <= i < |names| && names[i] == k;
          assert init[i] == k;
        }
      }
      assert k in init ==> k in names;
    }
  }

  /** The preserved credentials reach the handler exactly as sent. */
  lemma PreservedFieldsKept(fs: seq<(string, Json)>, k: string, table: set<string>)
    requires k in PreserveFields
    requires Lookup(fs, k).Some? && !Lookup(fs, k).value.Undefined?
    ensures Lookup(SanitizedBody(Obj(fs), table).fields, k) == Lookup(fs, k)
  {
    RestoreMeaning(Sanitize(Obj(fs), table), fs, PreserveFields, k);
  }

  /** Every other key of the body carries what the sanitizer made of it. */
  lemma OtherFieldsSanitized(fs: seq<(string, Json)>, k: string, table: set<string>)
    requires k !in PreserveFields
    ensures Lookup(SanitizedBody(Obj(fs), table).fields, k) == Lookup(Sanitize(Obj(fs), table).fields, k)
  {
    RestoreMeaning(Sanitize(Obj(fs), table), fs, PreserveFields, k);
  }

  /**
   * The body the middleware as written returns for an `$elemMatch` key
   * still holds the key, renamed `elemMatch`; with the lower-case table the
   * key is dropped.
   */
  lemma HandlerElemMatch(v: Json)
    ensures SanitizedBody(Obj([("$elemMatch", v)]), OperatorTable) == Obj([("elemMatch", Sanitize(v, OperatorTable))])
    ensures SanitizedBody(Obj([("$elemMatch", v)]), Operators) == Obj([])
  {
    var fs := [("$elemMatch", v)];
    NoPreservedField(v);
    assert SanitizedBody(Obj(fs), OperatorTable) == Obj([("elemMatch", Sanitize(v, OperatorTable))]) by {
      ElemMatchSurvives(v);
      NothingToRestore(Sanitize(Obj(fs), OperatorTable), fs, PreserveFields);
    }
    assert SanitizedBody(Obj(fs), Operators) == Obj([]) by {
      ElemMatchDropped(v);
      NothingToRestore(Sanitize(Obj(fs), Operators), fs, PreserveFields);
    }
  }

  /** A body whose only key is `$elemMatch` defines none of the preserved fields. */
  lemma NoPreservedField(v: Json)
    ensures forall k :: k in PreserveFields ==> Lookup([("$elemMatch", v)], k).None?
  {
    forall k | k in PreserveFields ensures Lookup([("$elemMatch", v)], k).None? {
      assert k != "$elemMatch" by { assert k[0] != '$'; }
    }
  }

  /** Names the original body does not define leave the sanitized body as it is. */
  lemma {:induction false} NothingToRestore(body: Json, original: seq<(string, Json)>, names: seq<string>)
    requires body.Obj?
    requires forall k :: k in names ==> Lookup(original, k).None?
    ensures Restore(body, original, names) == body
  {
    if names != [] {
      NothingToRestore(body, original, names[..|names| - 1]);
    }
  }

  /** A route parameter whose name mentions a token is left alone. */
  predicate TokenParam(key: string)
  {
    Contains(key, "token") || Contains(key, "Token")
  }

  /** The new value of one route parameter: a string is stripped, but not trimmed, unless it is a token. */
  function CleanParam(key: string, v: Json): (r: Json)
    ensures TokenParam(key) || !v.Str? ==> r == v
    ensures !TokenParam(key) && v.Str? ==> r.Str? && NoDangerous(r.s) && (NoDangerous(v.s) ==> r == v)
  {
    if v.Str? && !TokenParam(key) then
      StripMeaning(v.s);
      Str(Strip(v.s))
    else v
  }

  /** The incoming request as the middleware sees it; the middleware rewrites its parts in place. */
  class Request {
    var body: Json
    var query: Json
    var params: seq<(string, Json)>

    constructor (body: Json, query: Json, params: seq<(string, Json)>)
      ensures this.body == body && this.query == query && this.params == params
    {
      this.body := body;
      this.query := query;
      this.params := params;
    }

    /**
     * `sanitizeInput`: the body and the query are replaced by their
     * sanitized forms, the route parameters are cleaned one by one, and the
     * request always goes on to the next handler. The middleware as
     * written runs with `OperatorTable`.
     */
    method SanitizeInput(table: set<string>)
      modifies this
      ensures body == SanitizedBody(old(body), table)
      ensures query == (if old(query).Obj? || old(query).Arr? then Sanitize(old(query), table) else old(query))
      ensures |params| == |old(params)|
      ensures forall i :: 0 <= i < |params| ==>
                params[i] == (old(params)[i].0, CleanParam(old(params)[i].0, old(params)[i].1))
    {
      if body.Obj? {
        var original := body.fields;
        var b := Sanitize(body, table);
        for i := 0 to |PreserveFields|
          invariant b == Restore(Sanitize(Obj(original), table), original, PreserveFields[..i])
        {
          var f := PreserveFields[i];
          var v := Lookup(original, f);
          assert PreserveFields[..i + 1][..i] == PreserveFields[..i];
          if v.Some? && !v.value.Undefined? {
            b := Obj(Assign(b.fields, f, v.value));
          }
        }
        assert PreserveFields[..|PreserveFields|] == PreserveFields;
        body := b;
      } else if body.Arr? {
        body := Sanitize(body, table);
      }
      if query.Obj? || query.Arr? {
        query := Sanitize(query, table);
      }
      for i := 0 to |params|
        invariant body == SanitizedBody(old(body), table)
        invariant query == (if old(query).Obj? || old(query).Arr? then Sanitize(old(query), table) else old(query))
        invariant |params| == |old(params)|
        invariant forall m :: 0 <= m < i ==> params[m] == (old(params)[m].0, CleanParam(old(params)[m].0, old(params)[m].1))
        invariant forall m :: i <= m < |params| ==> params[m] == old(params)[m]
      {
        var key := params[i].0;
        if params[i].1.Str? && !TokenParam(key) {
          params := params[i := (key, CleanParam(key, params[i].1))];
        }
      }
    }
  }
}
