/**
 * The access guards: `protect` picks the bearer token (header first,
 * cookie second), verifies it and loads the user into the request;
 * `isAdmin` and `isAdminOrVendedor` gate on the loaded user's role. The
 * JWT check is a parameter that yields the id in the token, or nothing
 * when the signature or the expiry is wrong.
 */
module Auth {
  import opened Refs
  import opened Wrappers
  import opened Text
  import opened UserModel

  /** `s.join(' ')` */
  function Join(parts: seq<string>): string
    requires |parts| >= 1
  {
    parts[0] + Spaced(parts[1..])
  }

  /** Each piece with a space in front of it. */
  function Spaced(parts: seq<string>): string
  {
    if parts == [] then "" else " " + parts[0] + Spaced(parts[1..])
  }

  /** `s.split(' ')`: the pieces between single spaces, empty ones included. */
  function Split(s: string): (parts: seq<string>)
    ensures |parts| >= 1
    ensures forall i :: 0 <= i < |parts| ==> ' ' !in parts[i]
  {
    if s == [] then [""]
    else
      var rest := Split(s[1..]);
      if s[0] == ' ' then [""] + rest
      else [[s[0]] + rest[0]] + rest[1..]
  }

  /** Splitting loses nothing: joining the pieces with single spaces gives the string back. */
  lemma {:induction false} SplitJoin(s: string)
    ensures Join(Split(s)) == s
  {
    if s != [] {
      var rest := Split(s[1..]);
      SplitJoin(s[1..]);
      if s[0] == ' ' {
        JoinAfterEmpty(rest);
      } else {
        JoinAfterChar(s[0], rest);
      }
      assert s == [s[0]] + s[1..];
    }
  }

  /** An empty first piece contributes only its separator. */
  lemma JoinAfterEmpty(parts: seq<string>)
    requires |parts| >= 1
    ensures Join([""] + parts) == " " + Join(parts)
  {
    assert ([""] + parts)[1..] == parts;
  }

  /** A character put in front of the first piece is put in front of the joined text. */
  lemma JoinAfterChar(c: char, parts: seq<string>)
    requires |parts| >= 1
    ensures Join([[c] + parts[0]] + parts[1..]) == [c] + Join(parts)
  {
    assert ([[c] + parts[0]] + parts[1..])[1..] == parts[1..];
  }

  /** A word with no space splits into itself. */
  lemma {:induction false} SplitWord(w: string)
    requires ' ' !in w
    ensures Split(w) == [w]
  {
    if w != [] {
      assert w[0] != ' ';
      SplitWord(w[1..]);
      assert [w[0]] + w[1..] == w;
    }
  }

  /** A word followed by a space and more text splits into the word and the pieces of the rest. */
  lemma {:induction false} SplitAfterWord(w: string, rest: string)
    requires ' ' !in w
    ensures Split(w + " " + rest) == [w] + Split(rest)
  {
    if w == [] {
      assert w + " " + rest == [' '] + rest;
      assert (w + " " + rest)[1..] == rest;
    } else {
      assert w[0] != ' ';
      SplitAfterWord(w[1..], rest);
      assert (w + " " + rest)[1..] == w[1..] + " " + rest;
      assert [w[0]] + w[1..] == w;
    }
  }

  /** The header is a bearer header: present and starting with `Bearer`. */
  predicate Bearer(authorization: Option<string>)
  {
    authorization.Some? && StartsWith(authorization.value, "Bearer")
  }

  /**
   * The token `protect` works with: a bearer header wins and its token is
   * the second space-separated piece, no token when that piece is missing
   * or empty; the cookie counts only when there is no bearer header.
   */
  function TokenSource(authorization: Option<string>, cookie: Option<string>): (token: Option<string>)
    ensures token.Some? ==> token.value != ""
    ensures Bearer(authorization) && token.Some? ==> ' ' !in token.value
    ensures !Bearer(authorization) ==> token == (if cookie.Some? && cookie.value != "" then cookie else None)
  {
    if Bearer(authorization) then
      var parts := Split(authorization.value);
      if |parts| > 1 && parts[1] != "" then Some(parts[1]) else None
    else if cookie.Some? && cookie.value != "" then cookie
    else None
  }

  /** `Bearer <t>` yields `t`, whatever the cookie says. */
  lemma BearerWins(t: string, rest: string, cookie: Option<string>)
    requires t != "" && ' ' !in t
    ensures TokenSource(Some("Bearer " + t), cookie) == Some(t)
    ensures TokenSource(Some("Bearer " + t + " " + rest), cookie) == Some(t)
  {
    BearerHasNoSpace();
    assert StartsWith("Bearer " + t, "Bearer") by {
      assert ("Bearer " + t)[..6] == "Bearer";
    }
    assert StartsWith("Bearer " + t + " " + rest, "Bearer") by {
      assert ("Bearer " + t + " " + rest)[..6] == "Bearer";
    }
    assert "Bearer " + t == "Bearer" + " " + t;
    SplitAfterWord("Bearer", t);
    SplitWord(t);
    assert "Bearer " + t + " " + rest == "Bearer" + " " + (t + " " + rest);
    SplitAfterWord("Bearer", t + " " + rest);
    SplitAfterWord(t, rest);
  }

  /** A bare `Bearer` header, or one with two spaces, yields no token even when a cookie carries one. */
  lemma BareBearerHidesCookie(cookie: Option<string>)
    ensures TokenSource(Some("Bearer"), cookie).None?
    ensures TokenSource(Some("Bearer  abc"), cookie).None?
  {
    BareBearerPieces();
    DoubleSpacePieces();
  }

  /** `"Bearer"` is a bearer header and splits into the one piece `"Bearer"`. */
  lemma BareBearerPieces()
    ensures Bearer(Some("Bearer")) && Split("Bearer") == ["Bearer"]
  {
    BearerHasNoSpace();
    SplitWord("Bearer");
    assert StartsWith("Bearer", "Bearer") by { assert "Bearer"[..6] == "Bearer"; }
  }

  /** `"Bearer  abc"` is a bearer header whose second piece is empty. */
  lemma DoubleSpacePieces()
    ensures Bearer(Some("Bearer  abc")) && |Split("Bearer  abc")| > 1 && Split("Bearer  abc")[1] == ""
  {
    var h := "Bearer  abc";
    assert StartsWith(h, "Bearer") by { assert h[..6] == "Bearer"; }
    BearerHasNoSpace();
    assert h == "Bearer" + " " + (" " + "abc");
    SplitDoubleSpace("Bearer", "abc");
  }

  /** Two spaces after a word leave an empty second piece. */
  lemma SplitDoubleSpace(w: string, t: string)
    requires ' ' !in w
    ensures var parts := Split(w + " " + (" " + t)); |parts| > 1 && parts[1] == ""
  {
    SplitAfterWord(w, " " + t);
    assert " " + t == "" + " " + t;
    SplitAfterWord("", t);
  }

  lemma BearerHasNoSpace()
    ensures ' ' !in "Bearer"
  {
    var b := "Bearer";
    assert b[0] != ' ' && b[1] != ' ' && b[2] != ' ' && b[3] != ' ' && b[4] != ' ' && b[5] != ' ';
  }

  /** The id-to-document lookup `User.findById`. */
  function FindById(docs: seq<Account>, id: Id): (r: Option<Account>)
    ensures r.Some? ==> r.value in docs && r.value.id == id
    ensures r.None? ==> forall i :: 0 <= i < |docs| ==> docs[i].id != id
  {
    if docs == [] then None
    else if docs[0].id == id then Some(docs[0])
    else FindById(docs[1..], id)
  }

  /** `.select('-password')`: the document without its password digest. */
  function WithoutPassword(a: Account): Account
  {
    a.(password := "")
  }

  /** Why `protect` answers 401. */
  datatype Denial = NoToken | BadToken | UserNotFound

  /** What a guard lets through: on to the handler, 401, or 403. */
  datatype Gate = Next | Unauthorized(denial: Denial) | Forbidden

  function Status(g: Gate): int
  {
    match g
    case Next => 200
    case Unauthorized(_) => 401
    case Forbidden => 403
  }

  /**
   * What `protect` decides: no token, a token the check refuses, or a
   * token whose user is gone are each refused; otherwise the user the
   * token names, without the password digest.
   */
  function Authenticate(authorization: Option<string>, cookie: Option<string>,
                        verify: string -> Option<Id>, docs: seq<Account>): (r: Result<Account, Denial>)
    ensures r == Err(NoToken) <==> TokenSource(authorization, cookie).None?
    ensures r == Err(BadToken) <==>
              TokenSource(authorization, cookie).Some? && verify(TokenSource(authorization, cookie).value).None?
    ensures r.Ok? ==>
              && TokenSource(authorization, cookie).Some?
              && verify(TokenSource(authorization, cookie).value) == Some(r.value.id)
              && r.value.password == ""
              && exists a :: a in docs && a.id == r.value.id && r.value == WithoutPassword(a)
    ensures r == Err(UserNotFound) <==>
              && TokenSource(authorization, cookie).Some?
              && verify(TokenSource(authorization, cookie).value).Some?
              && FindById(docs, verify(TokenSource(authorization, cookie).value).value).None?
  {
    var token := TokenSource(authorization, cookie);
    if token.None? then Err(NoToken)
    else
      var id := verify(token.value);
      if id.None? then Err(BadToken)
      else
        var found := FindById(docs, id.value);
        if found.None? then Err(UserNotFound) else Ok(WithoutPassword(found.value))
  }

  /** A request as the middleware chain sees it; `protect` assigns `user`. */
  class Request {
    var user: Option<Account>

    constructor ()
      ensures user.None?
    {
      user := None;
    }

    /**
     * `protect`: 401 with no token or a refused one, the user untouched;
     * otherwise `req.user` is what the lookup found (nothing when the
     * user is gone, which is again 401), and the request goes on only
     * when a user was found.
     */
    method Protect(authorization: Option<string>, cookie: Option<string>,
                   verify: string -> Option<Id>, docs: seq<Account>) returns (g: Gate)
      modifies this
      ensures var r := Authenticate(authorization, cookie, verify, docs);
              && (g.Next? <==> r.Ok?)
              && (r.Ok? ==> user == Some(r.value))
              && (r.Err? ==> g == Unauthorized(r.error))
              && (r == Err(UserNotFound) ==> user.None?)
              && (r == Err(NoToken) || r == Err(BadToken) ==> user == old(user))
    {
      var token := TokenSource(authorization, cookie);
      if token.None? {
        return Unauthorized(NoToken);
      }
      var decoded := verify(token.value);
      if decoded.None? {
        return Unauthorized(BadToken);
      }
      var found := FindById(docs, decoded.value);
      user := if found.Some? then Some(WithoutPassword(found.value)) else None;
      if user.None? {
        return Unauthorized(UserNotFound);
      }
      g := Next;
    }
  }

  /** `isAdmin`: only an administrator goes on. */
  function IsAdmin(user: Option<Account>): (g: Gate)
    ensures g.Next? <==> user.Some? && user.value.role == Admin
    ensures g.Next? || g == Forbidden
  {
    if user.Some? && user.value.role == Admin then Next else Forbidden
  }

  /** `isAdminOrVendedor`: an administrator or a seller goes on. */
  function IsAdminOrVendedor(user: Option<Account>): (g: Gate)
    ensures g.Next? <==> user.Some? && user.value.role in {Admin, Vendedor}
    ensures g.Next? || g == Forbidden
  {
    if user.Some? && (user.value.role == Admin || user.value.role == Vendedor) then Next else Forbidden
  }

  /** The two gates are nested: whoever passes `isAdmin` passes `isAdminOrVendedor`, and a client passes neither. */
  lemma GatesNested(user: Option<Account>)
    ensures IsAdmin(user).Next? ==> IsAdminOrVendedor(user).Next?
    ensures user.Some? && user.value.role == Cliente ==> Status(IsAdminOrVendedor(user)) == 403
  {
  }

  /** A request that got past `protect` and then `isAdmin` carries an administrator whose id the token names. */
  lemma ProtectedAdmin(authorization: Option<string>, cookie: Option<string>, verify: string -> Option<Id>,
                       docs: seq<Account>)
    requires Authenticate(authorization, cookie, verify, docs).Ok?
    requires IsAdmin(Some(Authenticate(authorization, cookie, verify, docs).value)).Next?
    ensures exists a :: a in docs && a.role == Admin
                        && verify(TokenSource(authorization, cookie).value) == Some(a.id)
  {
    var u := Authenticate(authorization, cookie, verify, docs).value;
    var a :| a in docs && a.id == u.id && u == WithoutPassword(a);
    assert a.role == u.role;
  }
}
