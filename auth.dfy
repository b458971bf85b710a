/**
 * The two authentication gates of server/server.js: the REST middleware that reads a
 * bearer token from the Authorization header, and the socket handshake check. Token
 * verification (JWT with the server secret) is an opaque oracle `verify`.
 */
module Auth {
  import opened Types

  /** The identity a verified token carries. */
  datatype Claims = Claims(id: UserId, email: string)

  /** Outcome of the REST middleware: the route runs with the claims, or an error is sent. */
  datatype Gate = Granted(user: Claims) | Denied(error: HttpError)

  const AccessDenied := "Přístup zamítnut"
  const InvalidToken := "Neplatný token"

  /** JavaScript's `s.split(' ')`: the pieces between single spaces, empty pieces included. */
  function Split(s: string): (r: seq<string>)
    ensures |r| >= 1
    ensures forall i :: 0 <= i < |r| ==> ' ' !in r[i]
  {
    if s == [] then [""]
    else
      var rest := Split(s[1..]);
      if s[0] == ' ' then [""] + rest
      else [[s[0]] + rest[0]] + rest[1..]
  }

  /** The inverse of Split: the pieces glued back with single spaces. */
  function Join(parts: seq<string>): string
    requires |parts| >= 1
  {
    if |parts| == 1 then parts[0] else parts[0] + " " + Join(parts[1..])
  }

  /** Splitting loses nothing: joining the pieces gives the header back. */
  lemma {:induction false} JoinSplit(s: string)
    ensures Join(Split(s)) == s
  {
    if s != [] {
      var rest := Split(s[1..]);
      JoinSplit(s[1..]);
      if s[0] == ' ' {
        assert Join([""] + rest) == "" + " " + Join(rest);
        assert s == " " + s[1..];
      } else if |rest| == 1 {
        assert s == [s[0]] + s[1..];
      } else {
        var parts := [[s[0]] + rest[0]] + rest[1..];
        assert parts[1..] == rest[1..];
        assert Join(rest) == rest[0] + " " + Join(rest[1..]);
        assert s == [s[0]] + s[1..];
      }
    }
  }

  /** A space-free prefix is glued onto the first piece of what follows it. */
  lemma {:induction false} SplitPrefix(p: string, t: string)
    requires ' ' !in p
    ensures Split(p + t) == [p + Split(t)[0]] + Split(t)[1..]
  {
    if p != [] {
      assert (p + t)[1..] == p[1..] + t;
      SplitPrefix(p[1..], t);
      var rest := Split(p[1..] + t);
      assert rest[1..] == Split(t)[1..];
      assert [p[0]] + (p[1..] + Split(t)[0]) == p + Split(t)[0];
    } else {
      assert p + t == t;
      assert p + Split(t)[0] == Split(t)[0];
      assert Split(t) == [Split(t)[0]] + Split(t)[1..];
    }
  }

  /** Splitting a join of space-free pieces gives the pieces back. */
  lemma {:induction false} SplitJoin(parts: seq<string>)
    requires |parts| >= 1
    requires forall i :: 0 <= i < |parts| ==> ' ' !in parts[i]
    ensures Split(Join(parts)) == parts
  {
    if |parts| == 1 {
      SplitPrefix(parts[0], "");
      assert parts[0] + "" == parts[0];
    } else {
      var tail := Join(parts[1..]);
      SplitJoin(parts[1..]);
      assert Split(" " + tail) == [""] + Split(tail) by {
        assert (" " + tail)[1..] == tail;
      }
      SplitPrefix(parts[0], " " + tail);
      assert parts[0] + " " + tail == parts[0] + (" " + tail);
      assert parts[0] + "" == parts[0];
      assert parts == [parts[0]] + parts[1..];
    }
  }

  /**
   * The token the REST middleware reads: the second space-separated word of a present,
   * non-empty header, if that word is non-empty. Absence means 401.
   */
  function BearerToken(header: Option<string>): (t: Option<string>)
    ensures t.Some? ==> Truthy(header) && t.value != "" && ' ' !in t.value
    ensures t.Some? ==> |Split(header.value)| >= 2 && t.value == Split(header.value)[1]
  {
    if !Truthy(header) then None
    else
      var words := Split(header.value);
      if |words| >= 2 && words[1] != "" then Some(words[1]) else None
  }

  /** A piece that is empty or starts with a space ends the word before it. */
  lemma SplitAtBoundary(tail: string)
    requires tail == "" || tail[0] == ' '
    ensures Split(tail)[0] == ""
  {
  }

  /**
   * `<scheme> <token>`, possibly followed by more space-separated words, yields exactly
   * `token`.
   */
  lemma BearerTokenOfHeader(scheme: string, token: string, tail: string)
    requires ' ' !in scheme && ' ' !in token && token != ""
    requires tail == "" || tail[0] == ' '
    ensures BearerToken(Some(scheme + " " + token + tail)) == Some(token)
  {
    var h := scheme + " " + token + tail;
    var rest := " " + token + tail;
    assert h == scheme + rest;
    SplitPrefix(scheme, rest);
    assert rest[1..] == token + tail;
    assert Split(rest) == [""] + Split(token + tail);
    SplitPrefix(token, tail);
    SplitAtBoundary(tail);
    assert token + "" == token;
    assert Split(h)[1] == token;
    assert |h| > 0;
  }

  /** A header without a space has no second word, so it is refused with 401. */
  lemma HeaderWithoutSpaceHasNoToken(h: string)
    requires ' ' !in h
    ensures BearerToken(Some(h)) == None
  {
    SplitPrefix(h, "");
    assert h + "" == h;
  }

  /**
   * The REST middleware: 401 without a token, 403 when verification fails, otherwise the
   * route runs with the decoded identity.
   */
  function AuthenticateRequest(header: Option<string>, verify: string -> Option<Claims>): (g: Gate)
    ensures BearerToken(header).None? ==> g == Denied(HttpError(401, AccessDenied))
    ensures BearerToken(header).Some? && verify(BearerToken(header).value).None? ==>
              g == Denied(HttpError(403, InvalidToken))
    ensures BearerToken(header).Some? && verify(BearerToken(header).value).Some? ==>
              g == Granted(verify(BearerToken(header).value).value)
    ensures g.Granted? ==> BearerToken(header).Some? && verify(BearerToken(header).value) == Some(g.user)
  {
    match BearerToken(header)
    case None => Denied(HttpError(401, AccessDenied))
    case Some(t) =>
      match verify(t)
      case None => Denied(HttpError(403, InvalidToken))
      case Some(c) => Granted(c)
  }

  /** A well-formed `Bearer <token>` header with a token the oracle accepts reaches the route. */
  lemma BearerHeaderGrants(token: string, verify: string -> Option<Claims>)
    requires ' ' !in token && token != "" && verify(token).Some?
    ensures AuthenticateRequest(Some("Bearer " + token), verify) == Granted(verify(token).value)
  {
    BearerTokenOfHeader("Bearer", token, "");
    assert "Bearer" + " " + token + "" == "Bearer " + token;
  }

  /**
   * The socket handshake: a missing or empty token, or one the oracle rejects, refuses the
   * connection; otherwise the socket is tagged with the verified user id.
   */
  function AuthenticateHandshake(token: Option<string>, verify: string -> Option<Claims>): (r: Option<UserId>)
    ensures r.Some? <==> Truthy(token) && verify(token.value).Some?
    ensures r.Some? ==> r.value == verify(token.value).value.id
  {
    if !Truthy(token) then None
    else
      match verify(token.value)
      case None => None
      case Some(c) => Some(c.id)
  }
}
