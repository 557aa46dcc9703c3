/** backend/middleware/authMiddleware.js: the `protect` gate that turns an
    Authorization header into `req.user`, and the `admin` gate.
    JWT verification is a foreign call: it is a parameter `jwtVerify` that
    maps a non-empty token to the user id it decodes to, or to None when the
    signature or expiry check fails. */
module AuthMiddleware {
  import opened Common

  /** What a middleware does with the request: pass it on (`next()`),
      answer it with an error, or try to answer a request that has already
      been answered. Express refuses that last send (headers already sent):
      it throws, and in the async `protect` the error becomes a rejected
      promise instead of a reply, so the client sees only the first answer. */
  datatype Effect = Next | Reject(message: Message) | HeadersAlreadySent

  /** `String.prototype.startsWith`. */
  predicate StartsWith(s: string, prefix: string) {
    |prefix| <= |s| && s[..|prefix|] == prefix
  }

  /** `parts.join(' ')`. */
  function Join(parts: seq<string>): string
    requires |parts| >= 1
    decreases |parts|
  {
    if |parts| == 1 then parts[0] else parts[0] + " " + Join(parts[1..])
  }

  /** `s.split(' ')`: the fields between single spaces, empty fields
      included. The fields hold no space and join back to `s`. */
  function Split(s: string): (parts: seq<string>)
    ensures |parts| >= 1
    ensures forall i :: 0 <= i < |parts| ==> ' ' !in parts[i]
    ensures Join(parts) == s
    decreases |s|
  {
    if s == [] then [""]
    else if s[0] == ' ' then
      var rest := Split(s[1..]);
      assert ([""] + rest)[1..] == rest;
      assert s == [' '] + s[1..];
      [""] + rest
    else
      var rest := Split(s[1..]);
      var parts := [[s[0]] + rest[0]] + rest[1..];
      assert parts[1..] == rest[1..];
      assert s == [s[0]] + s[1..];
      assert |rest| > 1 ==> Join(rest) == rest[0] + " " + Join(rest[1..]);
      assert |rest| > 1 ==> Join(parts) == [s[0]] + rest[0] + " " + Join(rest[1..]);
      parts
  }

  /** `header.split(' ')[1]`: None stands for `undefined`. There is a token
      iff the header holds a space, and the token holds none. */
  function TokenOf(header: string): (t: Option<string>)
    ensures t.Some? <==> ' ' in header
    ensures t.Some? ==> ' ' !in t.value
  {
    var parts := Split(header);
    if |parts| >= 2 then
      assert ' ' in Join(parts) by {
        assert Join(parts) == parts[0] + " " + Join(parts[1..]);
        assert Join(parts)[|parts[0]|] == ' ';
      }
      Some(parts[1])
    else
      None
  }

  /** `jwt.verify`: jsonwebtoken refuses a missing or empty token
      ("jwt must be provided") before looking at it; any other token is
      decided by the foreign check. */
  function Verify(token: Option<string>, jwtVerify: string -> Option<UserId>): Option<UserId> {
    if Truthy(token) then jwtVerify(token.value) else None
  }

  /** `User.findById(decoded.id)`: null when the user no longer exists. */
  function LookupUser(users: map<UserId, User>, id: UserId): Option<User> {
    if id in users then Some(users[id]) else None
  }

  /** `protect`. The header is tried only when it exists and starts with
      "Bearer"; the token is its second space-separated field. A verified
      token attaches the user (null if that user was deleted) and passes the
      request on. A failed verification answers 401 "token failed". A falsy
      token leads to a 401 "no token" send; when the header did start with
      "Bearer", "token failed" has already been answered and that second send
      fails, so the client still sees only "token failed". */
  method Protect(header: Option<string>, jwtVerify: string -> Option<UserId>, users: map<UserId, User>)
    returns (effects: seq<Effect>, reqUser: Option<User>)
    ensures header.None? || !StartsWith(header.value, "Bearer") ==>
              effects == [Reject(NoToken)] && reqUser.None?
    ensures header.Some? && StartsWith(header.value, "Bearer") ==>
              var token := TokenOf(header.value);
              && (Truthy(token) && jwtVerify(token.value).Some? ==>
                    effects == [Next] && reqUser == LookupUser(users, jwtVerify(token.value).value))
              && (Truthy(token) && jwtVerify(token.value).None? ==>
                    effects == [Reject(TokenFailed)] && reqUser.None?)
              && (!Truthy(token) ==>
                    effects == [Reject(TokenFailed), HeadersAlreadySent] && reqUser.None?)
    ensures |effects| >= 1 && effects[0] != HeadersAlreadySent
    ensures forall i :: 1 <= i < |effects| ==> effects[i] == HeadersAlreadySent
    ensures Next in effects <==>
              header.Some? && StartsWith(header.value, "Bearer") && Verify(TokenOf(header.value), jwtVerify).Some?
  {
    effects, reqUser := [], None;
    var token: Option<string> := None;
    if header.Some? && StartsWith(header.value, "Bearer") {
      token := TokenOf(header.value);
      var decoded := Verify(token, jwtVerify);
      if decoded.Some? {
        reqUser := LookupUser(users, decoded.value);
        effects := effects + [Next];
      } else {
        effects := effects + [Reject(TokenFailed)];
      }
    }
    if !Truthy(token) {
      if effects == [] {
        effects := effects + [Reject(NoToken)];
      } else {
        effects := effects + [HeadersAlreadySent];
      }
    }
  }

  /** `admin`: passes the request on iff `req.user` is present and is an admin. */
  function AdminGate(reqUser: Option<User>): (e: Effect)
    ensures e.Next? <==> reqUser.Some? && reqUser.value.isAdmin
    ensures e.Reject? ==> e.message == NotAuthorizedAsAdmin
  {
    if reqUser.Some? && reqUser.value.isAdmin then Next else Reject(NotAuthorizedAsAdmin)
  }

  /** A field without spaces splits to itself. */
  lemma {:induction false} SplitWithoutSpace(w: string)
    requires ' ' !in w
    ensures Split(w) == [w]
  {
    if w != [] {
      assert ' ' !in w[1..];
      SplitWithoutSpace(w[1..]);
      assert [w[0]] + w[1..] == w;
    }
  }

  /** Splitting at the first space: the leading field, then the split of the rest. */
  lemma {:induction false} SplitAtFirstSpace(a: string, b: string)
    requires ' ' !in a
    ensures Split(a + " " + b) == [a] + Split(b)
  {
    if a == [] {
      assert a + " " + b == [' '] + b;
      assert (a + " " + b)[1..] == b;
    } else {
      assert (a + " " + b)[1..] == a[1..] + " " + b;
      assert ' ' !in a[1..];
      SplitAtFirstSpace(a[1..], b);
      assert (a + " " + b)[0] == a[0] != ' ';
      assert [a[0]] + a[1..] == a;
    }
  }

  /** "Bearer <t>" with a space-free token t yields exactly t. */
  lemma BearerHeaderToken(t: string)
    requires ' ' !in t
    ensures StartsWith("Bearer " + t, "Bearer")
    ensures TokenOf("Bearer " + t) == Some(t)
  {
    SplitAtFirstSpace("Bearer", t);
    SplitWithoutSpace(t);
    assert "Bearer " + t == "Bearer" + " " + t;
  }

  /** A bare "Bearer" header has no second field: its token is undefined,
      so `protect` answers "token failed" and its "no token" send fails. */
  lemma BareBearerHasNoToken()
    ensures StartsWith("Bearer", "Bearer")
    ensures TokenOf("Bearer") == None
  {
    SplitWithoutSpace("Bearer");
  }
}
